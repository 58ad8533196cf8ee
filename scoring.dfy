/** The objective scorer of the scoring page (app.py:154-179): it walks the
    original problem set, looks up each question's submitted choice, finds
    the choice's first position among the question's options and awards the
    question's points when that position is the answer key. */
module Scoring {
  import opened Wrappers
  import opened Quiz

  /** `answers.get(id)`: the stored value, or None when the key is absent. */
  function UserChoice(answers: Answers, id: QuestionId): Option<string> {
    if Item(id) in answers then answers[Item(id)] else None
  }

  /** Python truthiness of the looked-up value: present and non-empty. */
  predicate Answered(c: Option<string>) {
    c.Some? && c.value != ""
  }

  /** `options.index(x)`: the first position of `x`, or None where the
      list method raises. */
  function IndexOf(xs: seq<string>, x: string): (r: Option<nat>)
    ensures r.Some? ==> r.value < |xs| && xs[r.value] == x
    ensures r.Some? ==> forall j :: 0 <= j < r.value ==> xs[j] != x
    ensures r.None? <==> x !in xs
  {
    if xs == [] then None
    else if xs[0] == x then Some(0)
    else match IndexOf(xs[1..], x)
      case None => None
      case Some(k) => Some(k + 1)
  }

  /** The question is answered correctly by `c`: the choice is truthy, the
      question has options, the choice occurs among them and its first
      position is the question's answer key. A missing `options` or
      `answer` field raises inside the guarded block and counts as wrong. */
  predicate IsCorrect(q: Question, c: Option<string>) {
    Answered(c) && q.options.Some? &&
    match IndexOf(q.options.value, c.value)
    case None => false
    case Some(k) => q.answer == Some(k)
  }

  /** The `details` record of one question. */
  function Grade(q: Question, answers: Answers): Detail {
    var c := UserChoice(answers, q.id);
    var ok := IsCorrect(q, c);
    Detail(q.kind, c, ok, if ok then q.score else 0)
  }

  /** The points the objective part earns, accumulated in list order. */
  function ObjectiveScore(qs: seq<Question>, answers: Answers): int {
    if qs == [] then 0
    else ObjectiveScore(qs[..|qs| - 1], answers) + Grade(qs[|qs| - 1], answers).earned
  }

  /** The `details` dictionary: each question's record under its id, a
      later question overwriting an earlier one with the same id. */
  function DetailsOf(qs: seq<Question>, answers: Answers): map<QuestionId, Detail> {
    if qs == [] then map[]
    else DetailsOf(qs[..|qs| - 1], answers)[qs[|qs| - 1].id := Grade(qs[|qs| - 1], answers)]
  }

  /** The questions the submitted answers get right, in list order. */
  function CorrectQuestions(qs: seq<Question>, answers: Answers): seq<Question> {
    if qs == [] then []
    else
      var q := qs[|qs| - 1];
      CorrectQuestions(qs[..|qs| - 1], answers) + (if IsCorrect(q, UserChoice(answers, q.id)) then [q] else [])
  }

  /** The scoring loop of app.py:154-179. */
  method ScoreObjective(qs: seq<Question>, answers: Answers)
    returns (scoreObj: int, details: map<QuestionId, Detail>)
    ensures scoreObj == ObjectiveScore(qs, answers)
    ensures details == DetailsOf(qs, answers)
  {
    scoreObj := 0;
    details := map[];
    for i := 0 to |qs|
      invariant scoreObj == ObjectiveScore(qs[..i], answers)
      invariant details == DetailsOf(qs[..i], answers)
    {
      var q := qs[i];
      var userChoice := if Item(q.id) in answers then answers[Item(q.id)] else None;
      var isCorrect := false;
      if userChoice.Some? && userChoice.value != "" && q.options.Some? {
        var found := IndexOf(q.options.value, userChoice.value);
        if found.Some? && q.answer == Some(found.value) {
          scoreObj := scoreObj + q.score;
          isCorrect := true;
        }
      }
      details := details[q.id := Detail(q.kind, userChoice, isCorrect, if isCorrect then q.score else 0)];
      assert qs[..i + 1][..i] == qs[..i];
    }
    assert qs[..|qs|] == qs;
  }

  /** A question is marked correct exactly when the choice is truthy and
      occurs among its options, its first occurrence sitting at the answer
      key; points are earned only then. */
  lemma GradeCorrectIff(q: Question, answers: Answers)
    ensures var c := UserChoice(answers, q.id);
      Grade(q, answers).correct <==>
        (Answered(c) && q.options.Some? &&
         exists k :: 0 <= k < |q.options.value| && q.options.value[k] == c.value
           && (forall j :: 0 <= j < k ==> q.options.value[j] != c.value)
           && q.answer == Some(k))
    ensures Grade(q, answers).earned == if Grade(q, answers).correct then q.score else 0
  {
  }

  /** An absent answer, an empty answer, and a choice not among the options
      (or a question without options) are all marked wrong with no points,
      and the record keeps the looked-up value as it was. */
  lemma UnscoredCases(q: Question, answers: Answers)
    requires var c := UserChoice(answers, q.id);
      c.None? || c == Some("") || q.options.None? || c.value !in q.options.value
    ensures Grade(q, answers) == Detail(q.kind, UserChoice(answers, q.id), false, 0)
    ensures Item(q.id) !in answers ==> Grade(q, answers).userAns.None?
  {
  }

  /** Every question has a record under its id, and no other id has one. */
  lemma {:induction false} DetailsKeys(qs: seq<Question>, answers: Answers)
    ensures DetailsOf(qs, answers).Keys == Ids(qs)
  {
    if qs != [] {
      var n := |qs| - 1;
      DetailsKeys(qs[..n], answers);
      assert Ids(qs) == Ids(qs[..n]) + {qs[n].id} by {
        forall i | 0 <= i < n ensures qs[..n][i] == qs[i] { }
      }
    }
  }

  /** With unique ids, the record under each question's id is that
      question's own record. */
  lemma {:induction false} DetailsOfUnique(qs: seq<Question>, answers: Answers, i: int)
    requires UniqueIds(qs)
    requires 0 <= i < |qs|
    ensures qs[i].id in DetailsOf(qs, answers)
    ensures DetailsOf(qs, answers)[qs[i].id] == Grade(qs[i], answers)
  {
    var n := |qs| - 1;
    if i < n {
      assert UniqueIds(qs[..n]);
      assert qs[..n][i] == qs[i];
      DetailsOfUnique(qs[..n], answers, i);
    }
  }

  /** The sum of the earned points of the records, taken in question order. */
  function SumEarned(details: map<QuestionId, Detail>, qs: seq<Question>): int
    requires Ids(qs) <= details.Keys
  {
    if qs == [] then 0
    else
      assert Ids(qs[..|qs| - 1]) <= Ids(qs) by {
        forall i | 0 <= i < |qs| - 1 ensures qs[..|qs| - 1][i] == qs[i] { }
      }
      assert qs[|qs| - 1].id in Ids(qs);
      SumEarned(details, qs[..|qs| - 1]) + details[qs[|qs| - 1].id].earned
  }

  /** With unique ids, the records' earned points add up to the objective score. */
  lemma {:induction false} EarnedSumsToScore(qs: seq<Question>, answers: Answers)
    requires UniqueIds(qs)
    ensures Ids(qs) <= DetailsOf(qs, answers).Keys
    ensures SumEarned(DetailsOf(qs, answers), qs) == ObjectiveScore(qs, answers)
  {
    DetailsKeys(qs, answers);
    SumInOrder(qs, |qs|, answers);
    assert qs[..|qs|] == qs;
  }

  /** Helper of EarnedSumsToScore: the first `k` records, read in the full
      dictionary, add up to the score of the first `k` questions. */
  lemma {:induction false} SumInOrder(qs: seq<Question>, k: nat, answers: Answers)
    requires UniqueIds(qs)
    requires k <= |qs|
    ensures Ids(qs[..k]) <= DetailsOf(qs, answers).Keys
    ensures SumEarned(DetailsOf(qs, answers), qs[..k]) == ObjectiveScore(qs[..k], answers)
  {
    DetailsKeys(qs, answers);
    assert Ids(qs[..k]) <= Ids(qs) by {
      forall i | 0 <= i < k ensures qs[..k][i] == qs[i] { }
    }
    if k > 0 {
      SumInOrder(qs, k - 1, answers);
      assert qs[..k][..k - 1] == qs[..k - 1];
      DetailsOfUnique(qs, answers, k - 1);
    }
  }

  /** The objective score is the sum of the point values of the questions
      the answers get right. */
  lemma {:induction false} ScoreIsPointsOfCorrect(qs: seq<Question>, answers: Answers)
    ensures ObjectiveScore(qs, answers) == TotalPoints(CorrectQuestions(qs, answers))
  {
    if qs != [] {
      var n := |qs| - 1;
      ScoreIsPointsOfCorrect(qs[..n], answers);
      var rest := CorrectQuestions(qs[..n], answers);
      if IsCorrect(qs[n], UserChoice(answers, qs[n].id)) {
        assert (rest + [qs[n]])[..|rest|] == rest;
      } else {
        assert rest + [] == rest;
      }
    }
  }

  /** With non-negative point values the objective score lies between zero
      and the sum of all point values. */
  lemma {:induction false} ScoreBounds(qs: seq<Question>, answers: Answers)
    requires NonNegativeScores(qs)
    ensures 0 <= ObjectiveScore(qs, answers) <= TotalPoints(qs)
  {
    if qs != [] {
      var n := |qs| - 1;
      assert NonNegativeScores(qs[..n]) by {
        forall i | 0 <= i < n ensures qs[..n][i] == qs[i] { }
      }
      ScoreBounds(qs[..n], answers);
    }
  }

  /** The questions that carry options, in list order: those the test page
      offers as choice items. */
  function WithOptions(qs: seq<Question>): seq<Question> {
    if qs == [] then []
    else WithOptions(qs[..|qs| - 1]) + (if qs[|qs| - 1].options.Some? then [qs[|qs| - 1]] else [])
  }

  /** When every question that carries options is answered correctly, the
      score is the full sum of their point values. The free-text item of a
      scored set has no options, so it neither blocks nor adds to full marks. */
  lemma {:induction false} FullMarks(qs: seq<Question>, answers: Answers)
    requires forall i :: 0 <= i < |qs| && qs[i].options.Some? ==>
      IsCorrect(qs[i], UserChoice(answers, qs[i].id))
    ensures ObjectiveScore(qs, answers) == TotalPoints(WithOptions(qs))
  {
    if qs != [] {
      var n := |qs| - 1;
      assert forall i :: 0 <= i < n ==> qs[..n][i] == qs[i];
      FullMarks(qs[..n], answers);
      var rest := WithOptions(qs[..n]);
      if qs[n].options.Some? {
        assert (rest + [qs[n]])[..|rest|] == rest;
      } else {
        assert rest + [] == rest;
      }
    }
  }
}
