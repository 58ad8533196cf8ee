/** The session state of one test-taker and the three pages of `main()`
    (app.py:76-198): initialisation of missing fields, the login form, the
    test form with answer capture and submission, and the scoring page.
    Random draws, the clock, the digest of the university name and the
    external model's reply are parameters. */
module Session {
  import opened Wrappers
  import opened Quiz
  import Partition
  import Scoring
  import Writing
  import ExamCode

  datatype Page = LoginPage | TestPage | ScoringPage

  /** A session field: absent until some page run first stores it. */
  datatype Slot<T> = Absent | Present(value: T)

  datatype UserInfo = UserInfo(name: string, univ: string, email: string, code: string)

  /** A wall-clock reading, taken as an opaque value. */
  type Time = real

  /** How a run of the test page ends. */
  datatype TestOutcome =
    | NoWritingQuestion          // indexing the empty writing list raises
    | MissingOptions(id: QuestionId)  // an objective question without options raises
    | Shown                      // the form was shown and not submitted
    | WritingRequired            // submitted with an empty writing answer
    | Submitted                  // submitted; the page moves to scoring

  /** What the scoring page computes. */
  datatype ScoreRecord = ScoreRecord(
    scoreObj: int,
    details: map<QuestionId, Detail>,
    scoreWriting: int,
    total: int)

  /** The radio button's value for a question: its widget state, or None
      when nothing is selected. */
  function WidgetValue(widget: map<QuestionId, Option<string>>, id: QuestionId): Option<string> {
    if id in widget then widget[id] else None
  }

  /** The answers after the capture loop has stored the widget value of each
      of the questions, in order. */
  function Capture(a: Answers, qs: seq<Question>, widget: map<QuestionId, Option<string>>): Answers {
    if qs == [] then a
    else Capture(a, qs[..|qs| - 1], widget)[Item(qs[|qs| - 1].id) := WidgetValue(widget, qs[|qs| - 1].id)]
  }

  /** The number of leading questions that carry options: where the capture
      loop stops if some question has none. */
  function OptionsPrefix(qs: seq<Question>): (k: nat)
    ensures k <= |qs|
    ensures forall i :: 0 <= i < k ==> qs[i].options.Some?
    ensures k < |qs| ==> qs[k].options.None?
  {
    if qs == [] || qs[0].options.None? then 0 else 1 + OptionsPrefix(qs[1..])
  }

  /** Capture stores the widget value under each captured question's id and
      leaves every other key, the writing answer's among them, as it was. */
  lemma {:induction false} CaptureEffect(a: Answers, qs: seq<Question>, widget: map<QuestionId, Option<string>>)
    ensures forall k :: k in Capture(a, qs, widget) <==> k in a || (k.Item? && k.id in Ids(qs))
    ensures forall id :: id in Ids(qs) ==> Capture(a, qs, widget)[Item(id)] == WidgetValue(widget, id)
    ensures forall k :: k in a && !(k.Item? && k.id in Ids(qs)) ==> Capture(a, qs, widget)[k] == a[k]
  {
    if qs != [] {
      var n := |qs| - 1;
      CaptureEffect(a, qs[..n], widget);
      assert Ids(qs) == Ids(qs[..n]) + {qs[n].id} by {
        forall i | 0 <= i < n ensures qs[..n][i] == qs[i] { }
      }
    }
  }

  class ExamSession {
    /** The three problem sets, as loaded. */
    const problemSets: seq<seq<Question>>

    var page: Slot<Page>
    var answers: Slot<Answers>
    var startTime: Slot<Option<Time>>
    var selectedSetIdx: Slot<int>
    var shuffledQuestions: Slot<seq<Question>>
    var userInfo: Slot<UserInfo>
    var endTime: Slot<Time>

    /** The selected index names a set, the shuffled list is a permutation of
        that set, and each page finds the fields it reads. */
    ghost predicate Valid()
      reads this
    {
      |problemSets| > 0 &&
      (selectedSetIdx.Present? ==> 0 <= selectedSetIdx.value < |problemSets|) &&
      (shuffledQuestions.Present? ==>
        selectedSetIdx.Present? &&
        multiset(shuffledQuestions.value) == multiset(problemSets[selectedSetIdx.value])) &&
      (page == Present(TestPage) || page == Present(ScoringPage) ==>
        userInfo.Present? && startTime.Present? && startTime.value.Some?) &&
      (page == Present(ScoringPage) ==>
        endTime.Present? && answers.Present? && Writing in answers.value)
    }

    /** The fields the start of every run of `main()` fills in are there. */
    predicate Initialized()
      reads this
    {
      page.Present? && answers.Present? && startTime.Present? &&
      selectedSetIdx.Present? && shuffledQuestions.Present?
    }

    /** A new, empty session state. */
    constructor (sets: seq<seq<Question>>)
      requires |sets| > 0
      ensures Valid() && problemSets == sets
      ensures page == Absent && answers == Absent && startTime == Absent
      ensures selectedSetIdx == Absent && shuffledQuestions == Absent
      ensures userInfo == Absent && endTime == Absent
    {
      problemSets := sets;
      page, answers, startTime := Absent, Absent, Absent;
      selectedSetIdx, shuffledQuestions := Absent, Absent;
      userInfo, endTime := Absent, Absent;
    }

    /** The start of `main()` (app.py:80-88): each field is filled in only
        when it is missing. `pick` is the random set index and `shuffled`
        the random permutation of the selected set. */
    method Initialize(pick: int, shuffled: seq<Question>)
      requires Valid()
      requires 0 <= pick < |problemSets|
      requires shuffledQuestions.Absent? ==>
        multiset(shuffled) ==
        multiset(problemSets[if selectedSetIdx.Present? then selectedSetIdx.value else pick])
      modifies this
      ensures Valid() && Initialized()
      ensures page == if old(page).Present? then old(page) else Present(LoginPage)
      ensures answers == if old(answers).Present? then old(answers) else Present(map[])
      ensures startTime == if old(startTime).Present? then old(startTime) else Present(None)
      ensures selectedSetIdx == if old(selectedSetIdx).Present? then old(selectedSetIdx) else Present(pick)
      ensures shuffledQuestions ==
        if old(shuffledQuestions).Present? then old(shuffledQuestions) else Present(shuffled)
      ensures userInfo == old(userInfo) && endTime == old(endTime)
    {
      if page.Absent? { page := Present(LoginPage); }
      if answers.Absent? { answers := Present(map[]); }
      if startTime.Absent? { startTime := Present(None); }
      if selectedSetIdx.Absent? { selectedSetIdx := Present(pick); }
      if shuffledQuestions.Absent? { shuffledQuestions := Present(shuffled); }
    }

    /** The login form submitted (app.py:100-112): with a name, a university
        and an e-mail address all non-empty, the profile and start time are
        stored and the page moves to the test; otherwise nothing changes.
        `univDigest` is the SHA-256 digest of the university name and
        `randNum` the random part of the code. */
    method SubmitLogin(name: string, univ: string, email: string,
                       univDigest: seq<ExamCode.Byte>, randNum: int, now: Time)
      returns (advanced: bool)
      requires Valid() && Initialized() && page == Present(LoginPage)
      requires |univDigest| == ExamCode.DigestLength && 100 <= randNum <= 999
      modifies this
      ensures Valid() && Initialized()
      ensures advanced <==> name != "" && univ != "" && email != ""
      ensures advanced ==>
        && page == Present(TestPage)
        && userInfo == Present(UserInfo(name, univ, email, ExamCode.MakeCode(univDigest, randNum)))
        && startTime == Present(Some(now))
      ensures !advanced ==>
        page == old(page) && userInfo == old(userInfo) && startTime == old(startTime)
      ensures answers == old(answers) && endTime == old(endTime)
      ensures selectedSetIdx == old(selectedSetIdx) && shuffledQuestions == old(shuffledQuestions)
    {
      advanced := name != "" && univ != "" && email != "";
      if advanced {
        userInfo := Present(UserInfo(name, univ, email, ExamCode.MakeCode(univDigest, randNum)));
        startTime := Present(Some(now));
        page := Present(TestPage);
      }
    }

    /** One run of the test page (app.py:121-148). The shuffled list is
        partitioned; the widget value of each objective question is stored
        under its id; on submission with a non-empty writing answer, the
        writing answer and end time are stored and the page moves to
        scoring. `widget` holds the radio buttons' values by question id. */
    method RunTestPage(widget: map<QuestionId, Option<string>>, writingAnswer: string,
                       submitted: bool, now: Time)
      returns (outcome: TestOutcome)
      requires Valid() && Initialized() && page == Present(TestPage)
      modifies this`answers, this`endTime, this`page
      ensures Valid() && Initialized()
      ensures startTime == old(startTime) && userInfo == old(userInfo)
      ensures selectedSetIdx == old(selectedSetIdx) && shuffledQuestions == old(shuffledQuestions)
      ensures var qs := shuffledQuestions.value;
        Partition.FirstWriting(qs).None? ==>
          outcome == NoWritingQuestion &&
          answers == old(answers) && page == old(page) && endTime == old(endTime)
      ensures var obj := Partition.Objective(shuffledQuestions.value);
        var k := OptionsPrefix(obj);
        Partition.FirstWriting(shuffledQuestions.value).Some? && k < |obj| ==>
          outcome == MissingOptions(obj[k].id) &&
          answers == Present(Capture(old(answers.value), obj[..k], widget)) &&
          page == old(page) && endTime == old(endTime)
      ensures var obj := Partition.Objective(shuffledQuestions.value);
        var captured := Capture(old(answers.value), obj, widget);
        Partition.FirstWriting(shuffledQuestions.value).Some? && OptionsPrefix(obj) == |obj| ==>
          && (outcome == Shown <==> !submitted)
          && (outcome == WritingRequired <==> submitted && writingAnswer == "")
          && (outcome == Submitted <==> submitted && writingAnswer != "")
          && (outcome == Submitted ==>
                answers == Present(captured[Writing := Some(writingAnswer)]) &&
                endTime == Present(now) && page == Present(ScoringPage))
          && (outcome != Submitted ==>
                answers == Present(captured) && endTime == old(endTime) && page == old(page))
    {
      var questions := shuffledQuestions.value;
      var objQuestions := Partition.Objective(questions);
      var writingQuestion := Partition.FirstWriting(questions);
      if writingQuestion.None? {
        return NoWritingQuestion;
      }
      var missing := CaptureAnswers(objQuestions, widget);
      if missing.Some? {
        return MissingOptions(missing.value);
      }
      assert objQuestions[..|objQuestions|] == objQuestions;
      if !submitted {
        return Shown;
      }
      if writingAnswer == "" {
        return WritingRequired;
      }
      answers := Present(answers.value[Writing := Some(writingAnswer)]);
      endTime := Present(now);
      page := Present(ScoringPage);
      return Submitted;
    }

    /** The capture loop of the test page (app.py:128-131): the widget value
        of each objective question is stored under its id, in order, up to
        the first question without options, whose id is returned. */
    method CaptureAnswers(objQuestions: seq<Question>, widget: map<QuestionId, Option<string>>)
      returns (missing: Option<QuestionId>)
      requires answers.Present?
      modifies this`answers
      ensures var k := OptionsPrefix(objQuestions);
        && missing == (if k < |objQuestions| then Some(objQuestions[k].id) else None)
        && answers == Present(Capture(old(answers.value), objQuestions[..k], widget))
    {
      var i := 0;
      while i < |objQuestions|
        invariant 0 <= i <= OptionsPrefix(objQuestions)
        invariant answers == Present(Capture(old(answers.value), objQuestions[..i], widget))
      {
        var q := objQuestions[i];
        if q.options.None? {
          return Some(q.id);
        }
        var choice := if q.id in widget then widget[q.id] else None;
        answers := Present(answers.value[Item(q.id) := choice]);
        assert objQuestions[..i + 1][..i] == objQuestions[..i];
        i := i + 1;
      }
      return None;
    }

    /** One run of the scoring page (app.py:154-198): the original selected
        set is scored against the answers, the reply of the external model
        (None when the call raised) gives the writing score, and the total
        is their sum. Nothing in the session changes. */
    method RunScoringPage(reply: Option<string>) returns (r: ScoreRecord)
      requires Valid() && Initialized() && page == Present(ScoringPage)
      ensures r.scoreObj == Scoring.ObjectiveScore(problemSets[selectedSetIdx.value], answers.value)
      ensures r.details == Scoring.DetailsOf(problemSets[selectedSetIdx.value], answers.value)
      ensures r.scoreWriting == Writing.WritingScore(reply)
      ensures r.total == r.scoreObj + r.scoreWriting
    {
      var questions := problemSets[selectedSetIdx.value];
      var scoreObj, details := Scoring.ScoreObjective(questions, answers.value);
      r := ScoreRecord(scoreObj, details, Writing.WritingScore(reply), Writing.TotalScore(scoreObj, reply));
    }
  }
}
