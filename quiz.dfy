/** The records the quiz works on: question records as loaded from the
    problem file, the answers dictionary kept in the session, and the
    per-question detail record written by the scorer. */
module Quiz {
  import opened Wrappers

  /** Questions are identified by the integer `id` of their record. */
  type QuestionId = int

  /** One question record. Only the fields the core reads are kept: `kind`
      is the record's `type` label, `options` its choice texts (absent for
      the free-text item), `answer` the zero-based index of the correct
      choice (absent for the free-text item) and `score` its point value. */
  datatype Question = Question(
    id: QuestionId,
    kind: string,
    options: Option<seq<string>>,
    answer: Option<int>,
    score: int)

  /** Keys of the session's answers dictionary: a question id, or the
      fixed key under which the writing answer is stored. */
  datatype Key = Item(id: QuestionId) | Writing

  /** The answers dictionary. A radio button left unselected stores None. */
  type Answers = map<Key, Option<string>>

  /** The `details` entry the scorer records for one question. */
  datatype Detail = Detail(kind: string, userAns: Option<string>, correct: bool, earned: int)

  /** The ids of a sequence of questions, as a set. */
  function Ids(qs: seq<Question>): set<QuestionId> {
    set i | 0 <= i < |qs| :: qs[i].id
  }

  /** No two questions of the sequence share an id. */
  predicate UniqueIds(qs: seq<Question>) {
    forall i, j :: 0 <= i < j < |qs| ==> qs[i].id != qs[j].id
  }

  /** The sum of the point values of the questions. */
  function TotalPoints(qs: seq<Question>): int {
    if qs == [] then 0 else TotalPoints(qs[..|qs| - 1]) + qs[|qs| - 1].score
  }

  /** Every question is worth a non-negative number of points. */
  predicate NonNegativeScores(qs: seq<Question>) {
    forall i :: 0 <= i < |qs| ==> qs[i].score >= 0
  }
}
