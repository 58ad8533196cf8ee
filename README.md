# Korean placement quiz: session, scoring and partition core

This project models the core of `main()` in `app.py`. That is the web script
that runs a short Korean-language placement test and scores it. The model covers:

- **Session initialisation.** Each run of the script first fills in the
  session fields that are missing: the page (starting at `login`), the
  answers dictionary, the start time, a random problem-set index and a
  random permutation of that set.
- **Login.** The form moves the page from `login` to `test` only when name,
  university and e-mail are all non-empty. It then stores the profile,
  including a research code made by `make_code`, and the start time.
- **Test page.** The shuffled list is split into objective items (whose
  `type` label lacks `쓰기`) and the first writing item. Each radio
  button's value is stored under its question id. On submission with a
  non-empty writing answer, that answer and the end time are stored and the
  page moves to `scoring`.
- **Scoring page.** Every question of the original set is graded by the
  first position of the submitted text among its options. Each question gets
  a details record. The writing score is the external model's reply,
  stripped and read with Python's `int()`, or 0 when anything fails. The
  total is the sum.

Modules: `Wrappers` (Option), `Quiz` (records), `Decimal` (digits and
`str(int)`), `Partition`, `Scoring`, `Writing`, `ExamCode` (`make_code`),
and `Session` (the session class and its pages).

Where the system's design description and the code disagree, the model
follows the code:

- There is no warning stage and no timeout-driven transition.
- The e-mail is only checked for non-emptiness.
- An unanswered question gets the same `correct=False, score_earned=0`
  record as a wrong one. Only `user_ans` (None, or the stored text) tells
  them apart.
- The scoring page does not change `page` (`st.stop()` ends the run only),
  so a later run would score again. Nothing claims that scoring runs exactly
  once.
- The writing reply is read as a bare integer, not as a structured object.
- As printed, app.py:120 is indented deeper than the lines before it, so the
  file would not parse. The model uses the evidently intended nesting: the
  test form sits inside the `test` branch.

## Model

| member | source | states |
|---|---|---|
| Scoring.UserChoice | app.py:159 | `answers.get(id)`: the stored value, None when the key is absent; its behaviour is stated by Scoring.UnscoredCases and Scoring.GradeCorrectIff |
| Scoring.IsCorrect | app.py:163-172 | the guarded index comparison, a missing field counting as wrong; characterised independently of its body by Scoring.GradeCorrectIff |
| Scoring.Grade | app.py:163-179 | the `details` record of one question; its fields are stated by Scoring.GradeCorrectIff and Scoring.UnscoredCases |
| Scoring.ObjectiveScore | app.py:154-172 | the accumulated `score_obj`; Scoring.ScoreIsPointsOfCorrect, Scoring.ScoreBounds, Scoring.FullMarks and Scoring.EarnedSumsToScore state what it is |
| Scoring.DetailsOf | app.py:156-179 | the `details` dictionary, later ids overwriting earlier ones; Scoring.DetailsKeys and Scoring.DetailsOfUnique state its keys and records |
| Scoring.ScoreObjective | app.py:154-179 | the loop's `score_obj` and `details` are exactly the accumulated score and the dictionary of per-question records of the original set, which makes them deterministic in the set and the answers |
| Scoring.IndexOf | app.py:167 | `options.index(x)` gives the first position holding `x`; it fails exactly when `x` is not among the options |
| Scoring.GradeCorrectIff | app.py:163-172 | a question is correct iff the looked-up choice is truthy, the question has options, and the choice's first position there is the answer key; it earns its score if correct, otherwise 0 |
| Scoring.UnscoredCases | app.py:159-179 | an absent, empty or unlisted choice, or a question without options, gives `correct=False, score_earned=0` with `user_ans` the raw looked-up value (None when absent), and nothing raises |
| Scoring.DetailsKeys | app.py:174-179 | `details` has a record for every question id of the set and for no other id |
| Scoring.DetailsOfUnique | app.py:174-179 | with unique ids, the record under each question's id is that question's own record |
| Scoring.EarnedSumsToScore | app.py:169-178 | with unique ids, the `score_earned` values of the records add up to `score_obj` |
| Scoring.ScoreIsPointsOfCorrect | app.py:155-172 | `score_obj` is the sum of `score` over the questions whose submitted choice is non-empty, listed, and first listed at the answer key |
| Scoring.ScoreBounds | app.py:154-169 | with non-negative point values, `0 <= score_obj <=` the sum of all point values |
| Scoring.FullMarks | app.py:158-170 | when every question that carries options is answered correctly, `score_obj` is the sum of those questions' point values; the free-text item, which has no options, neither blocks nor adds to full marks |
| Partition.Contains | app.py:124-125 | Python's `in` on strings; Partition.ContainsAt states it is positional substring search |
| Partition.Objective | app.py:124 | the objective comprehension; Partition.ObjectiveMembers, Partition.ObjectiveAppend, Partition.ObjectiveCount and Partition.PartitionCovers pin it down |
| Partition.FirstWriting | app.py:125 | `[...][0]` of the writing comprehension; Partition.FirstWritingNone and Partition.FirstWritingAt state which item it picks and when it fails |
| Partition.ContainsAt | app.py:124-125 | the substring test `'쓰기' in type` holds iff the tag starts at some position of the label |
| Partition.ObjectiveIffNotWriting | app.py:124-125 | the two comprehension filters are complementary |
| Partition.ObjectiveMembers | app.py:124 | `obj_questions` holds exactly the questions of the list whose label lacks the tag |
| Partition.ObjectiveAppend | app.py:124 | the objective filter keeps list order (it distributes over concatenation) |
| Partition.WritingItemsAppend | app.py:125 | the writing filter keeps list order |
| Partition.PartitionCovers | app.py:124-125 | each question goes to exactly one of the two lists, with multiplicity |
| Partition.ObjectiveCount | app.py:124 | the objective list holds each objective question as often as the input, and nothing else |
| Partition.ObjectiveOfShuffle | app.py:88-124 | any permutation of the set yields the same objective questions |
| Partition.FirstWritingNone | app.py:125 | `[...][0]` fails exactly when no question carries the writing tag |
| Partition.FirstWritingAt | app.py:125 | `writing_question` is the first question of the list that carries the tag |
| Partition.FirstWritingOfShuffle | app.py:88-125 | whether a writing question is found does not depend on the shuffle |
| Writing.Strip | app.py:194 | `str.strip()`; Writing.StripShape and Writing.StripPadded state what it returns |
| Writing.ParseInt | app.py:194 | `int()` on stripped text; Writing.ParsedShape and Writing.WritingScoreReads state what it accepts and what it returns |
| Writing.WritingScore | app.py:193-196 | `score_writing`; Writing.WritingScoreReads and Writing.WritingFallback state its value |
| Writing.TotalScore | app.py:198 | `total_score`; Writing.WritingScoreReads and Writing.WritingFallback state its value |
| Writing.StripShape | app.py:194 | `strip()` returns a piece of its input with only white space around it, and that piece neither starts nor ends with white space |
| Writing.StripPadded | app.py:194 | `strip()` gives back any text without surrounding white space, whatever white space pads it |
| Writing.WritingScoreReads | app.py:193-198 | a reply holding the decimal text of any integer, padded by white space, gives exactly that `score_writing` (no clamping to 0..8), and `total_score = score_obj +` it |
| Writing.ParsedShape | app.py:194 | `int()` accepts only integer-shaped text: a non-empty run of digits and underscores with at most a leading sign |
| Writing.WritingFallback | app.py:182-198 | a failed call, or a reply whose stripped text is empty or holds anything but digits, underscores and one leading sign (a letter, a decimal point, an inner space), gives `score_writing = 0` and `total_score = score_obj` |
| Decimal.Show | app.py:43 | `f"{rand_num}"`: a non-empty run of digits with no leading zero; Decimal.ValueOfShow states it reads back to the number |
| Decimal.ValueOfShow | app.py:43 | the decimal rendering reads back to the number it was made from |
| ExamCode.HashPrefix | app.py:41 | the hash part is two upper-case hexadecimal digits |
| ExamCode.MakeCode | app.py:38-43 | the code is two upper-case hex digits, then `대`, then three digits not starting with 0 |
| ExamCode.ParseMakeCode | app.py:38-43 | the code reads back into the digest's first byte and the random number it was made from |
| Session.Capture | app.py:128-131 | the answers after the capture loop; Session.CaptureEffect states which keys change and to what |
| Session.OptionsPrefix | app.py:128-130 | the capture loop reaches exactly the leading objective questions that carry options; the next one, if any, has none |
| Session.CaptureEffect | app.py:128-131 | capture stores the radio value under each captured question's id and leaves every other key, `writing` included, unchanged |
| Session.ExamSession.Initialize | app.py:80-88 | each field is set only when absent; the set index is in range, and the shuffled list is a permutation of the selected set |
| Session.ExamSession.SubmitLogin | app.py:100-112 | the page moves `login -> test` iff name, univ and email are all non-empty, storing the profile with its code and `start_time`; otherwise nothing changes |
| Session.ExamSession.CaptureAnswers | app.py:128-131 | the loop stores the radio values of the objective questions in order, stopping at (and reporting) the first one without options |
| Session.ExamSession.RunTestPage | app.py:121-148 | no writing item: nothing changes; otherwise answers are captured, and on submit with a non-empty writing answer only `answers['writing']`, `end_time` and `page = scoring` are added; an empty answer or no submit keeps the page at `test` |
| Session.ExamSession.RunScoringPage | app.py:151-198 | the scoring page scores the original selected set against the answers, takes the writing score from the reply, and adds the two, changing no session field |

## Left out

- Page rendering, forms, spinners, `st.rerun` and `st.stop`: user-interface plumbing of the framework.
- Database set-up, the `results` write, the administrator menu and the CSV export (app.py:20-31, 200-215, 224-242): an external store and a table library.
- The Gemini call and its prompt (app.py:182-193): a foreign service. Its reply is an input, None when the call raised.
- SHA-256 in `make_code` and `encrypt_data`: a foreign primitive. The digest of the university name is an input; `encrypt_data` is not used by the core.
- Loading `problems.json` (app.py:49-59): file I/O. The problem sets are given to the session. The loader always gives three; the model only needs at least one, which `random.randint(0, len - 1)` demands.
- `time.time()` and the duration `int(end_time - start_time)` (app.py:108, 146, 201): floating-point clock values. Times are opaque inputs.
- `random.randint` and `random.sample` (app.py:83, 88, 42): inputs constrained to the range and to being a permutation.
- Writing.ParsedShape: `int()` also accepts non-ASCII decimal digits and rejects texts of more than 4300 digits; the model reads ASCII digits only and has no length limit.
- Quiz.Question: every record carries an integer `score`. In the source, a correct question without `score` would fall into the guarded block and count as wrong. Records with a non-integer `answer` or `score` are not modelled either.
- Question ids are integers, so no id can collide with the `writing` key of the answers dictionary.
- Session.ExamSession.RunTestPage: Streamlit's error for two widgets with the same key (duplicate question ids) is not modelled. Radio values are looked up by question id, so duplicates store the same value.
- Session.ExamSession.RunScoringPage: the stored document, the duration and the messages shown are not modelled.
