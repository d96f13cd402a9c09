# Quiz question generator — a Dafny model

This project models the core of a quiz application that asks a language model
for multiple-choice, fill-in-the-blank and true/false questions, then keeps a
quiz session of questions, user answers and scored results.

Two parts of the program are modelled:

* **The question generator** (`Helper/helper.py`). It covers the three parsed
  question records and the `clean_question` field normaliser they share. It
  covers the semantic check that each `generate_*` method applies to a parsed
  record. It also covers the bounded retry loop the three methods share: at
  most three attempts, return on the first attempt that parses and validates,
  and raise a terminal error after the last failure. The model call and the
  output parser are an oracle `nat -> Attempt<R>`. For each attempt number the
  oracle yields either `Failed(error)`, an exception from the call or the
  parser, or `Parsed(record)`. One generic method, `Helper.GenerateWithRetry`,
  parameterised by the kind's validator, is the loop. `GenerateMcq`,
  `GenerateFillBlank` and `GenerateTrueFalse` instantiate it.
* **The quiz session** (`QuizManager` in `app.py`). It is a class with the
  fields `questions`, `userAnswers` and `results`. Its methods reassign these
  fields as the source does. `GenerateQuestions` resets the three lists, then
  collects one mapped record per generation call and stores them.
  `AttemptQuiz` appends one answer per question. `EvaluateQuiz` rebuilds
  `results` from the zipped questions and answers, with the loop `ScoreAll`. Each method is proved
  against a specification function: `Batch` for generation, `Scored` for
  evaluation. The lemmas about those functions state what the source promises.
  The object invariant `Quiz.QuizManager.Valid()` says that every stored
  question is well formed for its kind, that results are numbered from 1,
  and that there are never more results than questions. `Quiz.WellFormed`
  reads a stored question back as the generator's record of its kind and
  applies that kind's check. The contracts of `FromMcq`, `FromFillBlank` and
  `FromTrueFalse` tie the two views together.

Files:

| file | module | contents |
|---|---|---|
| wrappers.dfy | `Wrappers` | `Option`, and `Result` (whose error is the text of a raised exception) |
| text.dfy | `Text` | substring search, `str.replace`, `strip`, `lower`, decimal rendering, with their lemmas |
| values.dfy | `Values` | Python values, `str()` / `repr()`, `dict.get`, `clean_question` |
| helper.dfy | `Helper` | question records, validators, the retry loop and its lemmas |
| quiz.dfy | `Quiz` | stored questions and results, batch and scoring specifications, `QuizManager` |

In three places the code does less than one might expect, and the model
follows the code:

* **Batch generation is not atomic.** When a generation call fails, the
  questions appended before it stay in `questions` (app.py:53-56).
  `Quiz.BatchOutcome` states exactly this.
* **MCQ options need not be distinct.** The code checks only the count and
  membership (Helper/helper.py:121-124), so `Helper.McqWellFormed` does not
  require distinct options.
* **Evaluation does not require a complete answer set.** `evaluate_quiz`
  zips the two lists, so it scores `min(|questions|, |user_answers|)` pairs
  and checks nothing about the answer count.

`Quiz.CapitalOfFranceScenario` is a worked example of one session. A generator
always yields the same capital-of-France MCQ. The example generates one
question, answers it "Paris", evaluates it, and evaluates it again. The
verifier proves that the question is stored, that the answer is scored
correct, and that the second evaluation gives the same results.

## Model

| member | source | states |
|---|---|---|
| `Text.Contains` | Helper/helper.py:174-176 | the empty pattern occurs in every string, and a pattern occurs only in a string at least as long |
| `Text.Replace` | Helper/helper.py:175 | when the replacement is at least as long as the pattern, `replace` never shortens the string |
| `Text.ReplaceWithoutMatch` | Helper/helper.py:175 | `replace` leaves a string unchanged when the pattern does not occur in it |
| `Text.ReplaceIntroduces` | Helper/helper.py:175-176 | after `replace`, the replacement occurs in the result whenever the pattern occurred in the input |
| `Text.ContainsPrefix` | Helper/helper.py:174-176 | wherever a pattern occurs, every prefix of it occurs too (so `"_____"` present implies `"___"` present) |
| `Text.TrimStart` | app.py:92 | `lstrip` never lengthens a string |
| `Text.TrimEnd` | app.py:92 | `rstrip` never lengthens a string |
| `Text.Strip` | app.py:92 | `strip` never lengthens a string |
| `Text.TrimStartSpec` | app.py:92 | `lstrip` keeps the longest suffix that does not start with whitespace, and removes only whitespace |
| `Text.TrimEndSpec` | app.py:92 | `rstrip` keeps the longest prefix that does not end with whitespace, and removes only whitespace |
| `Text.StripSpec` | app.py:92 | `strip` yields a contiguous slice, removes only whitespace, and leaves none at either end |
| `Text.StripIgnoresPadding` | app.py:92 | surrounding whitespace does not change the stripped string |
| `Text.Lower` | app.py:92 | `lower` keeps the length and folds each character on its own |
| `Text.LowerStrip` | app.py:92 | stripping and lower-casing commute |
| `Text.NatToString` | Helper/helper.py:130 | `str(n)` is a non-empty run of decimal digits with no leading zero, and those digits read in base 10 are `n` |
| `Text.IntToString` | Helper/helper.py:28 | `str(i)` is non-empty and starts with `-` exactly when `i` is negative; everything after the sign is a decimal digit, with no leading zero, and those digits read in base 10 are `|i|` |
| `Values.Get` | Helper/helper.py:28 | `dict.get` finds nothing exactly when no entry has the key |
| `Values.GetFindsEntry` | Helper/helper.py:28 | in a dict with distinct keys, `get` returns the value stored under the key |
| `Values.Repr` | Helper/helper.py:28-29 | the `repr` of every value is non-empty |
| `Values.Str` | Helper/helper.py:28-29 | `str` of a string is the string itself, and `str` of a dict is bracketed by `{` and `}` |
| `Values.CleanQuestion` | Helper/helper.py:25-29 | a non-dict value always becomes a string |
| `Values.CleanQuestionNonDict` | Helper/helper.py:29 | a non-dict value becomes its string form, and a string is kept unchanged |
| `Values.CleanQuestionDescription` | Helper/helper.py:27-28 | a dict with a `'description'` entry yields that entry's value, whatever its type |
| `Values.CleanQuestionNoDescription` | Helper/helper.py:28 | a dict without `'description'` becomes its own `{...}` rendering |
| `Values.CleanQuestionIdempotent` | Helper/helper.py:25-29 | cleaning again changes nothing whenever the first result is a string |
| `Helper.ValidateMcq` | Helper/helper.py:121-126 | accepts exactly the well-formed MCQs and returns them unchanged: non-empty question, exactly 4 options, non-empty answer that is one of the options; otherwise raises the first failing check's message |
| `Helper.ValidateFillBlank` | Helper/helper.py:172-179 | empty question or answer fails with "Invalid question format"; a question with `"_____"` is returned unchanged; otherwise it is returned with every `"___"` replaced, and succeeds iff the original had `"___"`; every accepted question is non-empty, contains `"_____"` and keeps its answer |
| `Helper.ValidateTrueFalse` | Helper/helper.py:225-228 | accepts exactly a non-empty question whose answer is literally `"True"` or `"False"` |
| `Helper.FillBlankAccepts` | Helper/helper.py:172-179 | a fill-blank question passes iff its question and answer are non-empty and its question contains `"___"` |
| `Helper.FillBlankExample` | Helper/helper.py:174-177 | `"The capital of France is ___."` passes, and its stored question contains `"_____"` |
| `Helper.ExhaustedMessage` | Helper/helper.py:129-130 | the terminal message starts with "Failed to generate valid " and the kind's name, contains "3 attempts", and ends with the last attempt's error |
| `Helper.ExhaustedMessageNamesThree` | Helper/helper.py:130 | the terminal message contains the literal text "3 attempts" |
| `Helper.Outcome` | Helper/helper.py:115-126 | a failed call or parse gives that attempt's own error; a success comes from a parsed record that passed the kind's check |
| `Helper.RetryFrom` | Helper/helper.py:114-131 | the loop always makes between one and three invocations |
| `Helper.RetryStopsAtFirstSuccess` | Helper/helper.py:113-131 | the loop makes one to three invocations; every attempt before the last one made failed; a success is the last attempt's validated record; a failure means three invocations and the last error is reported |
| `Helper.RetryFirstSuccess` | Helper/helper.py:114-131 | if attempts 0..k-1 fail and attempt k < 3 succeeds, the result is attempt k's validated output after exactly k+1 invocations |
| `Helper.RetryExhausted` | Helper/helper.py:129-130 | if all attempts fail, exactly 3 invocations occur and the terminal error names the kind, the count and the last error |
| `Helper.GenerateWithRetry` | Helper/helper.py:113-131 | the loop computes `RetryFrom`: 1..3 invocations, earlier attempts failed, success is the last attempt's validated record, failure is the exhausted message after 3 |
| `Helper.GenerateMcq` | Helper/helper.py:113-131 | a returned MCQ is well formed and is the record the last attempt parsed |
| `Helper.GenerateFillBlank` | Helper/helper.py:164-184 | a returned fill-blank question is well formed and is the last parsed record after marker normalisation |
| `Helper.GenerateTrueFalse` | Helper/helper.py:217-233 | a returned True/False question is well formed and is the record the last attempt parsed |
| `Quiz.FromMcq` | app.py:27-32 | the stored MCQ is well formed exactly when the generator's record passes the MCQ check |
| `Quiz.FromFillBlank` | app.py:37-41 | the stored fill-in-the-blank question is well formed exactly when the generator's record passes the fill-blank check |
| `Quiz.FromTrueFalse` | app.py:46-51 | the stored True/False question is well formed exactly when the generator's record passes the True/False check |
| `Quiz.GenerateOne` | app.py:25-51 | every question one generation call stores is well formed for its kind |
| `Quiz.RecordMapping` | app.py:25-51 | MCQ records get type `MCQ` and their options; fill-blank records get type `Fill in the Blank`, no options, and the generator's `answer` as correct answer; True/False records get type `True/False` and options `["True","False"]` |
| `Quiz.GenerateNext` | app.py:24-51 | the loop body dispatches on the question type and returns exactly the specified call's mapped result, which is well formed |
| `Quiz.Loop` | app.py:23-56 | the loop appends at most one question per remaining call, and exactly one per remaining call when it completes |
| `Quiz.LoopOutcome` | app.py:23-56 | from any point of the loop: the held questions extend those already appended, each new one is the matching call's result, and a failure stops at the failing call |
| `Quiz.BatchFrom` | app.py:21-57 | the same bounds for a batch, on the questions of one question type; an unknown type appends nothing |
| `Quiz.Batch` | app.py:15-57 | a batch never holds more than `num_questions` questions, and a completed batch of a known type holds exactly that many |
| `Quiz.BatchOutcome` | app.py:17-57 | success means `num_questions` questions in generation order; an unknown type succeeds with none; a failure keeps the questions made before the failing call (no rollback) |
| `Quiz.BatchWellFormed` | app.py:23-51 | every question a batch stores is well formed |
| `Quiz.AnswersMatch` | app.py:92 | answers that are equal once trimmed always match |
| `Quiz.Score` | app.py:86-93 | a result carries its number, the question's text and type, the user's answer and the correct answer |
| `Quiz.ScoreJudgesAnswer` | app.py:92 | a result is marked correct exactly when its two answers match, and a correct answer is as long as the expected one once trimmed |
| `Quiz.Scored` | app.py:84-94 | `min(|questions|, |user_answers|)` results; result k is numbered k+1 and copies question text, type, user answer and correct answer, with `is_correct` from the trimmed, lower-cased comparison |
| `Quiz.ScoringIgnoresPadding` | app.py:92 | whitespace around the user's answer does not change its score |
| `Quiz.ScoringIgnoresCase` | app.py:92 | answers that differ only in ASCII letter case are scored correct |
| `Quiz.ScoringExample` | app.py:92 | `" Paris "` matches `"paris"` |
| `Quiz.ScoreAll` | app.py:84-94 | the evaluation loop computes `Scored` of the two lists |
| `Quiz.QuizManager.constructor` | app.py:9-13 | a new manager has three empty lists |
| `Quiz.QuizManager.GenerateQuestions` | app.py:15-57 | all three lists are emptied first; the returned flag and the questions are those of `Batch`; answers and results stay empty; the invariant holds |
| `Quiz.QuizManager.AttemptQuiz` | app.py:60-77 | appends exactly one answer per question, in question order, keeping earlier answers; questions and results are untouched |
| `Quiz.QuizManager.EvaluateQuiz` | app.py:80-94 | `results` is overwritten with `Scored(questions, userAnswers)` and nothing else changes, so evaluating twice gives the same results; the invariant holds |
| `Quiz.QuizManager.AttemptQuizReplacing` | app.py:60-77 | the corrected `attempt_quiz`: afterwards the answers are exactly one per question from this drawing, and the invariant holds |
| `Quiz.RerunScoresFirstAnswers` | app.py:192-198 | drawing the quiz twice with `attempt_quiz` as written, then evaluating, scores every question against the first drawing's answer |
| `Quiz.RerunScoresLastAnswers` | app.py:192-198 | with the corrected `attempt_quiz`, the same sequence scores every question against the last drawing's answer |
| `Quiz.LondonIsNotParis` | app.py:92 | the answer "London" does not match "Paris" |
| `Quiz.CapitalOfFranceRerunAsWritten` | app.py:192-198 | the capital-of-France quiz, drawn with the default "London" and then answered "Paris", is scored wrong |
| `Quiz.CapitalOfFranceRerunCorrected` | app.py:192-198 | the same quiz with the corrected `attempt_quiz` is scored right |
| `Quiz.CapitalOfFranceScenario` | app.py:15-94 | one MCQ is generated, answered correctly, scored as correct, and scored the same way a second time |

## Findings

| source | as written | input that shows it | evidently intended | confidence | as-written member | corrected member |
|---|---|---|---|---|---|---|
| app.py:60-77, app.py:192-198 | Streamlit runs `main()` again on every interaction with the same session-held manager (app.py:139-140), and each run calls `attempt_quiz`, which only appends to `user_answers`. `evaluate_quiz` zips the questions with the first answers held, so it scores the answers of the first drawing: the widgets' default values. | One MCQ "What is the capital of France?" with options London, Berlin, Paris, Madrid. The first drawing yields the radio's default "London". The user picks "Paris", which redraws the page, and submits. The result records "London" and is marked wrong. | Each drawing's answers replace the answers held before, as `evaluate_quiz` resets `results`, so the final choices are scored. | not executed; the claim follows from app.py:77 and app.py:84 | `Quiz.RerunScoresFirstAnswers`, `Quiz.CapitalOfFranceRerunAsWritten` | `Quiz.QuizManager.AttemptQuizReplacing`, `Quiz.RerunScoresLastAnswers`, `Quiz.CapitalOfFranceRerunCorrected` |

`Quiz.QuizManager.AttemptQuiz` stays the model of the code as written. The
rerun sequence of `main()` is modelled only by the two `Rerun` methods.

## Left out

- The Groq / LangChain call, the prompt templates and the Pydantic output parser (Helper/helper.py:71-118) are foreign calls. They are replaced by the oracle `Attempt<R>` per attempt, and by a `Generator` that holds one oracle per question of a batch.
- Topic and difficulty, including `difficulty.lower()` (app.py:26, 36, 45), only shape the prompt. The prompt is not modelled, so they are not parameters.
- The language-model client set-up and environment loading (`ChatGroq`, `load_dotenv`, `os.getenv`) are not modelled.
- Pydantic's type coercion is not modelled. `clean_question` is modelled on its own, as a function on Python values. Floats are not among the modelled values.
- Values.Repr: quotes every string with single quotes and does not model escaping or Python's switch to double quotes. Its contract states only that the rendering is non-empty.
- Streamlit widgets are not modelled: `st.radio`, `st.text_input` and `st.markdown`. `AttemptQuiz` takes the whole widget as a function `widget(i, q)` that returns the user's answer. The `st.error` / `st.warning` / `st.success` messages are left out, and so is the error text that `generate_questions` displays before it returns False.
- Quiz.QuizManager.AttemptQuiz: requires the object invariant, under which every stored question has one of the three known types. The source's behaviour for an unknown type (an unbound or stale `user_answer`) is not modelled.
- `main()` is not modelled (app.py:134-246). This covers the Streamlit session state, the page layout and the float score percentage. The one exception is its rerun sequence: draw, draw again, then evaluate the same session-held manager (app.py:139-140, 192-198). The two `Rerun` methods model that sequence, and only for two drawings.
- `generate_result_dataframe` and `save_to_csv` are not modelled (app.py:97-132). They are pandas and file-system glue with a `datetime.now()` timestamp.
- `str.strip()` and `str.lower()` are modelled for ASCII only. Whitespace is space, `\t`, `\n`, `\r`, `\x0b`, `\x0c` and `\x1c`-`\x1f`. Only `A`-`Z` are lower-cased.
- Quiz.QuizManager.GenerateQuestions: collects the questions in a local list and stores it in `questions` when the loop stops, instead of appending to the field on each turn. Nothing reads the field while the loop runs, so the stored list is the same either way. `EvaluateQuiz` does the same for `results`.
- Falling off the end of a `for attempt in range(3)` loop, which would return `None`, cannot happen: the third failure always raises. The model proves that the point after the loop is unreachable.
