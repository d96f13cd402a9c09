/** The quiz session: the `QuizManager` object whose three lists hold the
    generated questions, the user's answers and the scored results, with the
    specification functions its methods are proved against. */
module Quiz {
  import opened Wrappers
  import opened Text
  import opened Helper

  /** A question as the session stores it (a dict in the source); a
      fill-in-the-blank question has no 'options' entry. */
  datatype QuizQuestion = QuizQuestion(kind: string, question: string, options: Option<seq<string>>, correctAnswer: string)

  /** One scored answer. */
  datatype QuizResult = QuizResult(
    questionNumber: nat,
    question: string,
    questionType: string,
    userAnswer: string,
    correctAnswer: string,
    isCorrect: bool)

  /** The question generator as an oracle: `mcq(i)(a)` is what attempt `a` of
      the `i`-th multiple-choice question of a batch yields, and likewise for
      the other two kinds. */
  datatype Generator = Generator(
    mcq: nat -> nat -> Attempt<McqQuestion>,
    fillBlank: nat -> nat -> Attempt<FillBlankQuestion>,
    trueFalse: nat -> nat -> Attempt<TrueFalseQuestion>)

  /** The question types a caller can ask for. */
  const MultipleChoice: string := "Multiple Choice"
  const FillInTheBlank: string := "Fill in the Blank"
  const TrueFalse: string := "True/False"

  /** The 'type' tag a stored question carries. */
  const McqTag: string := "MCQ"
  const FillBlankTag: string := "Fill in the Blank"
  const TrueFalseTag: string := "True/False"

  predicate KnownType(questionType: string)
  {
    questionType == MultipleChoice || questionType == FillInTheBlank || questionType == TrueFalse
  }

  /** The record `generate_questions` stores for a multiple-choice question. */
  function FromMcq(q: McqQuestion): (r: QuizQuestion)
    ensures WellFormed(r) <==> McqWellFormed(q)
  {
    QuizQuestion(McqTag, q.question, Some(q.options), q.correctAnswer)
  }

  /** The record stored for a fill-in-the-blank question: its answer becomes the correct answer. */
  function FromFillBlank(q: FillBlankQuestion): (r: QuizQuestion)
    ensures WellFormed(r) <==> FillBlankWellFormed(q)
  {
    QuizQuestion(FillBlankTag, q.question, None, q.answer)
  }

  /** The record stored for a true/false question, with the two fixed options. */
  function FromTrueFalse(q: TrueFalseQuestion): (r: QuizQuestion)
    ensures WellFormed(r) <==> TrueFalseWellFormed(q)
  {
    QuizQuestion(TrueFalseTag, q.question, Some(["True", "False"]), q.correctAnswer)
  }

  /** What every stored question satisfies, by kind: read back as the
      generator's record of its kind, it passes that kind's check (see
      `FromMcq`, `FromFillBlank` and `FromTrueFalse`). */
  predicate WellFormed(q: QuizQuestion)
  {
    || (q.kind == McqTag && q.options.Some?
        && McqWellFormed(McqQuestion(q.question, q.options.value, q.correctAnswer)))
    || (q.kind == FillBlankTag && q.options.None?
        && FillBlankWellFormed(FillBlankQuestion(q.question, q.correctAnswer)))
    || (q.kind == TrueFalseTag && q.options == Some(["True", "False"])
        && TrueFalseWellFormed(TrueFalseQuestion(q.question, q.correctAnswer)))
  }

  /** The `i`-th generation call of a batch of a known type, mapped into the
      stored form; its error is the generator's terminal error. */
  function GenerateOne(gen: Generator, questionType: string, i: nat): (r: Result<QuizQuestion>)
    requires KnownType(questionType)
    ensures r.Ok? ==> WellFormed(r.value)
  {
    if questionType == MultipleChoice then
      var res := RetryFrom(gen.mcq(i), ValidateMcq, McqNoun, 0).0;
      RetryStopsAtFirstSuccess(gen.mcq(i), ValidateMcq, McqNoun, 0);
      if res.Ok? then Ok(FromMcq(res.value)) else Err(res.error)
    else if questionType == FillInTheBlank then
      var res := RetryFrom(gen.fillBlank(i), ValidateFillBlank, FillBlankNoun, 0).0;
      RetryStopsAtFirstSuccess(gen.fillBlank(i), ValidateFillBlank, FillBlankNoun, 0);
      if res.Ok? then Ok(FromFillBlank(res.value)) else Err(res.error)
    else
      var res := RetryFrom(gen.trueFalse(i), ValidateTrueFalse, TrueFalseNoun, 0).0;
      RetryStopsAtFirstSuccess(gen.trueFalse(i), ValidateTrueFalse, TrueFalseNoun, 0);
      if res.Ok? then Ok(FromTrueFalse(res.value)) else Err(res.error)
  }

  /** How each kind's generated record becomes a stored question. */
  lemma RecordMapping(gen: Generator, questionType: string, i: nat)
    requires KnownType(questionType) && GenerateOne(gen, questionType, i).Ok?
    ensures var q := GenerateOne(gen, questionType, i).value;
      && (questionType == MultipleChoice ==>
            var m := RetryFrom(gen.mcq(i), ValidateMcq, McqNoun, 0).0.value;
            q.kind == "MCQ" && q.question == m.question && q.options == Some(m.options)
            && q.correctAnswer == m.correctAnswer)
      && (questionType == FillInTheBlank ==>
            var f := RetryFrom(gen.fillBlank(i), ValidateFillBlank, FillBlankNoun, 0).0.value;
            q.kind == "Fill in the Blank" && q.question == f.question && q.options.None?
            && q.correctAnswer == f.answer)
      && (questionType == TrueFalse ==>
            var t := RetryFrom(gen.trueFalse(i), ValidateTrueFalse, TrueFalseNoun, 0).0.value;
            q.kind == "True/False" && q.question == t.question && q.options == Some(["True", "False"])
            && q.correctAnswer == t.correctAnswer)
  {
  }

  /** The generation loop of `generate_questions` from call `i` up to `n`,
      where `call(j)` is what the `j`-th call yields and `acc` holds the
      questions already appended: whether the loop completes, and the
      questions held when it stops. */
  function Loop(call: nat -> Result<QuizQuestion>, i: nat, n: int, acc: seq<QuizQuestion>): (r: (bool, seq<QuizQuestion>))
    decreases n - i
    ensures |acc| <= |r.1| <= |acc| + (if n <= i then 0 else n - i)
    ensures r.0 ==> |r.1| == |acc| + (if n <= i then 0 else n - i)
  {
    if i >= n then (true, acc)
    else
      match call(i)
      case Err(_) => (false, acc)
      case Ok(q) => Loop(call, i + 1, n, acc + [q])
  }

  /** From any point of the loop: the held questions extend those already
      appended, each new one is the matching call's result, a completed loop
      keeps them in call order, and a failure stops at the
      failing call. */
  lemma {:induction false} LoopOutcome(call: nat -> Result<QuizQuestion>, i: nat, n: int, acc: seq<QuizQuestion>)
    ensures var (ok, qs) := Loop(call, i, n, acc);
      && |acc| <= |qs| && qs[..|acc|] == acc
      && (forall k :: |acc| <= k < |qs| ==> call(i + k - |acc|) == Ok(qs[k]))
      && (!ok ==> i + |qs| - |acc| < n && call(i + |qs| - |acc|).Err?)
    decreases n - i
  {
    if i < n && call(i).Ok? {
      var q := call(i).value;
      LoopOutcome(call, i + 1, n, acc + [q]);
      var qs := Loop(call, i + 1, n, acc + [q]).1;
      assert qs[..|acc|] == (qs[..|acc| + 1])[..|acc|];
      forall k | |acc| <= k < |qs|
        ensures call(i + k - |acc|) == Ok(qs[k])
      {
        if k == |acc| {
          assert qs[k] == (acc + [q])[k];
        }
      }
    }
  }

  /** The calls of a batch of a known type: the `j`-th is `GenerateOne`. */
  function Calls(gen: Generator, questionType: string): (call: nat -> Result<QuizQuestion>)
    requires KnownType(questionType)
    ensures forall j: nat :: call(j) == GenerateOne(gen, questionType, j)
  {
    (j: nat) => GenerateOne(gen, questionType, j)
  }

  /** The loop of a batch from call `i` up to `n`; an unknown question type
      appends nothing. */
  function BatchFrom(gen: Generator, questionType: string, i: nat, n: int, acc: seq<QuizQuestion>): (r: (bool, seq<QuizQuestion>))
    ensures |acc| <= |r.1| <= |acc| + (if n <= i then 0 else n - i)
    ensures r.0 && KnownType(questionType) ==> |r.1| == |acc| + (if n <= i then 0 else n - i)
    ensures !KnownType(questionType) ==> r == (true, acc)
  {
    if KnownType(questionType) then Loop(Calls(gen, questionType), i, n, acc) else (true, acc)
  }

  /** A whole batch of `n` calls, started with no question. */
  function Batch(gen: Generator, questionType: string, n: int): (r: (bool, seq<QuizQuestion>))
    ensures |r.1| <= if n <= 0 then 0 else n
    ensures r.0 && KnownType(questionType) ==> |r.1| == if n <= 0 then 0 else n
  {
    BatchFrom(gen, questionType, 0, n, [])
  }

  /** A completed batch of a known type holds one question per call, in call
      order; a failed batch keeps the questions generated before the failing
      call (there is no rollback) and nothing after it; an unknown type
      completes with no question. */
  lemma BatchOutcome(gen: Generator, questionType: string, n: int)
    ensures var (ok, qs) := Batch(gen, questionType, n);
      && (!KnownType(questionType) ==> ok && qs == [])
      && (KnownType(questionType) ==> forall k :: 0 <= k < |qs| ==> GenerateOne(gen, questionType, k) == Ok(qs[k]))
      && (ok && KnownType(questionType) ==> |qs| == if n <= 0 then 0 else n)
      && (!ok ==> KnownType(questionType) && |qs| < n && GenerateOne(gen, questionType, |qs|).Err?)
  {
    if KnownType(questionType) {
      var call := Calls(gen, questionType);
      LoopOutcome(call, 0, n, []);
      var r := Loop(call, 0, n, []);
      assert Batch(gen, questionType, n) == r;
      var qs := r.1;
      forall k | 0 <= k < |qs|
        ensures GenerateOne(gen, questionType, k) == Ok(qs[k])
      {
        assert call(0 + k - 0) == Ok(qs[k]);
      }
      if !r.0 {
        assert call(0 + |qs| - 0).Err?;
      }
    }
  }

  /** One turn of the generation loop: a failing call stops it with the
      questions held so far, a successful one appends its question. */
  lemma BatchFromStep(gen: Generator, questionType: string, i: nat, n: int, acc: seq<QuizQuestion>)
    requires KnownType(questionType) && i < n
    ensures var next := GenerateOne(gen, questionType, i);
      BatchFrom(gen, questionType, i, n, acc)
      == if next.Ok? then BatchFrom(gen, questionType, i + 1, n, acc + [next.value]) else (false, acc)
  {
    assert Calls(gen, questionType)(i) == GenerateOne(gen, questionType, i);
  }

  /** Every question a batch stores is well formed. */
  lemma BatchWellFormed(gen: Generator, questionType: string, n: int)
    ensures forall k :: 0 <= k < |Batch(gen, questionType, n).1| ==> WellFormed(Batch(gen, questionType, n).1[k])
  {
    BatchOutcome(gen, questionType, n);
  }

  /** The body of the generation loop: dispatch on the question type, call the
      matching generator and map its record into the stored form. */
  method GenerateNext(gen: Generator, questionType: string, i: nat) returns (r: Result<QuizQuestion>)
    requires KnownType(questionType)
    ensures r == GenerateOne(gen, questionType, i)
    ensures r.Ok? ==> WellFormed(r.value)
  {
    if questionType == MultipleChoice {
      var res, _ := GenerateMcq(gen.mcq(i));
      r := if res.Ok? then Ok(FromMcq(res.value)) else Err(res.error);
    } else if questionType == FillInTheBlank {
      var res, _ := GenerateFillBlank(gen.fillBlank(i));
      r := if res.Ok? then Ok(FromFillBlank(res.value)) else Err(res.error);
    } else {
      var res, _ := GenerateTrueFalse(gen.trueFalse(i));
      r := if res.Ok? then Ok(FromTrueFalse(res.value)) else Err(res.error);
    }
  }

  // ---------- scoring ----------

  /** The comparison of `evaluate_quiz`: equal after trimming and lower-casing,
      so answers that are equal once trimmed always match. */
  predicate AnswersMatch(userAnswer: string, correctAnswer: string): (r: bool)
    ensures Strip(userAnswer) == Strip(correctAnswer) ==> r
  {
    Lower(Strip(userAnswer)) == Lower(Strip(correctAnswer))
  }

  /** One entry of `results`: the question's number, text and type, the
      user's answer and the correct one, and whether the two match. */
  function Score(number: nat, q: QuizQuestion, userAnswer: string): (r: QuizResult)
    ensures r.questionNumber == number && r.question == q.question && r.questionType == q.kind
    ensures r.userAnswer == userAnswer && r.correctAnswer == q.correctAnswer
  {
    QuizResult(number, q.question, q.kind, userAnswer, q.correctAnswer, AnswersMatch(userAnswer, q.correctAnswer))
  }

  /** A result is marked correct exactly when its two answers match, and an
      answer that scores is as long as the correct answer once trimmed. */
  lemma ScoreJudgesAnswer(number: nat, q: QuizQuestion, userAnswer: string)
    ensures var r := Score(number, q, userAnswer);
      && (r.isCorrect <==> AnswersMatch(r.userAnswer, r.correctAnswer))
      && (r.isCorrect ==> |Strip(userAnswer)| == |Strip(q.correctAnswer)|)
  {
  }

  function Min(a: nat, b: nat): nat
  {
    if a <= b then a else b
  }

  /** `enumerate(zip(questions, user_answers))` scored from `start`: one result
      per pair, as many as the shorter list, numbered from `start + 1`. */
  function Scored(qs: seq<QuizQuestion>, answers: seq<string>, start: nat): (rs: seq<QuizResult>)
    ensures |rs| == Min(|qs|, |answers|)
    ensures forall k :: 0 <= k < |rs| ==> rs[k] == Score(start + k + 1, qs[k], answers[k])
  {
    if qs == [] || answers == [] then []
    else [Score(start + 1, qs[0], answers[0])] + Scored(qs[1..], answers[1..], start + 1)
  }

  /** The loop of `evaluate_quiz` over `enumerate(zip(questions, user_answers), 1)`:
      one result per pair, appended in order. */
  method ScoreAll(qs: seq<QuizQuestion>, answers: seq<string>) returns (scored: seq<QuizResult>)
    ensures scored == Scored(qs, answers, 0)
  {
    scored := [];
    var n := Min(|qs|, |answers|);
    for i := 0 to n
      invariant |scored| == i
      invariant forall k :: 0 <= k < i ==> scored[k] == Score(k + 1, qs[k], answers[k])
    {
      scored := scored + [Score(i + 1, qs[i], answers[i])];
    }
    ghost var spec := Scored(qs, answers, 0);
    assert |scored| == |spec|;
    assert forall k :: 0 <= k < |scored| ==> scored[k] == spec[k];
  }

  /** Whitespace around the user's answer does not change its score. */
  lemma ScoringIgnoresPadding(p: string, userAnswer: string, q: string, correctAnswer: string)
    requires forall i :: 0 <= i < |p| ==> IsSpace(p[i])
    requires forall i :: 0 <= i < |q| ==> IsSpace(q[i])
    ensures AnswersMatch(p + userAnswer + q, correctAnswer) == AnswersMatch(userAnswer, correctAnswer)
  {
    StripIgnoresPadding(p, userAnswer, q);
  }

  /** Answers that differ only in the case of ASCII letters score alike. */
  lemma ScoringIgnoresCase(userAnswer: string, correctAnswer: string)
    requires Lower(userAnswer) == Lower(correctAnswer)
    ensures AnswersMatch(userAnswer, correctAnswer)
  {
    LowerStrip(userAnswer);
    LowerStrip(correctAnswer);
  }

  lemma ScoringExample()
    ensures AnswersMatch(" Paris ", "paris")
  {
    assert " " + "Paris" + " " == " Paris ";
    ScoringIgnoresPadding(" ", "Paris", " ", "paris");
    assert Lower("Paris") == "paris" == Lower("paris");
    ScoringIgnoresCase("Paris", "paris");
  }

  // ---------- the session object ----------

  class QuizManager {
    var questions: seq<QuizQuestion>
    var userAnswers: seq<string>
    var results: seq<QuizResult>

    /** Every stored question is well formed, and results are numbered from 1
        and never outnumber the questions. */
    ghost predicate Valid()
      reads this
    {
      && (forall k :: 0 <= k < |questions| ==> WellFormed(questions[k]))
      && |results| <= |questions|
      && (forall k :: 0 <= k < |results| ==> results[k].questionNumber == k + 1)
    }

    constructor ()
      ensures Valid()
      ensures questions == [] && userAnswers == [] && results == []
    {
      questions, userAnswers, results := [], [], [];
    }

    /** `generate_questions`: reset the three lists, then call the generator
        `numQuestions` times for the requested type, appending each mapped
        question. A terminal failure returns false and keeps what was appended
        before it; an unknown type returns true with no question. */
    method GenerateQuestions(gen: Generator, questionType: string, numQuestions: int) returns (ok: bool)
      modifies this
      ensures Valid()
      ensures (ok, questions) == Batch(gen, questionType, numQuestions)
      ensures userAnswers == [] && results == []
    {
      questions, userAnswers, results := [], [], [];
      BatchWellFormed(gen, questionType, numQuestions);
      var made: seq<QuizQuestion> := [];
      var i: nat := 0;
      while i < numQuestions
        invariant i == 0 || i <= numQuestions
        invariant Batch(gen, questionType, numQuestions) == BatchFrom(gen, questionType, i, numQuestions, made)
        invariant userAnswers == [] && results == []
        decreases numQuestions - i
      {
        if KnownType(questionType) {
          var next := GenerateNext(gen, questionType, i);
          BatchFromStep(gen, questionType, i, numQuestions, made);
          if next.Err? {
            assert Batch(gen, questionType, numQuestions) == (false, made);
            questions := made;
            return false;
          }
          made := made + [next.value];
        }
        i := i + 1;
      }
      assert Batch(gen, questionType, numQuestions) == (true, made);
      questions := made;
      ok := true;
    }

    /** The answer-collecting loop of `attempt_quiz`: one answer per question,
        in question order, appended to the answers already held. The widget
        that asks the user is `widget(i, q)`. */
    method AttemptQuiz(widget: (nat, QuizQuestion) -> string)
      requires Valid()
      modifies this`userAnswers
      ensures Valid()
      ensures |userAnswers| == |old(userAnswers)| + |questions|
      ensures userAnswers[..|old(userAnswers)|] == old(userAnswers)
      ensures forall k :: 0 <= k < |questions| ==> userAnswers[|old(userAnswers)| + k] == widget(k, questions[k])
    {
      ghost var before := userAnswers;
      for i := 0 to |questions|
        invariant |userAnswers| == |before| + i
        invariant userAnswers[..|before|] == before
        invariant forall k :: 0 <= k < i ==> userAnswers[|before| + k] == widget(k, questions[k])
      {
        var answer := widget(i, questions[i]);
        userAnswers := userAnswers + [answer];
      }
    }

    /** `attempt_quiz` as evidently intended for a page that is drawn again on
        every interaction: the answers of this drawing replace those held. */
    method AttemptQuizReplacing(widget: (nat, QuizQuestion) -> string)
      requires Valid()
      modifies this`userAnswers
      ensures Valid()
      ensures |userAnswers| == |questions|
      ensures forall k :: 0 <= k < |questions| ==> userAnswers[k] == widget(k, questions[k])
    {
      userAnswers := [];
      AttemptQuiz(widget);
    }

    /** `evaluate_quiz`: rebuild the results from the question and answer
        lists, leaving both untouched, so that evaluating again yields the
        same results. */
    method EvaluateQuiz()
      requires Valid()
      modifies this`results
      ensures Valid()
      ensures results == Scored(questions, userAnswers, 0)
    {
      results := ScoreAll(questions, userAnswers);
    }
  }

  /** One multiple-choice question, answered correctly, scored twice. */
  method CapitalOfFranceScenario()
  {
    var france := McqQuestion("What is the capital of France?", ["London", "Berlin", "Paris", "Madrid"], "Paris");
    var gen := Generator(
      (i: nat) => (a: nat) => Parsed(france),
      (i: nat) => (a: nat) => Failed("unused"),
      (i: nat) => (a: nat) => Failed("unused"));
    var m := new QuizManager();
    var ok := m.GenerateQuestions(gen, MultipleChoice, 1);
    assert ok && m.questions == [FromMcq(france)];
    m.AttemptQuiz((i: nat, q: QuizQuestion) => "Paris");
    m.EvaluateQuiz();
    assert m.results[0] == QuizResult(1, france.question, "MCQ", "Paris", "Paris", true);
    var first := m.results;
    m.EvaluateQuiz();
    assert m.results == first;
  }

  /** The page drawn twice and then submitted, as Streamlit reruns it, with
      `attempt_quiz` as written: the results carry the first drawing's
      answers, not the later ones. */
  method RerunScoresFirstAnswers(m: QuizManager, first: (nat, QuizQuestion) -> string, second: (nat, QuizQuestion) -> string)
    requires m.Valid() && m.userAnswers == []
    modifies m
    ensures m.questions == old(m.questions) && |m.results| == |m.questions|
    ensures forall k :: 0 <= k < |m.questions| ==> m.results[k] == Score(k + 1, m.questions[k], first(k, m.questions[k]))
  {
    m.AttemptQuiz(first);
    m.AttemptQuiz(second);
    m.EvaluateQuiz();
  }

  /** The same two drawings with answers that replace the held ones: the
      results carry the last drawing's answers. */
  method RerunScoresLastAnswers(m: QuizManager, first: (nat, QuizQuestion) -> string, second: (nat, QuizQuestion) -> string)
    requires m.Valid() && m.userAnswers == []
    modifies m
    ensures m.questions == old(m.questions) && |m.results| == |m.questions|
    ensures forall k :: 0 <= k < |m.questions| ==> m.results[k] == Score(k + 1, m.questions[k], second(k, m.questions[k]))
  {
    m.AttemptQuizReplacing(first);
    m.AttemptQuizReplacing(second);
    m.EvaluateQuiz();
  }

  /** The radio's default "London" does not match "Paris". */
  lemma LondonIsNotParis()
    ensures !AnswersMatch("London", "Paris")
  {
    assert Strip("London") == "London" by {
      assert TrimStart("London") == "London";
      assert TrimEnd("London") == "London";
    }
    assert Strip("Paris") == "Paris" by {
      assert TrimStart("Paris") == "Paris";
      assert TrimEnd("Paris") == "Paris";
    }
  }

  /** The capital-of-France quiz drawn first with the radio's default
      "London", then answered "Paris" and submitted, with `attempt_quiz` as
      written: it is scored wrong. */
  method CapitalOfFranceRerunAsWritten()
  {
    var france := McqQuestion("What is the capital of France?", ["London", "Berlin", "Paris", "Madrid"], "Paris");
    var gen := Generator(
      (i: nat) => (a: nat) => Parsed(france),
      (i: nat) => (a: nat) => Failed("unused"),
      (i: nat) => (a: nat) => Failed("unused"));
    var m := new QuizManager();
    var ok := m.GenerateQuestions(gen, MultipleChoice, 1);
    assert ok && m.questions == [FromMcq(france)];
    RerunScoresFirstAnswers(m, (i: nat, q: QuizQuestion) => "London", (i: nat, q: QuizQuestion) => "Paris");
    LondonIsNotParis();
    assert !m.results[0].isCorrect;
  }

  /** The same drawings with replacing answers: it is scored right. */
  method CapitalOfFranceRerunCorrected()
  {
    var france := McqQuestion("What is the capital of France?", ["London", "Berlin", "Paris", "Madrid"], "Paris");
    var gen := Generator(
      (i: nat) => (a: nat) => Parsed(france),
      (i: nat) => (a: nat) => Failed("unused"),
      (i: nat) => (a: nat) => Failed("unused"));
    var m := new QuizManager();
    var ok := m.GenerateQuestions(gen, MultipleChoice, 1);
    assert ok && m.questions == [FromMcq(france)];
    RerunScoresLastAnswers(m, (i: nat, q: QuizQuestion) => "London", (i: nat, q: QuizQuestion) => "Paris");
    assert m.results[0].isCorrect;
  }
}
