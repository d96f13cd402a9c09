/** The question generator: the three parsed question records, the semantic
    check each `generate_*` method applies to a parsed record, and the bounded
    retry loop the three methods share. The language-model call and the output
    parser are an oracle that, for every attempt, yields either a failure or a
    parsed record. */
module Helper {
  import opened Wrappers
  import opened Text

  /** A parsed multiple-choice question (`MCQQuestion`). */
  datatype McqQuestion = McqQuestion(question: string, options: seq<string>, correctAnswer: string)

  /** A parsed fill-in-the-blank question (`FillBlankQuestion`). */
  datatype FillBlankQuestion = FillBlankQuestion(question: string, answer: string)

  /** A parsed true/false question (`TrueFalseQuestion`). */
  datatype TrueFalseQuestion = TrueFalseQuestion(question: string, correctAnswer: string)

  /** What one attempt yields: the model call or the parser raised an
      exception whose text is `error`, or the response parsed into `record`. */
  datatype Attempt<R> = Failed(error: string) | Parsed(record: R)

  /** The fixed retry budget (`max_attempts`) of every `generate_*` method. */
  const MaxAttempts: nat := 3

  /** The canonical blank marker and the shorter variant that is rewritten to it. */
  const Blank: string := "_____"
  const ShortBlank: string := "___"

  /** The error texts the validation blocks raise. */
  const InvalidFormat: string := "Invalid question format"
  const AnswerNotInOptions: string := "Correct answer not in options"
  const MissingBlank: string := "Question missing blank marker '_____'"

  /** How each question kind is named in its terminal error message. */
  const McqNoun: string := "MCQ"
  const FillBlankNoun: string := "fill-in-the-blank question"
  const TrueFalseNoun: string := "True/False question"

  // ---------- what a returned question satisfies ----------

  /** A usable multiple-choice question. Distinct options are not required. */
  predicate McqWellFormed(q: McqQuestion)
  {
    q.question != [] && |q.options| == 4 && q.correctAnswer != [] && q.correctAnswer in q.options
  }

  /** A usable fill-in-the-blank question: it shows the canonical blank. */
  predicate FillBlankWellFormed(q: FillBlankQuestion)
  {
    q.question != [] && q.answer != [] && Contains(q.question, Blank)
  }

  /** A usable true/false question: the answer is one of two case-sensitive literals. */
  predicate TrueFalseWellFormed(q: TrueFalseQuestion)
  {
    q.question != [] && (q.correctAnswer == "True" || q.correctAnswer == "False")
  }

  // ---------- the validation blocks ----------

  /** The checks of `generate_mcq`: the record is returned as parsed, or the
      first failing check raises its message. */
  function ValidateMcq(q: McqQuestion): (r: Result<McqQuestion>)
    ensures r.Ok? <==> McqWellFormed(q)
    ensures r.Ok? ==> r.value == q
    ensures r.Err? && (q.question == [] || |q.options| != 4 || q.correctAnswer == []) ==> r.error == InvalidFormat
    ensures r.Err? && q.question != [] && |q.options| == 4 && q.correctAnswer != [] ==> r.error == AnswerNotInOptions
  {
    if q.question == [] || |q.options| != 4 || q.correctAnswer == [] then Err(InvalidFormat)
    else if q.correctAnswer !in q.options then Err(AnswerNotInOptions)
    else Ok(q)
  }

  /** The checks of `generate_fill_blank`. A question without the canonical
      marker has every short marker rewritten to it (the record is updated in
      place in the source) before the marker is looked for again. */
  function ValidateFillBlank(q: FillBlankQuestion): (r: Result<FillBlankQuestion>)
    ensures r.Ok? ==> FillBlankWellFormed(r.value) && r.value.answer == q.answer
    ensures q.question == [] || q.answer == [] ==> r == Err(InvalidFormat)
    ensures q.question != [] && q.answer != [] && Contains(q.question, Blank) ==> r == Ok(q)
    ensures q.question != [] && q.answer != [] && !Contains(q.question, Blank) ==>
              (r.Ok? <==> Contains(q.question, ShortBlank))
              && (r.Ok? ==> r.value.question == Replace(q.question, ShortBlank, Blank))
              && (r.Err? ==> r.error == MissingBlank)
  {
    if q.question == [] || q.answer == [] then Err(InvalidFormat)
    else if Contains(q.question, Blank) then Ok(q)
    else
      var fixed := Replace(q.question, ShortBlank, Blank);
      if !Contains(fixed, Blank) then
        assert !Contains(q.question, ShortBlank) by {
          if Contains(q.question, ShortBlank) { ReplaceIntroduces(q.question, ShortBlank, Blank); }
        }
        Err(MissingBlank)
      else
        assert Contains(q.question, ShortBlank) by {
          if !Contains(q.question, ShortBlank) { ReplaceWithoutMatch(q.question, ShortBlank, Blank); }
        }
        assert fixed != [] by { var i :| 0 <= i <= |fixed| && OccursAt(fixed, Blank, i); }
        Ok(q.(question := fixed))
  }

  /** The checks of `generate_true_false`. */
  function ValidateTrueFalse(q: TrueFalseQuestion): (r: Result<TrueFalseQuestion>)
    ensures r.Ok? <==> TrueFalseWellFormed(q)
    ensures r.Ok? ==> r.value == q
    ensures r.Err? ==> r.error == InvalidFormat
  {
    if q.question == [] || q.correctAnswer !in ["True", "False"] then Err(InvalidFormat)
    else Ok(q)
  }

  /** The canonical marker contains the short one, so a question passes the
      fill-in-the-blank check exactly when it has both texts and some marker. */
  lemma {:induction false} FillBlankAccepts(q: FillBlankQuestion)
    ensures ValidateFillBlank(q).Ok? <==> q.question != [] && q.answer != [] && Contains(q.question, ShortBlank)
  {
    if q.question != [] && q.answer != [] && Contains(q.question, Blank) {
      ContainsPrefix(q.question, Blank, ShortBlank);
    }
  }

  lemma FillBlankExample()
    ensures ValidateFillBlank(FillBlankQuestion("The capital of France is ___.", "Paris")).Ok?
    ensures Contains(ValidateFillBlank(FillBlankQuestion("The capital of France is ___.", "Paris")).value.question, Blank)
  {
    var s := "The capital of France is ___.";
    assert OccursAt(s, ShortBlank, 25);
    FillBlankAccepts(FillBlankQuestion(s, "Paris"));
  }

  // ---------- the retry loop ----------

  /** The terminal error raised when the last attempt fails. */
  function ExhaustedMessage(noun: string, last: string): (m: string)
    ensures |m| >= |"Failed to generate valid " + noun| && m[..|"Failed to generate valid " + noun|] == "Failed to generate valid " + noun
    ensures Contains(m, NatToString(MaxAttempts) + " attempts")
    ensures |m| >= |last| && m[|m| - |last|..] == last
  {
    var prefix := "Failed to generate valid " + noun + " after ";
    var m := prefix + NatToString(MaxAttempts) + " attempts: " + last;
    assert OccursAt(m, NatToString(MaxAttempts) + " attempts", |prefix|);
    m
  }

  /** Python's `str(3)` is "3", so the message names the attempt count. */
  lemma ExhaustedMessageNamesThree(noun: string, last: string)
    ensures Contains(ExhaustedMessage(noun, last), "3 attempts")
  {
    assert NatToString(MaxAttempts) + " attempts" == "3 attempts";
  }

  /** The outcome of one attempt: its failure, or its record after validation. */
  function Outcome<R>(a: Attempt<R>, validate: R -> Result<R>): (r: Result<R>)
    ensures a.Failed? ==> r == Err(a.error)
    ensures r.Ok? ==> a.Parsed? && r == validate(a.record)
  {
    match a
    case Failed(e) => Err(e)
    case Parsed(x) => validate(x)
  }

  /** Attempt `k` parses and validates. */
  predicate Succeeds<R>(oracle: nat -> Attempt<R>, validate: R -> Result<R>, k: nat)
  {
    Outcome(oracle(k), validate).Ok?
  }

  /** The retry loop run from `attempt` on: the result and the number of
      model invocations made in total. */
  function RetryFrom<R>(oracle: nat -> Attempt<R>, validate: R -> Result<R>, noun: string, attempt: nat): (r: (Result<R>, nat))
    requires attempt < MaxAttempts
    decreases MaxAttempts - attempt
    ensures attempt < r.1 <= MaxAttempts
  {
    var o := Outcome(oracle(attempt), validate);
    if o.Ok? then (o, attempt + 1)
    else if attempt == MaxAttempts - 1 then (Err(ExhaustedMessage(noun, o.error)), MaxAttempts)
    else RetryFrom(oracle, validate, noun, attempt + 1)
  }

  /** The loop always stops after one to three invocations; a success comes
      from the last attempt made, every earlier attempt failed, and a failure
      means all three attempts failed and the last error is reported. */
  lemma {:induction false} RetryStopsAtFirstSuccess<R>(oracle: nat -> Attempt<R>, validate: R -> Result<R>, noun: string, attempt: nat)
    requires attempt < MaxAttempts
    ensures var (res, calls) := RetryFrom(oracle, validate, noun, attempt);
      attempt < calls <= MaxAttempts
      && (forall j :: attempt <= j < calls - 1 ==> !Succeeds(oracle, validate, j))
      && (res.Ok? ==> res == Outcome(oracle(calls - 1), validate))
      && (res.Err? ==> calls == MaxAttempts && !Succeeds(oracle, validate, MaxAttempts - 1)
                       && res.error == ExhaustedMessage(noun, Outcome(oracle(MaxAttempts - 1), validate).error))
    decreases MaxAttempts - attempt
  {
    if !Succeeds(oracle, validate, attempt) && attempt < MaxAttempts - 1 {
      RetryStopsAtFirstSuccess(oracle, validate, noun, attempt + 1);
    }
  }

  /** If attempts before `k` fail and attempt `k` succeeds, the result is
      attempt `k`'s validated record after exactly `k + 1` invocations. */
  lemma {:induction false} RetryFirstSuccess<R>(oracle: nat -> Attempt<R>, validate: R -> Result<R>, noun: string, attempt: nat, k: nat)
    requires attempt <= k < MaxAttempts
    requires forall j :: attempt <= j < k ==> !Succeeds(oracle, validate, j)
    requires Succeeds(oracle, validate, k)
    ensures RetryFrom(oracle, validate, noun, attempt) == (Outcome(oracle(k), validate), k + 1)
    decreases k - attempt
  {
    if attempt < k {
      assert !Succeeds(oracle, validate, attempt);
      RetryFirstSuccess(oracle, validate, noun, attempt + 1, k);
    }
  }

  /** If every attempt fails, exactly three invocations are made and the error
      names the kind, the attempt count and the last attempt's error. */
  lemma {:induction false} RetryExhausted<R>(oracle: nat -> Attempt<R>, validate: R -> Result<R>, noun: string, attempt: nat)
    requires attempt < MaxAttempts
    requires forall j :: attempt <= j < MaxAttempts ==> Outcome(oracle(j), validate).Err?
    ensures RetryFrom(oracle, validate, noun, attempt)
         == (Err(ExhaustedMessage(noun, Outcome(oracle(MaxAttempts - 1), validate).error)), MaxAttempts)
    decreases MaxAttempts - attempt
  {
    if attempt < MaxAttempts - 1 {
      RetryExhausted(oracle, validate, noun, attempt + 1);
    }
  }

  /** The shared `for attempt in range(max_attempts)` loop of the three
      `generate_*` methods: a failed attempt is retried, the first attempt
      that parses and validates is returned, and the last failure raises. */
  method GenerateWithRetry<R>(oracle: nat -> Attempt<R>, validate: R -> Result<R>, noun: string)
    returns (res: Result<R>, calls: nat)
    ensures (res, calls) == RetryFrom(oracle, validate, noun, 0)
    ensures 1 <= calls <= MaxAttempts
    ensures forall j :: 0 <= j < calls - 1 ==> !Succeeds(oracle, validate, j)
    ensures res.Ok? ==> res == Outcome(oracle(calls - 1), validate)
    ensures res.Err? ==> calls == MaxAttempts
                         && res.error == ExhaustedMessage(noun, Outcome(oracle(MaxAttempts - 1), validate).error)
  {
    var attempt := 0;
    while attempt < MaxAttempts
      invariant attempt < MaxAttempts
      invariant forall j :: 0 <= j < attempt ==> !Succeeds(oracle, validate, j)
      invariant RetryFrom(oracle, validate, noun, 0) == RetryFrom(oracle, validate, noun, attempt)
      decreases MaxAttempts - attempt
    {
      calls := attempt + 1;
      var o := Outcome(oracle(attempt), validate);
      if o.Ok? {
        return o, calls;
      }
      if attempt == MaxAttempts - 1 {
        return Err(ExhaustedMessage(noun, o.error)), calls;
      }
      attempt := attempt + 1;
    }
    assert false;
  }

  /** `generate_mcq`. */
  method GenerateMcq(oracle: nat -> Attempt<McqQuestion>) returns (res: Result<McqQuestion>, calls: nat)
    ensures (res, calls) == RetryFrom(oracle, ValidateMcq, McqNoun, 0)
    ensures 1 <= calls <= MaxAttempts
    ensures res.Ok? ==> McqWellFormed(res.value) && oracle(calls - 1) == Parsed(res.value)
  {
    res, calls := GenerateWithRetry(oracle, ValidateMcq, McqNoun);
  }

  /** `generate_fill_blank`. */
  method GenerateFillBlank(oracle: nat -> Attempt<FillBlankQuestion>) returns (res: Result<FillBlankQuestion>, calls: nat)
    ensures (res, calls) == RetryFrom(oracle, ValidateFillBlank, FillBlankNoun, 0)
    ensures 1 <= calls <= MaxAttempts
    ensures res.Ok? ==> FillBlankWellFormed(res.value)
                        && oracle(calls - 1).Parsed? && ValidateFillBlank(oracle(calls - 1).record) == res
  {
    res, calls := GenerateWithRetry(oracle, ValidateFillBlank, FillBlankNoun);
  }

  /** `generate_true_false`. */
  method GenerateTrueFalse(oracle: nat -> Attempt<TrueFalseQuestion>) returns (res: Result<TrueFalseQuestion>, calls: nat)
    ensures (res, calls) == RetryFrom(oracle, ValidateTrueFalse, TrueFalseNoun, 0)
    ensures 1 <= calls <= MaxAttempts
    ensures res.Ok? ==> TrueFalseWellFormed(res.value) && oracle(calls - 1) == Parsed(res.value)
  {
    res, calls := GenerateWithRetry(oracle, ValidateTrueFalse, TrueFalseNoun);
  }
}
