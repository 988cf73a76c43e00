/** What the workflow promises about whole runs: call order, feedback flow, acceptance and fallback. */
module PrGeneratorProperties {
  import opened Wrappers
  import opened Models
  import opened PrGenerator

  // ---------------------------------------------------------------- single steps

  /** A generation step changes only the statement, which becomes the generator's output. */
  lemma GenerationChangesOnlyStatement(s: State, reply: Result<string, Exception>)
    requires reply.Ok?
    ensures GenerateResponse(reply).Ok?
    ensures Merge(s, GenerateResponse(reply).value) == s.(prStatement := Some(reply.value))
  {
  }

  /** An evaluation step changes only the grade and the feedback, copied from the decision. */
  lemma EvaluationChangesOnlyVerdict(s: State, reply: Result<RawFeedback, Exception>)
    requires Verdict(reply).Some?
    ensures EvaluateResponse(reply).Ok?
    ensures var v := Verdict(reply).value;
      Merge(s, EvaluateResponse(reply).value) == s.(grade := Some(GradeText(v.grade)), feedback := Some(v.feedback))
  {
  }

  /** Merging a decision routes to the end exactly when its grade is Good. */
  lemma RouteFollowsVerdict(s: State, reply: Result<RawFeedback, Exception>)
    requires Verdict(reply).Some?
    ensures var s' := Merge(s, EvaluateResponse(reply).value);
      RouteStatement(s') == Ok(if Verdict(reply).value.grade == Good then Accepted else RejectedWithFeedback)
  {
    EvaluationChangesOnlyVerdict(s, reply);
    assert GradeText(NeedsImprovement) != "good";
  }

  // ---------------------------------------------------------------- rounds

  /** A round that generates, then hears "needs improvement". */
  predicate RejectedFirst(llm: Option<ChatModel>, evaluator: Option<StructuredModel>,
                          gens: GeneratorScript, evals: EvaluatorScript)
  {
    llm.Some? && evaluator.Some? && |gens| >= 1 && gens[0].Ok? && |evals| >= 1
    && Verdict(evals[0]).Some? && Verdict(evals[0]).value.grade == NeedsImprovement
  }

  /** The state after a rejected round: the new statement, the grade and the decision's feedback. */
  function AfterRejection(s: State, statement: string, feedback: string): State
  {
    State(s.topic, Some(statement), Some(GradeText(NeedsImprovement)), Some(feedback))
  }

  /** A rejected round makes its two calls and hands its feedback to the next generation. */
  lemma RejectedRound(llm: Option<ChatModel>, evaluator: Option<StructuredModel>, s: State,
                      gens: GeneratorScript, evals: EvaluatorScript)
    requires RejectedFirst(llm, evaluator, gens, evals)
    ensures FromGenerate(llm, evaluator, s, gens, evals)
      == Then([Generation(GenerationPrompt(s)), Evaluation(EvaluationPrompt(gens[0].value))],
              FromGenerate(llm, evaluator, AfterRejection(s, gens[0].value, Verdict(evals[0]).value.feedback), gens[1..], evals[1..]))
  {
    var s1 := Merge(s, GenerateResponse(gens[0]).value);
    GenerationChangesOnlyStatement(s, gens[0]);
    RouteFollowsVerdict(s1, evals[0]);
    EvaluationChangesOnlyVerdict(s1, evals[0]);
  }

  // ---------------------------------------------------------------- the call log

  /** The k-th generation call of a run started in `s`: the first sees the state's own feedback,
      each later one the feedback of the evaluation just before it, which asked for improvement. */
  predicate GenerationCallAt(c: Call, s: State, evals: EvaluatorScript, k: nat)
  {
    if k == 0 then c == Generation(GenerationPrompt(s))
    else
      k - 1 < |evals| && Verdict(evals[k - 1]).Some? && Verdict(evals[k - 1]).value.grade == NeedsImprovement
      && c == Generation(Prompt(s.topic, Some(Verdict(evals[k - 1]).value.feedback)))
  }

  /** The k-th evaluation call embeds the statement the k-th generation produced. */
  predicate EvaluationCallAt(c: Call, gens: GeneratorScript, k: nat)
  {
    k < |gens| && gens[k].Ok? && c == Evaluation(EvaluationPrompt(gens[k].value))
  }

  /** Calls alternate, generation first, each as described above. */
  predicate LogMatches(calls: seq<Call>, s: State, gens: GeneratorScript, evals: EvaluatorScript)
  {
    forall i | 0 <= i < |calls| ::
      (i % 2 == 0 ==> GenerationCallAt(calls[i], s, evals, i / 2))
      && (i % 2 == 1 ==> EvaluationCallAt(calls[i], gens, i / 2))
  }

  /** Prefixing a rejected round to the log of the rest of the run keeps the log well formed. */
  lemma LogAfterRejectedRound(s: State, gens: GeneratorScript, evals: EvaluatorScript, tail: seq<Call>)
    requires |gens| >= 1 && gens[0].Ok? && |evals| >= 1
    requires Verdict(evals[0]).Some? && Verdict(evals[0]).value.grade == NeedsImprovement
    requires LogMatches(tail, AfterRejection(s, gens[0].value, Verdict(evals[0]).value.feedback), gens[1..], evals[1..])
    ensures LogMatches([Generation(GenerationPrompt(s)), Evaluation(EvaluationPrompt(gens[0].value))] + tail, s, gens, evals)
  {
    var s2 := AfterRejection(s, gens[0].value, Verdict(evals[0]).value.feedback);
    var calls := [Generation(GenerationPrompt(s)), Evaluation(EvaluationPrompt(gens[0].value))] + tail;
    forall i | 0 <= i < |calls|
      ensures (i % 2 == 0 ==> GenerationCallAt(calls[i], s, evals, i / 2))
           && (i % 2 == 1 ==> EvaluationCallAt(calls[i], gens, i / 2))
    {
      if i >= 2 {
        var j := i - 2;
        assert calls[i] == tail[j];
        assert j / 2 == i / 2 - 1 && j % 2 == i % 2;
        if j % 2 == 1 {
          assert gens[1..][j / 2] == gens[i / 2];
        } else if j > 0 {
          assert evals[1..][j / 2 - 1] == evals[i / 2 - 1];
        }
      }
    }
  }

  /**
   * Calls alternate, generation first; generation k + 1 carries the feedback of evaluation k
   * and evaluation k embeds the output of generation k.
   */
  lemma {:induction false} CallLog(llm: Option<ChatModel>, evaluator: Option<StructuredModel>, s: State,
                                   gens: GeneratorScript, evals: EvaluatorScript)
    ensures LogMatches(FromGenerate(llm, evaluator, s, gens, evals).calls, s, gens, evals)
    decreases |gens|
  {
    if RejectedFirst(llm, evaluator, gens, evals) {
      var s2 := AfterRejection(s, gens[0].value, Verdict(evals[0]).value.feedback);
      RejectedRound(llm, evaluator, s, gens, evals);
      CallLog(llm, evaluator, s2, gens[1..], evals[1..]);
      LogAfterRejectedRound(s, gens, evals, FromGenerate(llm, evaluator, s2, gens[1..], evals[1..]).calls);
    } else if llm.Some? && gens != [] && gens[0].Ok? {
      var s1 := Merge(s, GenerateResponse(gens[0]).value);
      GenerationChangesOnlyStatement(s, gens[0]);
      if evaluator.Some? && evals != [] && Verdict(evals[0]).Some? {
        RouteFollowsVerdict(s1, evals[0]);
      }
    }
  }

  /** A verdict script whose first `k` entries all ask for improvement. */
  predicate RejectedBefore(evals: EvaluatorScript, k: nat)
  {
    k <= |evals| && forall j | 0 <= j < k :: Verdict(evals[j]).Some? && Verdict(evals[j]).value.grade == NeedsImprovement
  }

  /**
   * An accepted run made n generations and n evaluations; every evaluation but the last
   * asked for improvement, the last graded Good, and the statement the run ends with is
   * the output of the generation just before that first Good verdict.
   */
  lemma {:induction false} AcceptedRun(llm: Option<ChatModel>, evaluator: Option<StructuredModel>, s: State,
                                       gens: GeneratorScript, evals: EvaluatorScript)
    requires FromGenerate(llm, evaluator, s, gens, evals).ending.Finished?
    ensures var r := FromGenerate(llm, evaluator, s, gens, evals);
      var k := |r.calls| / 2 - 1;
      |r.calls| >= 2 && |r.calls| % 2 == 0
      && k < |gens| && gens[k].Ok? && r.state.prStatement == Some(gens[k].value)
      && k < |evals| && Verdict(evals[k]).Some? && Verdict(evals[k]).value.grade == Good
      && RejectedBefore(evals, k)
    decreases |gens|
  {
    var r := FromGenerate(llm, evaluator, s, gens, evals);
    if RejectedFirst(llm, evaluator, gens, evals) {
      var s2 := AfterRejection(s, gens[0].value, Verdict(evals[0]).value.feedback);
      var r2 := FromGenerate(llm, evaluator, s2, gens[1..], evals[1..]);
      RejectedRound(llm, evaluator, s, gens, evals);
      AcceptedRun(llm, evaluator, s2, gens[1..], evals[1..]);
      var k2 := |r2.calls| / 2 - 1;
      assert |r.calls| / 2 - 1 == k2 + 1;
      assert gens[1..][k2] == gens[k2 + 1];
      assert evals[1..][k2] == evals[k2 + 1];
      assert RejectedBefore(evals, k2 + 1) by {
        forall j | 0 <= j < k2 + 1
          ensures Verdict(evals[j]).Some? && Verdict(evals[j]).value.grade == NeedsImprovement
        {
          if j > 0 { assert evals[1..][j - 1] == evals[j]; }
        }
      }
    } else {
      assert llm.Some? && gens != [] && gens[0].Ok?;
      var s1 := Merge(s, GenerateResponse(gens[0]).value);
      GenerationChangesOnlyStatement(s, gens[0]);
      assert evaluator.Some? && evals != [] && Verdict(evals[0]).Some?;
      RouteFollowsVerdict(s1, evals[0]);
      EvaluationChangesOnlyVerdict(s1, evals[0]);
    }
  }

  /** A raising run whose last call failed and whose error is that call's failure. */
  predicate FailedAtLastCall(r: Run, gens: GeneratorScript, evals: EvaluatorScript)
    requires r.ending.Raised?
  {
    var i := |r.calls| - 1;
    |r.calls| >= 1
    && (i % 2 == 0 ==> i / 2 < |gens| && gens[i / 2].Err? && r.ending.error == gens[i / 2].error)
    && (i % 2 == 1 ==> i / 2 < |evals| && Verdict(evals[i / 2]).None?
                       && r.ending.error == EvaluateResponse(evals[i / 2]).error)
  }

  /** Prefixing a rejected round to a run that failed at its last call keeps that property. */
  lemma FailureAfterRejectedRound(r: Run, gens: GeneratorScript, evals: EvaluatorScript, r2: Run)
    requires |gens| >= 1 && |evals| >= 1 && r2.ending.Raised?
    requires r.ending == r2.ending && |r.calls| == |r2.calls| + 2
    requires FailedAtLastCall(r2, gens[1..], evals[1..])
    ensures FailedAtLastCall(r, gens, evals)
  {
    var j := |r2.calls| - 1;
    assert (j + 2) / 2 == j / 2 + 1 && (j + 2) % 2 == j % 2;
    if j % 2 == 0 {
      assert gens[1..][j / 2] == gens[j / 2 + 1];
    } else {
      assert evals[1..][j / 2] == evals[j / 2 + 1];
    }
  }

  /** A run that raises in its first round, with both handles set, failed at its last call. */
  lemma FailureInFirstRound(llm: Option<ChatModel>, evaluator: Option<StructuredModel>, s: State,
                            gens: GeneratorScript, evals: EvaluatorScript)
    requires llm.Some? && evaluator.Some? && !RejectedFirst(llm, evaluator, gens, evals)
    requires FromGenerate(llm, evaluator, s, gens, evals).ending.Raised?
    ensures FailedAtLastCall(FromGenerate(llm, evaluator, s, gens, evals), gens, evals)
  {
    var r := FromGenerate(llm, evaluator, s, gens, evals);
    assert gens != [];
    if gens[0].Ok? {
      var s1 := Merge(s, GenerateResponse(gens[0]).value);
      GenerationChangesOnlyStatement(s, gens[0]);
      var r1 := FromEvaluate(llm, evaluator, s1, gens[1..], evals);
      assert r == Then([Generation(GenerationPrompt(s))], r1);
      assert evals != [];
      if Verdict(evals[0]).Some? {
        RouteFollowsVerdict(s1, evals[0]);
      } else {
        assert r1.calls == [Evaluation(EvaluationPrompt(gens[0].value))];
      }
    }
  }

  /**
   * With both handles set, a run that raises stopped at its last model call, which failed:
   * a generator call that raised, or an evaluator reply that raised or broke the schema,
   * and the run raises exactly that call's error. So the missing-key errors of the
   * nodes and of routing never occur.
   */
  lemma {:induction false} FailureIsLastCall(llm: Option<ChatModel>, evaluator: Option<StructuredModel>, s: State,
                                             gens: GeneratorScript, evals: EvaluatorScript)
    requires llm.Some? && evaluator.Some?
    requires FromGenerate(llm, evaluator, s, gens, evals).ending.Raised?
    ensures FailedAtLastCall(FromGenerate(llm, evaluator, s, gens, evals), gens, evals)
    decreases |gens|
  {
    if RejectedFirst(llm, evaluator, gens, evals) {
      var s2 := AfterRejection(s, gens[0].value, Verdict(evals[0]).value.feedback);
      var r2 := FromGenerate(llm, evaluator, s2, gens[1..], evals[1..]);
      RejectedRound(llm, evaluator, s, gens, evals);
      FailureIsLastCall(llm, evaluator, s2, gens[1..], evals[1..]);
      FailureAfterRejectedRound(FromGenerate(llm, evaluator, s, gens, evals), gens, evals, r2);
    } else {
      FailureInFirstRound(llm, evaluator, s, gens, evals);
    }
  }

  // ---------------------------------------------------------------- whole runs

  /** With a first verdict of Good there is exactly one generation and one evaluation. */
  lemma FirstVerdictGood(llm: Option<ChatModel>, evaluator: Option<StructuredModel>, topic: string,
                         gens: GeneratorScript, evals: EvaluatorScript)
    requires llm.Some? && evaluator.Some?
    requires |gens| >= 1 && gens[0].Ok? && |evals| >= 1 && Verdict(evals[0]).Some? && Verdict(evals[0]).value.grade == Good
    ensures var r := RunFor(llm, evaluator, topic, gens, evals);
      r.ending == Finished
      && r.calls == [Generation(BasePrompt(topic)), Evaluation(EvaluationPrompt(gens[0].value))]
      && r.state == State(topic, Some(gens[0].value), Some("good"), Some(Verdict(evals[0]).value.feedback))
  {
    var s := InitialState(topic);
    var s1 := Merge(s, GenerateResponse(gens[0]).value);
    GenerationChangesOnlyStatement(s, gens[0]);
    RouteFollowsVerdict(s1, evals[0]);
    EvaluationChangesOnlyVerdict(s1, evals[0]);
    var r1 := FromEvaluate(llm, evaluator, s1, gens[1..], evals);
    assert r1.calls == [Evaluation(EvaluationPrompt(gens[0].value))];
    assert GenerationPrompt(s) == BasePrompt(topic);
    assert RunFor(llm, evaluator, topic, gens, evals) == Then([Generation(BasePrompt(topic))], r1);
  }

  /** Without a generator handle the run raises before any model call. */
  lemma MissingGeneratorRaises(evaluator: Option<StructuredModel>, s: State, gens: GeneratorScript, evals: EvaluatorScript)
    ensures FromGenerate(None, evaluator, s, gens, evals) == Run(Raised(RuntimeError(LlmNotInitialized)), s, [])
  {
  }

  /** Without an evaluator handle the run raises right after the first generation. */
  lemma MissingEvaluatorRaises(llm: Option<ChatModel>, topic: string, gens: GeneratorScript, evals: EvaluatorScript)
    requires llm.Some? && |gens| >= 1 && gens[0].Ok?
    ensures var r := RunFor(llm, None, topic, gens, evals);
      r.ending == Raised(RuntimeError(EvaluatorNotInitialized)) && r.calls == [Generation(BasePrompt(topic))]
  {
    var s := InitialState(topic);
    var s1 := Merge(s, GenerateResponse(gens[0]).value);
    assert GenerationPrompt(s) == BasePrompt(topic);
    assert FromEvaluate(llm, None, s1, gens[1..], evals).calls == [];
    assert RunFor(llm, None, topic, gens, evals) == Then([Generation(BasePrompt(topic))], FromEvaluate(llm, None, s1, gens[1..], evals));
  }

  /** A whole run starts with a generation that sees no feedback. */
  lemma RunStartsWithPlainGeneration(llm: Option<ChatModel>, evaluator: Option<StructuredModel>, topic: string,
                                     gens: GeneratorScript, evals: EvaluatorScript)
    ensures var r := RunFor(llm, evaluator, topic, gens, evals);
      r.calls != [] ==> r.calls[0] == Generation(BasePrompt(topic))
  {
  }

  /**
   * The entry point's answer: the statement of the generation just before the first Good
   * verdict when the run is accepted, the fallback text when the workflow is missing or the
   * run raises, and no answer only when the scripts run out.
   */
  lemma {:induction false} AnswerOfEntryPoint(built: bool, llm: Option<ChatModel>, evaluator: Option<StructuredModel>,
                                              topic: string, gens: GeneratorScript, evals: EvaluatorScript)
    ensures var run := RunFor(llm, evaluator, topic, gens, evals);
      var answer := StatementFor(built, llm, evaluator, topic, gens, evals);
      var k := |run.calls| / 2 - 1;
      (built && run.ending.Finished? ==>
         0 <= k < |gens| && gens[k].Ok? && answer == Returned(gens[k].value)
         && k < |evals| && Verdict(evals[k]).Some? && Verdict(evals[k]).value.grade == Good
         && RejectedBefore(evals, k))
      && (!built || run.ending.Raised? ==> answer == Returned(Fallback(topic)))
      && (answer.Unfinished? <==> built && run.ending.ScriptExhausted?)
  {
    var run := RunFor(llm, evaluator, topic, gens, evals);
    if built && run.ending.Finished? {
      AcceptedRun(llm, evaluator, InitialState(topic), gens, evals);
    }
  }

  // ---------------------------------------------------------------- two worked runs

  /** A one-round run: the first draft is accepted and returned verbatim. */
  lemma AcceptedFirstDraft()
    ensures StatementFor(true, Some(ChatGroq(ModelName)), Some(StructuredOutput(ChatGroq(ModelName))),
                         "AI-powered chatbot launch",
                         [Ok("Statement A")], [Ok(RawFeedback(Str("good"), Str("")))])
            == Returned("Statement A")
  {
    FirstVerdictGood(Some(ChatGroq(ModelName)), Some(StructuredOutput(ChatGroq(ModelName))), "AI-powered chatbot launch",
                     [Ok("Statement A")], [Ok(RawFeedback(Str("good"), Str("")))]);
  }

  /** A two-round run: the second generation sees the first verdict's feedback and its output is returned. */
  lemma AcceptedSecondDraft()
    ensures var gens: GeneratorScript := [Ok("Draft"), Ok("Final")];
      var evals: EvaluatorScript := [Ok(RawFeedback(Str("needs improvement"), Str("add benefits"))), Ok(RawFeedback(Str("good"), Str("")))];
      var llm, evaluator := Some(ChatGroq(ModelName)), Some(StructuredOutput(ChatGroq(ModelName)));
      RunFor(llm, evaluator, "X", gens, evals).calls
        == [Generation(BasePrompt("X")), Evaluation(EvaluationPrompt("Draft")),
            Generation(BasePrompt("X") + FeedbackLead + "add benefits"), Evaluation(EvaluationPrompt("Final"))]
      && StatementFor(true, llm, evaluator, "X", gens, evals) == Returned("Final")
  {
    var gens: GeneratorScript := [Ok("Draft"), Ok("Final")];
    var evals: EvaluatorScript := [Ok(RawFeedback(Str("needs improvement"), Str("add benefits"))), Ok(RawFeedback(Str("good"), Str("")))];
    var llm, evaluator := Some(ChatGroq(ModelName)), Some(StructuredOutput(ChatGroq(ModelName)));
    assert Verdict(evals[0]) == Some(Feedback(NeedsImprovement, "add benefits"));
    RejectedRound(llm, evaluator, InitialState("X"), gens, evals);
    var s2 := AfterRejection(InitialState("X"), "Draft", "add benefits");
    assert gens[1..] == [Ok("Final")] && evals[1..] == [Ok(RawFeedback(Str("good"), Str("")))];
    var s3 := Merge(s2, GenerateResponse(gens[1]).value);
    GenerationChangesOnlyStatement(s2, gens[1]);
    RouteFollowsVerdict(s3, evals[1]);
    EvaluationChangesOnlyVerdict(s3, evals[1]);
  }
}
