/**
 * The generate -> evaluate -> route workflow that writes a press-release statement.
 *
 * The two language-model calls are opaque oracles. A run is given two finite scripts of
 * replies, one for the generator and one for the evaluator, and each model call takes
 * the next reply of its script. The workflow itself has no iteration cap; a run whose
 * script is used up before it ends stops with `ScriptExhausted`, which stands for
 * "the real run would go on calling the model".
 */
module PrGenerator {
  import opened Wrappers
  import opened Models

  const ModelName := "meta-llama/llama-4-scout-17b-16e-instruct"

  /** The generator handle: a chat model bound to one model identifier. */
  datatype ChatModel = ChatGroq(modelName: string)

  /** The evaluator handle: a chat model whose replies are parsed into a `Feedback`. */
  datatype StructuredModel = StructuredOutput(base: ChatModel)

  /** The exceptions the workflow and its setup can raise. */
  datatype Exception =
    | ValueError(message: string)
    | RuntimeError(message: string)
    | KeyError(key: string)
    | ValidationError(errors: seq<FieldError>)
    | ProviderFailure(message: string)     // anything the model provider raises

  const ApiKeyMissing := "GROQ_API_KEY not found in environment variables"
  const LlmNotInitialized := "LLM not initialized. Call initialize_llm() first."
  const EvaluatorNotInitialized := "Evaluator not initialized. Call initialize_llm() first."
  const WorkflowNotInitialized := "Workflow not initialized. Call initialize_pr_generator() first."

  /** What the evaluator's structured output holds before it is validated as a `Feedback`. */
  datatype RawFeedback = RawFeedback(grade: Field, feedback: Field)

  type GeneratorScript = seq<Result<string, Exception>>
  type EvaluatorScript = seq<Result<RawFeedback, Exception>>

  // ---------------------------------------------------------------- state updates

  /** The partial update a node returns: the keys it carries overwrite the state's. */
  datatype Update = Update(prStatement: Option<string>, grade: Option<string>, feedback: Option<string>)

  function Overwrite(old_: Option<string>, new_: Option<string>): Option<string>
  {
    if new_.Some? then new_ else old_
  }

  /** Merging a node's update into the shared state. The topic is never overwritten. */
  function Merge(s: State, u: Update): State
  {
    State(s.topic, Overwrite(s.prStatement, u.prStatement), Overwrite(s.grade, u.grade), Overwrite(s.feedback, u.feedback))
  }

  // ---------------------------------------------------------------- prompts

  // The guidance sentences of the prompts are condensed; what is modelled exactly is
  // where the topic, the statement and the feedback go.
  const GenerateLead := "Generate a compelling PR statement for the topic "
  const GenerateGuidance := ". Highlight key benefits, address potential concerns, stay professional yet engaging."
  const FeedbackLead := " Also take provided feedback into account: "
  const EvaluateLead := "Review the following PR statement: "
  const EvaluateGuidance := ". Assess clarity and engagement; grade it 'good' or 'needs improvement' and give actionable feedback."

  function BasePrompt(topic: string): string
  {
    GenerateLead + topic + GenerateGuidance
  }

  /** Feedback is taken into account only when it is present and non-empty. */
  predicate UsesFeedback(feedback: Option<string>)
  {
    feedback.Some? && feedback.value != ""
  }

  /** The generation prompt for a topic and the state's latest feedback. */
  function Prompt(topic: string, feedback: Option<string>): (p: string)
    ensures |p| >= |BasePrompt(topic)|
    ensures p[..|BasePrompt(topic)|] == BasePrompt(topic)
    ensures p[|GenerateLead|..|GenerateLead| + |topic|] == topic
    ensures |p| > |BasePrompt(topic)| <==> UsesFeedback(feedback)
    ensures PromptFeedback(topic, p) == if UsesFeedback(feedback) then feedback else None
  {
    if UsesFeedback(feedback) then BasePrompt(topic) + FeedbackLead + feedback.value else BasePrompt(topic)
  }

  /** Reads back the feedback a generation prompt for `topic` carries, if any. */
  function PromptFeedback(topic: string, p: string): Option<string>
  {
    var k := |BasePrompt(topic)| + |FeedbackLead|;
    if |p| > k then Some(p[k..]) else None
  }

  function GenerationPrompt(s: State): string
  {
    Prompt(s.topic, s.feedback)
  }

  function EvaluationPrompt(statement: string): (p: string)
    ensures |p| == |EvaluateLead| + |statement| + |EvaluateGuidance|
    ensures p[|EvaluateLead|..|EvaluateLead| + |statement|] == statement
    ensures EmbeddedStatement(p) == statement
  {
    EvaluateLead + statement + EvaluateGuidance
  }

  /** Reads back the statement an evaluation prompt embeds. */
  function EmbeddedStatement(p: string): string
  {
    if |p| >= |EvaluateLead| + |EvaluateGuidance| then p[|EvaluateLead|..|p| - |EvaluateGuidance|] else ""
  }

  // ---------------------------------------------------------------- nodes

  /** A node's work up to its model call: it either raises or has a prompt to send. */
  datatype Request = Halt(error: Exception) | Ask(prompt: string)

  /** The generation node before its call: the generator handle must be set. */
  function GenerateRequest(llm: Option<ChatModel>, s: State): (r: Request)
    ensures r.Halt? <==> llm.None?
    ensures r.Halt? ==> r.error == RuntimeError(LlmNotInitialized)
    ensures r.Ask? ==> r.prompt == GenerationPrompt(s)
  {
    if llm.None? then Halt(RuntimeError(LlmNotInitialized)) else Ask(GenerationPrompt(s))
  }

  /** The generation node after its call: it writes the reply as the statement. */
  function GenerateResponse(reply: Result<string, Exception>): (r: Result<Update, Exception>)
    ensures r.Ok? <==> reply.Ok?
    ensures r.Ok? ==> r.value == Update(Some(reply.value), None, None)
    ensures reply.Err? ==> r == Err(reply.error)
  {
    match reply
    case Err(e) => Err(e)
    case Ok(text) => Ok(Update(Some(text), None, None))
  }

  /** The evaluation node before its call: the evaluator handle must be set and a statement present. */
  function EvaluateRequest(evaluator: Option<StructuredModel>, s: State): (r: Request)
    ensures evaluator.None? ==> r == Halt(RuntimeError(EvaluatorNotInitialized))
    ensures evaluator.Some? && s.prStatement.None? ==> r == Halt(KeyError("pr_statement"))
    ensures r.Ask? <==> evaluator.Some? && s.prStatement.Some?
    ensures r.Ask? ==> r.prompt == EvaluationPrompt(s.prStatement.value)
  {
    if evaluator.None? then Halt(RuntimeError(EvaluatorNotInitialized))
    else if s.prStatement.None? then Halt(KeyError("pr_statement"))
    else Ask(EvaluationPrompt(s.prStatement.value))
  }

  /** The validated decision in an evaluator reply, if the reply is one. */
  function Verdict(reply: Result<RawFeedback, Exception>): Option<Feedback>
  {
    match reply
    case Err(_) => None
    case Ok(raw) =>
      match NewFeedback(raw.grade, raw.feedback)
      case Err(_) => None
      case Ok(v) => Some(v)
  }

  /** The evaluation node after its call: it writes the decision's grade and feedback. */
  function EvaluateResponse(reply: Result<RawFeedback, Exception>): (r: Result<Update, Exception>)
    ensures r.Ok? <==> Verdict(reply).Some?
    ensures reply.Err? ==> r == Err(reply.error)
    ensures r.Ok? ==> r.value == Update(None, Some(GradeText(Verdict(reply).value.grade)), Some(Verdict(reply).value.feedback))
  {
    match reply
    case Err(e) => Err(e)
    case Ok(raw) =>
      match NewFeedback(raw.grade, raw.feedback)
      case Err(errors) => Err(ValidationError(errors))
      case Ok(v) => Ok(Update(None, Some(GradeText(v.grade)), Some(v.feedback)))
  }

  // ---------------------------------------------------------------- routing and wiring

  datatype Route = Accepted | RejectedWithFeedback

  /** Ends the run on the grade "good"; every other grade goes back to generation. */
  function RouteStatement(s: State): (r: Result<Route, Exception>)
    ensures r == Ok(Accepted) <==> s.grade == Some("good")
    ensures r == Ok(RejectedWithFeedback) <==> s.grade.Some? && s.grade.value != "good"
    ensures r.Err? <==> s.grade.None?
  {
    if s.grade.None? then Err(KeyError("grade"))
    else if s.grade.value == "good" then Ok(Accepted)
    else Ok(RejectedWithFeedback)
  }

  datatype Node = Generate | Evaluate
  datatype Target = Goto(node: Node) | End

  /** The edges of a compiled workflow graph. */
  datatype Workflow = Workflow(entry: Node, afterGenerate: Target, onAccepted: Target, onRejected: Target)

  /** Start to generation, generation to evaluation, then end or back to generation. */
  function CompiledWorkflow(): Workflow
  {
    Workflow(Generate, Goto(Evaluate), End, Goto(Generate))
  }

  function AfterRoute(w: Workflow, route: Route): Target
  {
    if route == Accepted then w.onAccepted else w.onRejected
  }

  // ---------------------------------------------------------------- runs

  /** One model call of a run, with the prompt it was sent. */
  datatype Call = Generation(prompt: string) | Evaluation(prompt: string)

  datatype Ending = Finished | Raised(error: Exception) | ScriptExhausted

  /** How a run ended, the state it ended in and the model calls it made, in order. */
  datatype Run = Run(ending: Ending, state: State, calls: seq<Call>)

  function Then(prefix: seq<Call>, r: Run): Run
  {
    Run(r.ending, r.state, prefix + r.calls)
  }

  lemma ThenThen(first: seq<Call>, second: seq<Call>, r: Run)
    ensures Then(first, Then(second, r)) == Then(first + second, r)
  {
  }

  /** The run of the compiled workflow from its generation node in state `s`. */
  function FromGenerate(llm: Option<ChatModel>, evaluator: Option<StructuredModel>, s: State,
                        gens: GeneratorScript, evals: EvaluatorScript): (r: Run)
    ensures r.state.topic == s.topic
    ensures r.ending.Finished? ==> r.state.grade == Some("good") && r.state.prStatement.Some?
    ensures |r.calls| <= 2 * |gens|
    decreases |gens|, 0
  {
    match GenerateRequest(llm, s)
    case Halt(e) => Run(Raised(e), s, [])
    case Ask(p) =>
      if gens == [] then Run(ScriptExhausted, s, [])
      else
        match GenerateResponse(gens[0])
        case Err(e) => Run(Raised(e), s, [Generation(p)])
        case Ok(u) => Then([Generation(p)], FromEvaluate(llm, evaluator, Merge(s, u), gens[1..], evals))
  }

  /** The run of the compiled workflow from its evaluation node in state `s`. */
  function FromEvaluate(llm: Option<ChatModel>, evaluator: Option<StructuredModel>, s: State,
                        gens: GeneratorScript, evals: EvaluatorScript): (r: Run)
    ensures r.state.topic == s.topic
    ensures r.ending.Finished? ==> r.state.grade == Some("good") && r.state.prStatement.Some?
    ensures |r.calls| <= 2 * |gens| + 1
    decreases |gens|, 1
  {
    match EvaluateRequest(evaluator, s)
    case Halt(e) => Run(Raised(e), s, [])
    case Ask(p) =>
      if evals == [] then Run(ScriptExhausted, s, [])
      else
        match EvaluateResponse(evals[0])
        case Err(e) => Run(Raised(e), s, [Evaluation(p)])
        case Ok(u) =>
          var s' := Merge(s, u);
          match RouteStatement(s')
          case Err(e) => Run(Raised(e), s', [Evaluation(p)])
          case Ok(Accepted) => Run(Finished, s', [Evaluation(p)])
          case Ok(RejectedWithFeedback) => Then([Evaluation(p)], FromGenerate(llm, evaluator, s', gens, evals[1..]))
  }

  /** A whole run for `topic`, started from the state that holds only the topic. */
  function RunFor(llm: Option<ChatModel>, evaluator: Option<StructuredModel>, topic: string,
                  gens: GeneratorScript, evals: EvaluatorScript): Run
  {
    FromGenerate(llm, evaluator, InitialState(topic), gens, evals)
  }

  /** The rest of a run that is at `at` in state `s`; at the end, `ending` says how it ended. */
  function Continue(llm: Option<ChatModel>, evaluator: Option<StructuredModel>, at: Target, ending: Ending,
                    s: State, gens: GeneratorScript, evals: EvaluatorScript): Run
  {
    match at
    case End => Run(ending, s, [])
    case Goto(Generate) => FromGenerate(llm, evaluator, s, gens, evals)
    case Goto(Evaluate) => FromEvaluate(llm, evaluator, s, gens, evals)
  }

  // ---------------------------------------------------------------- entry point

  const ReleaseLine := "FOR IMMEDIATE RELEASE"
  const FallbackHead := ReleaseLine + "\n\n        [Company Name] Announces Exciting Development in "
  const FallbackTail := "\n        ..."

  /** The placeholder release returned whenever the workflow cannot produce a statement. */
  function Fallback(topic: string): (text: string)
    ensures |text| >= |FallbackHead| + |topic| && |FallbackHead| >= |ReleaseLine|
    ensures text[..|ReleaseLine|] == ReleaseLine
    ensures text[|FallbackHead|..|FallbackHead| + |topic|] == topic
  {
    FallbackHead + topic + FallbackTail
  }

  /** What the entry point hands back: a text, or nothing yet because the scripts ran out. */
  datatype Answer = Returned(text: string) | Unfinished

  /**
   * The entry point's answer. Nothing escapes it: a missing workflow, any exception of
   * the run and a missing statement in the final state all give the fallback text.
   */
  function StatementFor(built: bool, llm: Option<ChatModel>, evaluator: Option<StructuredModel>, topic: string,
                        gens: GeneratorScript, evals: EvaluatorScript): Answer
  {
    if !built then Returned(Fallback(topic))
    else
      var run := RunFor(llm, evaluator, topic, gens, evals);
      match run.ending
      case Finished => Returned(if run.state.prStatement.Some? then run.state.prStatement.value else Fallback(topic))
      case Raised(_) => Returned(Fallback(topic))
      case ScriptExhausted => Unfinished
  }

  // ---------------------------------------------------------------- the process-wide handles

  /** The module's global handles: the generator, the evaluator and the compiled workflow. */
  class Service {
    var llm: Option<ChatModel>
    var evaluator: Option<StructuredModel>
    var workflow: Option<Workflow>

    ghost predicate Valid()
      reads this
    {
      (evaluator.Some? ==> llm.Some? && evaluator.value == StructuredOutput(llm.value)) &&
      (workflow.Some? ==> workflow.value == CompiledWorkflow())
    }

    /** The state at import: nothing is initialized. */
    constructor ()
      ensures Valid()
      ensures llm.None? && evaluator.None? && workflow.None?
    {
      llm, evaluator, workflow := None, None, None;
    }

    /** Sets both model handles; an absent or empty API key raises and changes nothing. */
    method InitializeLlm(apiKey: Option<string>) returns (result: Outcome<Exception>)
      requires Valid()
      modifies this`llm, this`evaluator
      ensures Valid()
      ensures result.Fail? <==> apiKey.None? || apiKey.value == ""
      ensures result.Fail? ==> result.error == ValueError(ApiKeyMissing) && llm == old(llm) && evaluator == old(evaluator)
      ensures result.Pass? ==> llm == Some(ChatGroq(ModelName)) && evaluator == Some(StructuredOutput(ChatGroq(ModelName)))
    {
      if apiKey.None? || apiKey.value == "" {
        return Fail(ValueError(ApiKeyMissing));
      }
      var model := ChatGroq(ModelName);
      llm := Some(model);
      evaluator := Some(StructuredOutput(model));
      result := Pass;
    }

    /** Compiles the workflow graph. */
    method BuildWorkflow()
      requires Valid()
      modifies this`workflow
      ensures Valid()
      ensures workflow == Some(CompiledWorkflow())
    {
      workflow := Some(CompiledWorkflow());
    }

    /** Sets the handles, then builds the workflow; a failed first step skips the second. */
    method InitializePrGenerator(apiKey: Option<string>) returns (result: Outcome<Exception>)
      requires Valid()
      modifies this
      ensures Valid()
      ensures result.Fail? <==> apiKey.None? || apiKey.value == ""
      ensures result.Fail? ==> unchanged(this)
      ensures result.Pass? ==> llm == Some(ChatGroq(ModelName)) && evaluator == Some(StructuredOutput(ChatGroq(ModelName)))
      ensures result.Pass? ==> workflow == Some(CompiledWorkflow())
    {
      result := InitializeLlm(apiKey);
      if result.Pass? {
        BuildWorkflow();
      }
    }

    /**
     * The generation node inside a run: it asks the generator for a draft and merges it
     * into the state. The run then goes on at the evaluation node, or it has ended.
     */
    method GenerationStep(s: State, gens: GeneratorScript, evals: EvaluatorScript)
      returns (next: State, made: seq<Call>, at: Target, ending: Ending, used: nat)
      requires Valid() && workflow.Some?
      ensures used <= 1 && used <= |gens|
      ensures at == Goto(Evaluate) || at == End
      ensures at.Goto? ==> used == 1
      ensures |made| == used
      ensures FromGenerate(llm, evaluator, s, gens, evals) ==
              Then(made, Continue(llm, evaluator, at, ending, next, gens[used..], evals))
    {
      next, made, at, ending, used := s, [], End, Finished, 0;
      match GenerateRequest(llm, s) {
        case Halt(e) =>
          ending := Raised(e);
        case Ask(p) =>
          if gens == [] {
            ending := ScriptExhausted;
          } else {
            made, used := [Generation(p)], 1;
            match GenerateResponse(gens[0]) {
              case Err(e) =>
                ending := Raised(e);
              case Ok(u) =>
                next, at := Merge(s, u), workflow.value.afterGenerate;
            }
          }
      }
    }

    /**
     * The evaluation node and the routing after it: it asks the evaluator for a decision,
     * merges grade and feedback, and either ends the run or goes back to generation.
     */
    method EvaluationStep(s: State, gens: GeneratorScript, evals: EvaluatorScript)
      returns (next: State, made: seq<Call>, at: Target, ending: Ending, used: nat)
      requires Valid() && workflow.Some?
      ensures used <= 1 && used <= |evals|
      ensures at == Goto(Generate) || at == End
      ensures at.Goto? ==> used == 1
      ensures |made| == used
      ensures FromEvaluate(llm, evaluator, s, gens, evals) ==
              Then(made, Continue(llm, evaluator, at, ending, next, gens, evals[used..]))
    {
      next, made, at, ending, used := s, [], End, Finished, 0;
      match EvaluateRequest(evaluator, s) {
        case Halt(e) =>
          ending := Raised(e);
        case Ask(p) =>
          if evals == [] {
            ending := ScriptExhausted;
          } else {
            made, used := [Evaluation(p)], 1;
            match EvaluateResponse(evals[0]) {
              case Err(e) =>
                ending := Raised(e);
              case Ok(u) =>
                next := Merge(s, u);
                match RouteStatement(next) {
                  case Err(e) =>
                    ending := Raised(e);
                  case Ok(route) =>
                    at := AfterRoute(workflow.value, route);
                }
            }
          }
      }
    }

    /**
     * Runs the compiled workflow for `topic`: from the entry node, each node's update is
     * merged into the state and the graph's edges pick the next node, until the end.
     */
    method Invoke(topic: string, gens: GeneratorScript, evals: EvaluatorScript) returns (run: Run)
      requires Valid() && workflow.Some?
      ensures run == RunFor(llm, evaluator, topic, gens, evals)
    {
      var s := InitialState(topic);
      var calls: seq<Call> := [];
      var at := Goto(workflow.value.entry);
      var ending := Finished;
      var gi, ei := 0, 0;
      ghost var spec := RunFor(llm, evaluator, topic, gens, evals);
      while at.Goto?
        invariant gi <= |gens| && ei <= |evals|
        invariant spec == Then(calls, Continue(llm, evaluator, at, ending, s, gens[gi..], evals[ei..]))
        decreases |gens| - gi + |evals| - ei + (if at.Goto? then 1 else 0)
      {
        ghost var rest := Continue(llm, evaluator, at, ending, s, gens[gi..], evals[ei..]);
        var made, used;
        if at.node == Generate {
          s, made, at, ending, used := GenerationStep(s, gens[gi..], evals[ei..]);
          assert gens[gi..][used..] == gens[gi + used..];
          gi := gi + used;
        } else {
          s, made, at, ending, used := EvaluationStep(s, gens[gi..], evals[ei..]);
          assert evals[ei..][used..] == evals[ei + used..];
          ei := ei + used;
        }
        assert rest == Then(made, Continue(llm, evaluator, at, ending, s, gens[gi..], evals[ei..]));
        ThenThen(calls, made, Continue(llm, evaluator, at, ending, s, gens[gi..], evals[ei..]));
        calls := calls + made;
      }
      run := Run(ending, s, calls);
    }

    /**
     * The public entry point: the statement of an accepted run, or the fallback text
     * when the workflow is not built or the run raises.
     */
    method GeneratePrStatement(topic: string, gens: GeneratorScript, evals: EvaluatorScript) returns (answer: Answer)
      requires Valid()
      ensures answer == StatementFor(workflow.Some?, llm, evaluator, topic, gens, evals)
    {
      if workflow.None? {
        return Returned(Fallback(topic));
      }
      var run := Invoke(topic, gens, evals);
      match run.ending
      case Finished =>
        match run.state.prStatement {
          case Some(text) => answer := Returned(text);
          case None => answer := Returned(Fallback(topic));
        }
      case Raised(_) =>
        answer := Returned(Fallback(topic));
      case ScriptExhausted =>
        answer := Unfinished;
    }
  }
}
