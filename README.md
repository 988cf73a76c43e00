# PR statement generator: a Dafny model of the generate / evaluate loop

The service writes a press-release ("PR") statement for a topic. A language model drafts
a statement. A second, structured-output call grades the draft "good" or "needs improvement"
and gives feedback. Drafting starts again with that feedback until a draft is graded "good".
The public entry point never raises: any failure, and a workflow that was never built, give a
placeholder release that names the topic.

This project models that core:

- `models.dfy` (module `Models`): the request, response, evaluator-decision and health schemas.
  Each is a constructor that either builds the value or lists the failing fields. The module
  also holds the shape of the workflow state and the dump of each schema.
- `pr_generator.dfy` (module `PrGenerator`):
  - the two nodes, split at their model call (`GenerateRequest`/`GenerateResponse`, `EvaluateRequest`/`EvaluateResponse`);
  - the prompts, the routing function, the wiring of the compiled graph (`CompiledWorkflow`) and the state merge;
  - the recursive specification of a run (`FromGenerate`/`FromEvaluate`) and of the entry point's answer (`StatementFor`);
  - class `Service`, whose fields are the module's global handles. Its `Invoke` runs the graph with a `while` loop, one node per iteration (`GenerationStep`, `EvaluationStep`, each proved against the specification of the run from that node), and is proved equal to the specification.
- `pr_generator_properties.dfy` (module `PrGeneratorProperties`): lemmas about whole runs.
  They cover call order, feedback flow, the acceptance criterion, failure and fallback.
- `wrappers.dfy`: `Option`, `Result` and `Outcome`.

The two model calls are oracles. A run is given a finite script of generator replies and
another of evaluator replies. Each call consumes the next reply, which is either a value or an
exception. An evaluator reply holds raw field values, and the node validates them against the
decision schema, as the structured-output call does. The code sets no iteration cap, and the graph
library's own step limit is not modelled. Here,
running out of script ends a run with `ScriptExhausted`, and the entry point then answers
`Unfinished`. This is a modelling device that stands for "the real run would keep calling the
model". It is not behaviour of the source.

Three facts about the source that the model keeps:

- `generate_pr_statement` also catches its own not-initialized error and returns the fallback text
  (`services/pr_generator.py:162-180`).
- Routing tests only `grade == "good"`. A grade outside the two literals is rejected when the decision
  is validated against its schema, so the run raises.
- An empty draft graded "good" is returned as it is.

## Model

| member | source | states |
|---|---|---|
| `Models.InitialState` | services/pr_generator.py:169 | a run starts from a state that holds the topic and no statement, grade or feedback |
| `PrGenerator.GenerateRequest` | services/pr_generator.py:83-100 | the generation node raises the not-initialized RuntimeError exactly when the generator handle is unset; otherwise it sends the generation prompt of the state |
| `PrGenerator.GenerateResponse` | services/pr_generator.py:100-107 | the node's update carries exactly the generator's output as `pr_statement`; an exception from the call propagates unchanged |
| `PrGenerator.EvaluateRequest` | services/pr_generator.py:109-122 | the evaluation node raises the not-initialized RuntimeError when the evaluator handle is unset, then a KeyError when no statement is present; otherwise its prompt embeds the current statement, which reads back exactly |
| `Models.NewRequest` | models.py:9-11 | a request is built iff the topic is a string of 1 to 500 characters, and it keeps that topic; otherwise every error is on `topic` |
| `Models.TopicBoundaries` | tests/test_models.py:21-57 | "" fails with a too-short error and a 501-character topic with a too-long error; "A" and any 500-character topic pass; a missing or non-string topic fails |
| `Models.NewResponse` | models.py:14-18 | a response is built iff `pr_statement` is a string, `status` is "success" or "error" and `message` is absent or a string; an absent message becomes ""; a missing `pr_statement` or `status` is reported as missing |
| `Models.ParseGrade` | models.py:31-33 | exactly the two literals "good" and "needs improvement" parse, each to the grade that spells it |
| `Models.NewFeedback` | models.py:29-36 | a decision is built iff `grade` is one of the two literals and `feedback` is a string; a missing field is reported as missing |
| `Models.NewHealth` | models.py:39-42 | a health response is built iff both `status` and `message` are strings |
| `Models.RequestDumpRoundTrip` | models.py:9-11 | a valid request dumps to exactly `{"topic"}`, and validating the dump gives the same request |
| `Models.ResponseDumpRoundTrip` | models.py:14-18 | a response dumps to exactly its three fields, and validating the dump gives it back |
| `Models.FeedbackDumpRoundTrip` | models.py:29-36 | a decision dumps to exactly `grade` and `feedback`, and validating the dump gives it back |
| `Models.HealthDumpRoundTrip` | models.py:39-42 | a health response dumps to exactly its two fields, and validating the dump gives it back |
| `PrGenerator.Prompt` | services/pr_generator.py:91-100 | the generation prompt starts with the base prompt, which holds the topic at a fixed place; it is longer than the base prompt iff the feedback is present and non-empty, and the feedback read back from it is then exactly that feedback (otherwise none) |
| `PrGenerator.EvaluationPrompt` | services/pr_generator.py:117-122 | the evaluation prompt embeds the statement at a fixed place, and reading it back gives the statement |
| `PrGenerator.EvaluateResponse` | services/pr_generator.py:124-127 | the evaluation node produces an update iff the reply is a valid decision, and that update writes exactly the decision's grade (as its literal) and feedback; a raised reply propagates unchanged |
| `PrGenerator.RouteStatement` | services/pr_generator.py:133-138 | the route is "Accepted" exactly when the grade is "good"; any other grade goes back to generation; a missing grade raises |
| `PrGenerator.FromGenerate` | services/pr_generator.py:67-73 | a run keeps the topic; an accepted run ends with grade "good" and a statement; a run makes at most two calls per generator reply |
| `PrGenerator.FromEvaluate` | services/pr_generator.py:109-138 | the same invariants, for a run that starts at the evaluation node |
| `PrGenerator.Fallback` | services/pr_generator.py:173-180 | the fallback text begins "FOR IMMEDIATE RELEASE" and contains the topic |
| `PrGenerator.Service.constructor` | services/pr_generator.py:25-27 | at import no handle and no workflow is set |
| `PrGenerator.Service.InitializeLlm` | services/pr_generator.py:30-52 | an absent or empty API key raises a ValueError and changes nothing; otherwise the generator is bound to the model name and the evaluator is derived from it; the workflow is untouched |
| `PrGenerator.Service.BuildWorkflow` | services/pr_generator.py:54-81 | the workflow becomes the compiled graph: start to generation, generation to evaluation, "Accepted" to the end, "Rejected + Feedback" to generation |
| `PrGenerator.Service.InitializePrGenerator` | services/pr_generator.py:141-144 | handles first, then the workflow; a failed first step raises and leaves everything unchanged |
| `PrGenerator.Service.GenerationStep` | services/pr_generator.py:83-107 | one pass through the generation node, edge included: the run from there equals this step's calls followed by the run from where the `Generate_PR_Statement → Evaluate_PR_Statement` edge leads, or the run has ended; the calls made are exactly the script entries used; when the graph moves on, one generator reply has been used, and a reply that raises is also used and ends the run |
| `PrGenerator.Service.EvaluationStep` | services/pr_generator.py:109-138 | one pass through the evaluation node and its conditional edge: the run from there equals this step's calls followed by the run back at generation on rejection, or the run has ended (accepted or raised); the calls made are exactly the script entries used, and a reply that raises is used and ends the run |
| `PrGenerator.Service.Invoke` | services/pr_generator.py:60-76 | running the compiled graph from `{"topic": topic}`, merging each node's update and following its edges, gives exactly the specified run |
| `PrGenerator.Service.GeneratePrStatement` | services/pr_generator.py:147-180 | the entry point's answer is the specified one: never an exception, the fallback when the workflow is missing or the run raises |
| `PrGeneratorProperties.GenerationChangesOnlyStatement` | services/pr_generator.py:83-103 | a generation step sets the statement to the generator's output and leaves topic, grade and feedback as they were |
| `PrGeneratorProperties.EvaluationChangesOnlyVerdict` | services/pr_generator.py:109-127 | an evaluation step sets grade and feedback from the decision and leaves topic and statement as they were |
| `PrGeneratorProperties.RouteFollowsVerdict` | services/pr_generator.py:124-138 | after an evaluation step the run ends exactly when the decision's grade is Good |
| `PrGeneratorProperties.RejectedRound` | services/pr_generator.py:67-73 | a round graded "needs improvement" makes one generation and one evaluation, then continues from generation with the new statement and that round's feedback |
| `PrGeneratorProperties.CallLog` | services/pr_generator.py:67-127 | calls alternate, a generation first; evaluation k embeds the output of generation k; generation k+1 carries the feedback of evaluation k, which asked for improvement; the first generation sees only the starting state's feedback |
| `PrGeneratorProperties.RunStartsWithPlainGeneration` | services/pr_generator.py:169 | a run for a topic starts with a generation whose prompt is the base prompt, without feedback |
| `PrGeneratorProperties.AcceptedRun` | services/pr_generator.py:67-73 | an accepted run made n generations and n evaluations; all verdicts before the last asked for improvement, the last is Good, and the final statement is the output of the n-th generation |
| `PrGeneratorProperties.FailureIsLastCall` | services/pr_generator.py:83-131 | with both handles set, a run that raises stops at its last call, which failed, and raises exactly that failure; a generation that raises is never followed by an evaluation |
| `PrGeneratorProperties.FirstVerdictGood` | services/pr_generator.py:169-172 | if the first verdict is Good, the run makes exactly one generation and one evaluation and ends holding the first draft |
| `PrGeneratorProperties.MissingGeneratorRaises` | services/pr_generator.py:88-89 | without the generator handle the run raises the not-initialized error before any call |
| `PrGeneratorProperties.MissingEvaluatorRaises` | services/pr_generator.py:114-115 | without the evaluator handle the run raises the not-initialized error right after the first generation |
| `PrGeneratorProperties.AnswerOfEntryPoint` | services/pr_generator.py:160-180 | an accepted run returns the draft of the generation just before the first Good verdict; a missing workflow or a raised run returns the fallback; there is no answer only when the scripts run out |
| `PrGeneratorProperties.AcceptedFirstDraft` | services/pr_generator.py:162-172 | topic "AI-powered chatbot launch", draft "Statement A" graded good: the answer is "Statement A" |
| `PrGeneratorProperties.AcceptedSecondDraft` | services/pr_generator.py:91-100 | topic "X": "Draft" is graded "needs improvement" with "add benefits"; the second prompt carries "add benefits", and the answer is "Final" |

## Left out

- The language-model calls are not modelled. They are network calls with nondeterministic output, so they are scripted replies here.
- The code sets no iteration cap. The graph library's own default step limit, which raises when it is reached (and which the `except Exception` at services/pr_generator.py:173 would turn into the fallback), is not modelled. A run whose scripts run out ends with `ScriptExhausted`, and the entry point answers `Unfinished`. This is a device of the model, not behaviour of the source.
- The prompt wording is condensed. The model keeps where the topic, the statement and the feedback suffix go, and the suffix's lead-in.
- The graph library is not modelled: its compilation, its asynchronous invocation and its general dictionary merge. Only the effect is kept, a merge of the keys each node returns. `build_workflow` and the construction of the model handles are modelled as never raising.
- Environment loading is a parameter: the API key is an argument to `InitializeLlm`. Writing the key back to the environment is left out.
- Logging is left out. So are `main.py` (HTTP routing, status codes, CORS, start-up) and JSON serialisation of the schemas.
- Validation errors are modelled by field and kind, not by message text. Non-string values are one case, `NonStr`, and they are always rejected. Pydantic's lax mode also accepts `bytes` for a `str` field; the model does not, because a request body that arrives as JSON cannot carry bytes.
- Lengths count characters of a Dafny string. Python counts code points; the model does no Unicode handling.
