/**
 * The request, response and evaluator schemas of the service, and the shape of the
 * workflow state. Each schema is a constructor that either builds a value or reports
 * the failing fields, as a validating model does.
 */
module Models {
  import opened Wrappers

  /** A keyword argument as handed to a schema constructor. */
  datatype Field =
    | Absent             // the argument was not supplied
    | Str(s: string)     // a string
    | NonStr             // a value of another type: a number, None, ...

  datatype ErrorKind = Missing | StringType | TooShort | TooLong | LiteralError

  /** One validation failure, located by field name. */
  datatype FieldError = FieldError(loc: string, kind: ErrorKind)

  const MinTopicLength: nat := 1
  const MaxTopicLength: nat := 500

  /** The errors of a required field of type `str`. */
  function StringErrors(loc: string, f: Field): seq<FieldError>
  {
    match f
    case Absent => [FieldError(loc, Missing)]
    case NonStr => [FieldError(loc, StringType)]
    case Str(_) => []
  }

  /** The errors of an optional field of type `str`; an absent one takes its default. */
  function OptionalStringErrors(loc: string, f: Field): seq<FieldError>
  {
    if f.NonStr? then [FieldError(loc, StringType)] else []
  }

  /** The errors of a required field whose type is a literal drawn from `allowed`. */
  function LiteralErrors(loc: string, f: Field, allowed: set<string>): seq<FieldError>
  {
    match f
    case Absent => [FieldError(loc, Missing)]
    case Str(v) => if v in allowed then [] else [FieldError(loc, LiteralError)]
    case NonStr => [FieldError(loc, LiteralError)]
  }

  // ---------------------------------------------------------------- request

  datatype PrStatementRequest = PrStatementRequest(topic: string)
  {
    function Dump(): map<string, string>
    {
      map["topic" := topic]
    }
  }

  predicate ValidTopic(topic: string)
  {
    MinTopicLength <= |topic| <= MaxTopicLength
  }

  function TopicErrors(f: Field): seq<FieldError>
  {
    match f
    case Str(t) =>
      if |t| < MinTopicLength then [FieldError("topic", TooShort)]
      else if |t| > MaxTopicLength then [FieldError("topic", TooLong)]
      else []
    case _ => StringErrors("topic", f)
  }

  /** Builds a request: the topic is a required string of 1 to 500 characters. */
  function NewRequest(topic: Field): (r: Result<PrStatementRequest, seq<FieldError>>)
    ensures r.Ok? <==> topic.Str? && ValidTopic(topic.s)
    ensures r.Ok? ==> r.value.topic == topic.s
    ensures r.Err? ==> r.error != [] && forall e <- r.error :: e.loc == "topic"
  {
    var errors := TopicErrors(topic);
    if errors == [] then Ok(PrStatementRequest(topic.s)) else Err(errors)
  }

  // ---------------------------------------------------------------- response

  const Statuses: set<string> := {"success", "error"}

  datatype PrStatementResponse = PrStatementResponse(prStatement: string, status: string, message: string)
  {
    function Dump(): map<string, string>
    {
      map["pr_statement" := prStatement, "status" := status, "message" := message]
    }
  }

  /**
   * Builds a response: `pr_statement` is a required string, `status` is "success" or
   * "error", and `message` is an optional string that defaults to "".
   */
  function NewResponse(prStatement: Field, status: Field, message: Field): (r: Result<PrStatementResponse, seq<FieldError>>)
    ensures r.Ok? <==> prStatement.Str? && status.Str? && (status.s == "success" || status.s == "error") && !message.NonStr?
    ensures r.Ok? ==> r.value.prStatement == prStatement.s && r.value.status == status.s
    ensures r.Ok? ==> r.value.message == (if message.Str? then message.s else "")
    ensures prStatement.Absent? ==> r.Err? && FieldError("pr_statement", Missing) in r.error
    ensures status.Absent? ==> r.Err? && FieldError("status", Missing) in r.error
  {
    var errors := StringErrors("pr_statement", prStatement)
      + LiteralErrors("status", status, Statuses)
      + OptionalStringErrors("message", message);
    if errors == [] then
      Ok(PrStatementResponse(prStatement.s, status.s, if message.Str? then message.s else ""))
    else
      Err(errors)
  }

  // ---------------------------------------------------------------- evaluator schema

  datatype Grade = Good | NeedsImprovement

  /** The literal by which a grade is spelled on the wire and in the workflow state. */
  function GradeText(g: Grade): string
  {
    match g
    case Good => "good"
    case NeedsImprovement => "needs improvement"
  }

  const GradeTexts: set<string> := {"good", "needs improvement"}

  function ParseGrade(text: string): (g: Option<Grade>)
    ensures g.Some? <==> text in GradeTexts
    ensures g.Some? ==> GradeText(g.value) == text
  {
    if text == "good" then Some(Good)
    else if text == "needs improvement" then Some(NeedsImprovement)
    else None
  }

  /** The evaluator's structured decision. */
  datatype Feedback = Feedback(grade: Grade, feedback: string)
  {
    function Dump(): map<string, string>
    {
      map["grade" := GradeText(grade), "feedback" := feedback]
    }
  }

  /** Builds a decision: `grade` is one of the two literals and `feedback` a required string. */
  function NewFeedback(grade: Field, feedback: Field): (r: Result<Feedback, seq<FieldError>>)
    ensures r.Ok? <==> grade.Str? && grade.s in GradeTexts && feedback.Str?
    ensures r.Ok? ==> GradeText(r.value.grade) == grade.s && r.value.feedback == feedback.s
    ensures grade.Absent? ==> r.Err? && FieldError("grade", Missing) in r.error
    ensures feedback.Absent? ==> r.Err? && FieldError("feedback", Missing) in r.error
  {
    var errors := LiteralErrors("grade", grade, GradeTexts) + StringErrors("feedback", feedback);
    if errors == [] then Ok(Feedback(ParseGrade(grade.s).value, feedback.s)) else Err(errors)
  }

  // ---------------------------------------------------------------- health

  datatype HealthResponse = HealthResponse(status: string, message: string)
  {
    function Dump(): map<string, string>
    {
      map["status" := status, "message" := message]
    }
  }

  /** Builds a health response: both fields are required strings. */
  function NewHealth(status: Field, message: Field): (r: Result<HealthResponse, seq<FieldError>>)
    ensures r.Ok? <==> status.Str? && message.Str?
    ensures r.Ok? ==> r.value.status == status.s && r.value.message == message.s
    ensures status.Absent? ==> r.Err? && FieldError("status", Missing) in r.error
    ensures message.Absent? ==> r.Err? && FieldError("message", Missing) in r.error
  {
    var errors := StringErrors("status", status) + StringErrors("message", message);
    if errors == [] then Ok(HealthResponse(status.s, message.s)) else Err(errors)
  }

  // ---------------------------------------------------------------- workflow state

  /**
   * The state threaded through one workflow run. The run starts from a state holding
   * only the topic, so the other keys may be absent.
   */
  datatype State = State(topic: string, prStatement: Option<string>, grade: Option<string>, feedback: Option<string>)

  /** The state a run starts from: only the topic is set. */
  function InitialState(topic: string): (s: State)
    ensures s.topic == topic
    ensures s.prStatement.None? && s.grade.None? && s.feedback.None?
  {
    State(topic, None, None, None)
  }

  // ---------------------------------------------------------------- dump / reload

  /** Dumping a valid request and validating the dump again gives the same request. */
  lemma RequestDumpRoundTrip(r: PrStatementRequest)
    requires ValidTopic(r.topic)
    ensures r.Dump().Keys == {"topic"}
    ensures NewRequest(Str(r.Dump()["topic"])) == Ok(r)
  {
  }

  lemma ResponseDumpRoundTrip(r: PrStatementResponse)
    requires r.status in Statuses
    ensures r.Dump().Keys == {"pr_statement", "status", "message"}
    ensures var d := r.Dump();
      NewResponse(Str(d["pr_statement"]), Str(d["status"]), Str(d["message"])) == Ok(r)
  {
  }

  lemma FeedbackDumpRoundTrip(f: Feedback)
    ensures f.Dump().Keys == {"grade", "feedback"}
    ensures var d := f.Dump(); NewFeedback(Str(d["grade"]), Str(d["feedback"])) == Ok(f)
  {
    assert ParseGrade(GradeText(f.grade)) == Some(f.grade);
  }

  lemma HealthDumpRoundTrip(h: HealthResponse)
    ensures h.Dump().Keys == {"status", "message"}
    ensures var d := h.Dump(); NewHealth(Str(d["status"]), Str(d["message"])) == Ok(h)
  {
  }

  /** The boundary cases of the topic length. */
  lemma TopicBoundaries()
    ensures NewRequest(Str("")) == Err([FieldError("topic", TooShort)])
    ensures NewRequest(Str("A")) == Ok(PrStatementRequest("A"))
    ensures forall t: string :: |t| == MaxTopicLength ==> NewRequest(Str(t)) == Ok(PrStatementRequest(t))
    ensures forall t: string :: |t| == MaxTopicLength + 1 ==> NewRequest(Str(t)) == Err([FieldError("topic", TooLong)])
    ensures NewRequest(Absent) == Err([FieldError("topic", Missing)])
    ensures NewRequest(NonStr).Err?
  {
  }
}
