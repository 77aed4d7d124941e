/** `validationPipe(schema)`: the middleware that parses a request's body,
    query and params with one schema before the controller runs. */
module ValidationPipe {
  import opened Wrappers
  import opened Text
  import opened Schema
  import opened Responses
  import opened Errors

  /** How `schema.parse` ended: the parsed value, a `ZodError` with its
      issues, or some other exception. */
  datatype ParseOutcome<+T> = Parsed(value: T) | ZodFailure(issues: seq<Issue>) | OtherFailure(message: string)

  /** Go on to the next middleware with the parsed input, throw to the
      error handler, or answer directly. */
  datatype PipeDecision<+T> = Next(value: T) | Throw(error: AppError) | Respond(response: Response)

  /** The pipe's three branches. */
  function Pipe<T>(o: ParseOutcome<T>): (d: PipeDecision<T>)
    ensures d.Next? <==> o.Parsed?
    ensures d.Next? ==> d.value == o.value
    ensures d.Throw? <==> o.ZodFailure?
    ensures d.Throw? ==> d.error.BadRequest? && d.error.message == Join(Messages(o.issues), ", ")
    ensures d.Respond? ==> d.response == Response(InternalServerStatus, MessageBody(HiddenMessage))
  {
    match o
    case Parsed(v) => Next(v)
    case ZodFailure(issues) => Throw(BadRequest(ErrorText(issues)))
    case OtherFailure(_) => Respond(Response(InternalServerStatus, MessageBody(HiddenMessage)))
  }

  /** A rejected input reaches the client as 400 with every issue's
      message, in order, separated by ", "; a lone issue shows exactly its
      message. */
  lemma RejectionAnswers400<T>(issues: seq<Issue>)
    ensures var r := ErrorHandler(Pipe<T>(ZodFailure(issues)).error);
            r.status == BadRequestStatus && r.body == MessageBody(ErrorText(issues))
    ensures |issues| == 1 ==> ErrorHandler(Pipe<T>(ZodFailure(issues)).error).body == MessageBody(issues[0].message)
    ensures |issues| >= 2 ==> ErrorText(issues) == issues[0].message + ", " + ErrorText(issues[1..])
  {
    if |issues| == 1 {
      assert issues == [issues[0]];
      ErrorTextSingle(issues[0]);
    }
    if |issues| >= 2 {
      assert issues == [issues[0]] + issues[1..];
      ErrorTextCons(issues[0], issues[1..]);
    }
  }
}
