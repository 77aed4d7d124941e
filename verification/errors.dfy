/** The error classes the service throws and the final error handler that
    turns any thrown error into a response. */
module Errors {
  import opened Responses

  /** A thrown error: the three `BaseError` subclasses, or anything else
      (a database or runtime error), which carries its own message. */
  datatype AppError =
    | BadRequest(message: string)
    | NotFound(message: string)
    | Internal(message: string)
    | Other(message: string)
  {
    /** Whether this is one of the application's own error classes. */
    predicate IsBaseError() {
      !Other?
    }
  }

  const DefaultInternalMessage := "!Oops, something went wrong"
  const HiddenMessage := "Something went wrong"

  /** `new InternalServerException()` without a message. */
  function InternalServerException(message: string := DefaultInternalMessage): (e: AppError)
    ensures e.Internal? && e.message == message
  {
    Internal(message)
  }

  /** The `httpCode` a `BaseError` subclass carries. */
  function HttpCode(e: AppError): (code: nat)
    requires e.IsBaseError()
    ensures code == BadRequestStatus <==> e.BadRequest?
    ensures code == NotFoundStatus <==> e.NotFound?
    ensures code == InternalServerStatus <==> e.Internal?
  {
    match e
    case BadRequest(_) => BadRequestStatus
    case NotFound(_) => NotFoundStatus
    case Internal(_) => InternalServerStatus
  }

  /** `errorHandler`: an application error answers with its own code and
      message; any other error answers 500 with a fixed message. */
  function ErrorHandler(e: AppError): (r: Response)
    ensures r.body.MessageBody?
    ensures e.IsBaseError() ==> r.status == HttpCode(e) && r.body.message == e.message
    ensures e.Other? ==> r.status == InternalServerStatus && r.body.message == HiddenMessage
  {
    if e.IsBaseError() then Response(HttpCode(e), MessageBody(e.message))
    else Response(InternalServerStatus, MessageBody(HiddenMessage))
  }

  /** The status alone tells which class was thrown, except that 500 is
      shared by `InternalServerException` and foreign errors. */
  lemma StatusIdentifiesClass(e: AppError)
    ensures ErrorHandler(e).status == BadRequestStatus <==> e.BadRequest?
    ensures ErrorHandler(e).status == NotFoundStatus <==> e.NotFound?
    ensures ErrorHandler(e).status == InternalServerStatus <==> e.Internal? || e.Other?
    ensures ErrorHandler(e).status in {BadRequestStatus, NotFoundStatus, InternalServerStatus}
  {
  }

  /** A foreign error's message never reaches the client: all foreign
      errors get the same response. */
  lemma ForeignMessagesHidden(e1: AppError, e2: AppError)
    requires e1.Other? && e2.Other?
    ensures ErrorHandler(e1) == ErrorHandler(e2)
  {
  }
}
