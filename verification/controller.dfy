/** The five controllers: call the service, send its envelope with HTTP
    200, and hand any thrown error to the next error handler. */
module Controller {
  import opened Wrappers
  import opened ProductFields
  import opened Products
  import opened CreateProductDto
  import opened UpdateProductDto
  import opened GetProductsDto
  import opened Persistence
  import opened Responses
  import opened Errors
  import opened Service

  /** A response sent, or an error passed to `next`. */
  datatype HandlerOutcome = Send(response: Response) | Forward(error: AppError)

  /** What a controller did, with the table after it. */
  datatype Handled = Handled(outcome: HandlerOutcome, store: Store)

  /** The `try { res.status(200).json(data) } catch (e) { next(e) }` shell
      every controller shares. */
  function Reply(r: Result<Envelope, AppError>): (o: HandlerOutcome)
    ensures o.Send? <==> r.Ok?
    ensures o.Send? ==> o.response.status == OkStatus && o.response.body == EnvelopeBody(r.value)
    ensures o.Forward? ==> o.error == r.error
  {
    match r
    case Ok(e) => Send(Response(OkStatus, EnvelopeBody(e)))
    case Err(e) => Forward(e)
  }

  /** The same shell around an operation that writes: the table changes
      only when the operation succeeds. */
  function ReplyWritten(store: Store, r: Result<Written, AppError>): (h: Handled)
    ensures h.outcome.Send? <==> r.Ok?
    ensures r.Ok? ==> h == Handled(Send(Response(OkStatus, EnvelopeBody(r.value.envelope))), r.value.store)
    ensures r.Err? ==> h == Handled(Forward(r.error), store)
  {
    match r
    case Ok(w) => Handled(Reply(Ok(w.envelope)), w.store)
    case Err(e) => Handled(Forward(e), store)
  }

  function CreateProductHandler(store: Store, input: CreateInput, freshId: Id, now: Timestamp): (h: Handled)
    ensures h.outcome.Forward? <==> freshId in store
    ensures h.outcome.Forward? ==> h.store == store
  {
    ReplyWritten(store, CreateProduct(store, input, freshId, now))
  }

  function GetProductsHandler(store: Store, scan: seq<Id>, q: ValidQuery): (h: Handled)
    requires Enumerates(scan, store)
    ensures h.store == store && h.outcome.Send?
  {
    Handled(Reply(Ok(GetProducts(AsWritten, store, scan, q))), store)
  }

  function GetProductHandler(store: Store, id: Id): (h: Handled)
    ensures h.store == store
    ensures h.outcome.Forward? <==> id !in store
  {
    Handled(Reply(GetProduct(store, id)), store)
  }

  function UpdateProductHandler(store: Store, request: UpdateRequest): (h: Handled)
    ensures h.outcome.Forward? <==> request.id !in store
    ensures h.outcome.Forward? ==> h.store == store
  {
    ReplyWritten(store, UpdateProduct(store, request.id, request.patch))
  }

  function DeleteProductHandler(store: Store, id: Id): (h: Handled)
    ensures h.outcome.Forward? <==> id !in store
    ensures h.outcome.Forward? ==> h.store == store
  {
    ReplyWritten(store, DeleteProduct(store, id))
  }

  /** A successful create answers HTTP 200, while its envelope says 201. */
  lemma CreateAnswers200With201Envelope(store: Store, input: CreateInput, freshId: Id, now: Timestamp)
    requires freshId !in store
    ensures var r := CreateProductHandler(store, input, freshId, now).outcome.response;
            r.status == OkStatus && r.body.envelope.status == CreatedStatus
  {
  }
}
