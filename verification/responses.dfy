/** HTTP status codes and the `{status, message, data}` envelope every
    service operation returns. */
module Responses {
  import opened Products

  const OkStatus := 200
  const CreatedStatus := 201
  const BadRequestStatus := 400
  const UnauthorizedStatus := 401
  const NotFoundStatus := 404
  const InternalServerStatus := 500

  /** The `data` object of a product listing. */
  datatype Listing = Listing(
    products: seq<Product>,
    count: nat,
    page: nat,
    pageCount: nat,
    hasPreviousPage: bool,
    hasNextPage: bool)

  /** What an envelope carries: `null`, one product, or a listing. */
  datatype Data = NoData | One(product: Product) | Page(listing: Listing)

  datatype Envelope = Envelope(status: nat, message: string, data: Data)

  /** `responseFormat(status, message, data = null)`. */
  function ResponseFormat(status: nat, message: string, data: Data := NoData): (e: Envelope)
    ensures e.status == status && e.message == message && e.data == data
  {
    Envelope(status, message, data)
  }

  /** A response body: either `{message}` or an envelope. */
  datatype Body = MessageBody(message: string) | EnvelopeBody(envelope: Envelope)

  datatype Response = Response(status: nat, body: Body)
}
