/** The product router: which middleware runs, in which order, for each
    method and path, and the whole request pipeline from the
    Authorization check to the final error handler. */
module Router {
  import opened Wrappers
  import opened Schema
  import opened ProductFields
  import opened Products
  import opened GetProductDto
  import opened CreateProductDto
  import opened UpdateProductDto
  import opened GetProductsDto
  import opened Persistence
  import opened Responses
  import opened Errors
  import opened Service
  import opened BasicAuth
  import opened ValidationPipe
  import opened Controller

  datatype Method = Post | Get | Patch | Delete

  /** A request to the product router: the method, the `:id` path segment
      when the path has one, the Authorization header, the JSON body and
      the query string. */
  datatype Request = Request(
    verb: Method,
    pathId: Option<string>,
    authorization: Option<string>,
    body: map<string, Value>,
    query: map<string, Value>)

  /** `req.params`: `{id}` on `/:id`, empty on the collection path. */
  function Params(req: Request): (params: map<string, Value>)
    ensures "id" in params <==> req.pathId.Some?
    ensures req.pathId.Some? ==> params["id"] == Str(req.pathId.value)
  {
    if req.pathId.Some? then map["id" := Str(req.pathId.value)] else map[]
  }

  datatype SchemaName = CreateProductSchema | GetProductsSchema | GetProductSchema | UpdateProductSchema

  datatype Action = CreateProductAction | GetProductsAction | GetProductAction | UpdateProductAction | DeleteProductAction

  datatype Middleware = Authenticate | Validate(schema: SchemaName) | Handle(action: Action)

  /** A route: method, whether the path is `/:id`, and its middleware. */
  datatype Route = Route(verb: Method, withId: bool, chain: seq<Middleware>)

  const CreateChain := [Authenticate, Validate(CreateProductSchema), Handle(CreateProductAction)]
  const ListChain := [Validate(GetProductsSchema), Handle(GetProductsAction)]
  const ReadChain := [Validate(GetProductSchema), Handle(GetProductAction)]
  const UpdateChain := [Authenticate, Validate(UpdateProductSchema), Handle(UpdateProductAction)]
  const DeleteChain := [Authenticate, Validate(GetProductSchema), Handle(DeleteProductAction)]

  /** The product router's table, in registration order. */
  const Routes: seq<Route> := [
    Route(Post, false, CreateChain),
    Route(Get, false, ListChain),
    Route(Get, true, ReadChain),
    Route(Method.Patch, true, UpdateChain),
    Route(Delete, true, DeleteChain)
  ]

  /** The position of the first route that matches, as Express tries
      them in order. */
  function FindRoute(routes: seq<Route>, verb: Method, withId: bool): (r: Option<nat>)
    ensures r.Some? ==> r.value < |routes| && routes[r.value].verb == verb && routes[r.value].withId == withId
    ensures r.Some? ==> forall i :: 0 <= i < r.value ==> routes[i].verb != verb || routes[i].withId != withId
    ensures r.None? ==> forall i :: 0 <= i < |routes| ==> routes[i].verb != verb || routes[i].withId != withId
  {
    if routes == [] then None
    else if routes[0].verb == verb && routes[0].withId == withId then Some(0)
    else match FindRoute(routes[1..], verb, withId)
      case None =>
        assert forall i :: 1 <= i < |routes| ==> routes[i] == routes[1..][i - 1];
        None
      case Some(i) =>
        assert forall k :: 1 <= k <= i ==> routes[k] == routes[1..][k - 1];
        Some(i + 1)
  }

  /** Every route ends with its controller, and the routes that write
      start with the Authorization check while the reads have none. */
  lemma RouteTableShape()
    ensures forall i :: 0 <= i < |Routes| ==> |Routes[i].chain| >= 2 && Routes[i].chain[|Routes[i].chain| - 1].Handle?
    ensures forall i :: 0 <= i < |Routes| ==> (Routes[i].verb != Get <==> Routes[i].chain[0] == Authenticate)
    ensures forall i :: 0 <= i < |Routes| ==> Routes[i].chain[|Routes[i].chain| - 2].Validate?
    ensures forall i :: 0 <= i < |Routes| ==> Authenticate !in Routes[i].chain[1..]
  {
  }

  /** The reply of the catch-all middleware for a path no route serves. */
  const RouteMissing := "\U{1F6A8} Route does not exist \U{1F6E0}"

  /** What the validation middleware hands on to the controller. */
  datatype Validated =
    | Unvalidated
    | CreateBody(input: CreateInput)
    | ListParams(query: ValidQuery)
    | IdParam(id: Id)
    | UpdateParams(request: UpdateRequest)

  /** `CreateProductSchema.parse`. */
  function ParseCreate(req: Request): (o: ParseOutcome<Validated>)
    ensures o.Parsed? <==> ValidateCreate(AsWritten, req.body).Ok?
    ensures o.Parsed? ==> o.value == CreateBody(ValidateCreate(AsWritten, req.body).value)
    ensures !o.Parsed? ==> o == ZodFailure(ValidateCreate(AsWritten, req.body).error)
  {
    match ValidateCreate(AsWritten, req.body)
    case Ok(input) => Parsed(CreateBody(input))
    case Err(issues) => ZodFailure(issues)
  }

  /** `GetProductsSchema.parse`. */
  function ParseList(req: Request): (o: ParseOutcome<Validated>)
    ensures o.Parsed? <==> ValidateListQuery(req.query).Ok?
    ensures o.Parsed? ==> o.value == ListParams(ValidateListQuery(req.query).value)
    ensures !o.Parsed? ==> o == ZodFailure(ValidateListQuery(req.query).error)
  {
    match ValidateListQuery(req.query)
    case Ok(q) => Parsed(ListParams(q))
    case Err(issues) => ZodFailure(issues)
  }

  /** `GetProductSchema.parse`. */
  function ParseShow(req: Request): (o: ParseOutcome<Validated>)
    ensures o.Parsed? <==> ValidateGetProduct(Params(req)).Ok?
    ensures o.Parsed? ==> o.value == IdParam(ValidateGetProduct(Params(req)).value)
    ensures !o.Parsed? ==> o == ZodFailure(ValidateGetProduct(Params(req)).error)
  {
    match ValidateGetProduct(Params(req))
    case Ok(id) => Parsed(IdParam(id))
    case Err(issues) => ZodFailure(issues)
  }

  /** `UpdateProductSchema.parse`. */
  function ParseUpdate(req: Request): (o: ParseOutcome<Validated>)
    ensures o.Parsed? <==> ValidateUpdate(AsWritten, req.body, Params(req)).Ok?
    ensures o.Parsed? ==> o.value == UpdateParams(ValidateUpdate(AsWritten, req.body, Params(req)).value)
    ensures !o.Parsed? ==> o == ZodFailure(ValidateUpdate(AsWritten, req.body, Params(req)).error)
  {
    match ValidateUpdate(AsWritten, req.body, Params(req))
    case Ok(u) => Parsed(UpdateParams(u))
    case Err(issues) => ZodFailure(issues)
  }

  /** `schema.parse({body, query, params})` for the named schema; each
      schema reads only its own part of the request. */
  function ParseWith(s: SchemaName, req: Request): (o: ParseOutcome<Validated>)
    ensures !o.OtherFailure?
  {
    match s
    case CreateProductSchema => ParseCreate(req)
    case GetProductsSchema => ParseList(req)
    case GetProductSchema => ParseShow(req)
    case UpdateProductSchema => ParseUpdate(req)
  }

  /** What the database supplies that the request does not: the id and
      time it stamps on a new row, and how base64 text decodes. */
  datatype Env = Env(decode: string -> string, freshId: Id, now: Timestamp)

  /** The controller named by the route, on the input its schema parsed.
      A controller reached with input of another kind reads fields that
      are not there and throws. */
  function Dispatch(a: Action, v: Validated, store: Store, scan: seq<Id>, env: Env): Handled
    requires Enumerates(scan, store)
  {
    var unparsed := Handled(Forward(Other(UnparsedInput)), store);
    match a
    case CreateProductAction => if v.CreateBody? then CreateProductHandler(store, v.input, env.freshId, env.now) else unparsed
    case GetProductsAction => if v.ListParams? then GetProductsHandler(store, scan, v.query) else unparsed
    case GetProductAction => if v.IdParam? then GetProductHandler(store, v.id) else unparsed
    case UpdateProductAction => if v.UpdateParams? then UpdateProductHandler(store, v.request) else unparsed
    case DeleteProductAction => if v.IdParam? then DeleteProductHandler(store, v.id) else unparsed
  }

  const UnparsedInput := "Cannot read properties of undefined"

  /** One response and the table after the request. */
  datatype Served = Served(response: Response, store: Store)

  /** Run a middleware chain: each middleware either passes the request
      on or ends it; thrown errors go to `errorHandler`. */
  function RunChain(chain: seq<Middleware>, req: Request, store: Store, scan: seq<Id>, env: Env, v: Validated): (s: Served)
    requires Enumerates(scan, store)
    ensures (Handle(CreateProductAction) !in chain && Handle(UpdateProductAction) !in chain
             && Handle(DeleteProductAction) !in chain) ==> s.store == store
    decreases |chain|
  {
    if chain == [] then Served(Response(NotFoundStatus, MessageBody(RouteMissing)), store)
    else match chain[0]
      case Authenticate =>
        (match BasicAuth.Authenticate(req.authorization, env.decode)
         case Allow => RunChain(chain[1..], req, store, scan, env, v)
         case Deny(message) => Served(Response(UnauthorizedStatus, MessageBody(message)), store)
         case Fail(e) => Served(ErrorHandler(e), store))
      case Validate(schema) =>
        (match Pipe(ParseWith(schema, req))
         case Next(parsed) => RunChain(chain[1..], req, store, scan, env, parsed)
         case Throw(e) => Served(ErrorHandler(e), store)
         case Respond(r) => Served(r, store))
      case Handle(action) => Finish(Dispatch(action, v, store, scan, env))
  }

  /** The response a controller sent, or the error handler's response to
      what it passed on. */
  function Finish(h: Handled): (s: Served)
    ensures s.store == h.store
    ensures h.outcome.Forward? ==> s.response == ErrorHandler(h.outcome.error)
  {
    match h.outcome
    case Send(r) => Served(r, h.store)
    case Forward(e) => Served(ErrorHandler(e), h.store)
  }

  /** An Authorization check that passes hands the request on unchanged. */
  lemma AllowedPassesOn(chain: seq<Middleware>, req: Request, store: Store, scan: seq<Id>, env: Env, v: Validated)
    requires Enumerates(scan, store)
    requires chain != [] && chain[0] == Authenticate
    requires BasicAuth.Authenticate(req.authorization, env.decode) == Allow
    ensures RunChain(chain, req, store, scan, env, v) == RunChain(chain[1..], req, store, scan, env, v)
  {
  }

  /** An input the schema accepts is handed on, parsed. */
  lemma ParsedPassesOn(chain: seq<Middleware>, req: Request, store: Store, scan: seq<Id>, env: Env, v: Validated, parsed: Validated)
    requires Enumerates(scan, store)
    requires chain != [] && chain[0].Validate?
    requires ParseWith(chain[0].schema, req) == Parsed(parsed)
    ensures RunChain(chain, req, store, scan, env, v) == RunChain(chain[1..], req, store, scan, env, parsed)
  {
  }

  /** An input the schema rejects ends the chain with 400 and the issue
      messages. */
  lemma RejectedEnds(chain: seq<Middleware>, req: Request, store: Store, scan: seq<Id>, env: Env, v: Validated, issues: seq<Issue>)
    requires Enumerates(scan, store)
    requires chain != [] && chain[0].Validate?
    requires ParseWith(chain[0].schema, req) == ZodFailure(issues)
    ensures RunChain(chain, req, store, scan, env, v) == Served(Response(BadRequestStatus, MessageBody(ErrorText(issues))), store)
  {
  }

  /** The controller ends the chain. */
  lemma HandlerEnds(a: Action, req: Request, store: Store, scan: seq<Id>, env: Env, v: Validated)
    requires Enumerates(scan, store)
    ensures RunChain([Handle(a)], req, store, scan, env, v) == Finish(Dispatch(a, v, store, scan, env))
  {
  }

  /** A request through the product router. */
  function Serve(req: Request, store: Store, scan: seq<Id>, env: Env): (s: Served)
    requires Enumerates(scan, store)
    ensures req.verb == Get ==> s.store == store
  {
    match FindRoute(Routes, req.verb, req.pathId.Some?)
    case None => Served(Response(NotFoundStatus, MessageBody(RouteMissing)), store)
    case Some(i) => RunChain(Routes[i].chain, req, store, scan, env, Unvalidated)
  }

  /** Which route each method and path shape selects, and what it runs. */
  lemma RoutesSelected()
    ensures FindRoute(Routes, Post, false) == Some(0)
    ensures FindRoute(Routes, Get, false) == Some(1)
    ensures FindRoute(Routes, Get, true) == Some(2)
    ensures FindRoute(Routes, Method.Patch, true) == Some(3)
    ensures FindRoute(Routes, Delete, true) == Some(4)
    ensures FindRoute(Routes, Post, true).None? && FindRoute(Routes, Method.Patch, false).None?
    ensures FindRoute(Routes, Delete, false).None?
  {
    assert |Routes| == 5;
    assert Routes[0].verb == Post && !Routes[0].withId;
    assert Routes[1].verb == Get && !Routes[1].withId;
    assert Routes[2].verb == Get && Routes[2].withId;
    assert Routes[3].verb == Method.Patch && Routes[3].withId;
    assert Routes[4].verb == Delete && Routes[4].withId;
  }

  /** A request the router matches runs that route's chain. */
  lemma ServedByRoute(req: Request, store: Store, scan: seq<Id>, env: Env, i: nat, chain: seq<Middleware>)
    requires Enumerates(scan, store)
    requires FindRoute(Routes, req.verb, req.pathId.Some?) == Some(i)
    requires chain == Routes[i].chain
    ensures Serve(req, store, scan, env) == RunChain(chain, req, store, scan, env, Unvalidated)
  {
  }

  /** A guarded chain whose check passes and whose schema accepts ends in
      its controller, on the parsed input. */
  lemma GuardedChain(schema: SchemaName, a: Action, req: Request, store: Store, scan: seq<Id>, env: Env, parsed: Validated)
    requires Enumerates(scan, store)
    requires BasicAuth.Authenticate(req.authorization, env.decode) == Allow
    requires ParseWith(schema, req) == Parsed(parsed)
    ensures RunChain([Authenticate, Validate(schema), Handle(a)], req, store, scan, env, Unvalidated)
              == Finish(Dispatch(a, parsed, store, scan, env))
  {
    var chain := [Authenticate, Validate(schema), Handle(a)];
    AllowedPassesOn(chain, req, store, scan, env, Unvalidated);
    ParsedPassesOn(chain[1..], req, store, scan, env, Unvalidated, parsed);
    assert chain[1..][1..] == [Handle(a)];
    HandlerEnds(a, req, store, scan, env, parsed);
  }

  /** An open chain whose schema accepts ends in its controller, on the
      parsed input. */
  lemma OpenChain(schema: SchemaName, a: Action, req: Request, store: Store, scan: seq<Id>, env: Env, parsed: Validated)
    requires Enumerates(scan, store)
    requires ParseWith(schema, req) == Parsed(parsed)
    ensures RunChain([Validate(schema), Handle(a)], req, store, scan, env, Unvalidated)
              == Finish(Dispatch(a, parsed, store, scan, env))
  {
    var chain := [Validate(schema), Handle(a)];
    ParsedPassesOn(chain, req, store, scan, env, Unvalidated, parsed);
    assert chain[1..] == [Handle(a)];
    HandlerEnds(a, req, store, scan, env, parsed);
  }

  /** On the routes that write, a request that fails the Authorization
      check gets 401 and the check's message, whatever its body, and the
      table is left alone. */
  lemma UnauthenticatedWriteRejected(req: Request, store: Store, scan: seq<Id>, env: Env)
    requires Enumerates(scan, store)
    requires req.verb != Get
    requires FindRoute(Routes, req.verb, req.pathId.Some?).Some?
    requires BasicAuth.Authenticate(req.authorization, env.decode).Deny?
    ensures Serve(req, store, scan, env) == Served(Response(UnauthorizedStatus, MessageBody(BasicAuth.Authenticate(req.authorization, env.decode).message)), store)
  {
    var i := FindRoute(Routes, req.verb, req.pathId.Some?).value;
    assert Routes[i].chain[0] == Authenticate;
  }

  /** `POST /:id`, and `PATCH` or `DELETE` on the collection, match no
      route and fall through to the catch-all 404. */
  lemma UnroutedNotFound(req: Request, store: Store, scan: seq<Id>, env: Env)
    requires Enumerates(scan, store)
    requires (req.verb == Post && req.pathId.Some?) || (req.verb in {Method.Patch, Delete} && req.pathId.None?)
    ensures Serve(req, store, scan, env) == Served(Response(NotFoundStatus, MessageBody(RouteMissing)), store)
  {
    RoutesSelected();
  }

  /** An authenticated create with a body the schema rejects gets 400 with
      the issue messages, and nothing is written. */
  lemma InvalidCreateBody(req: Request, store: Store, scan: seq<Id>, env: Env)
    requires Enumerates(scan, store)
    requires req.verb == Post && req.pathId.None?
    requires BasicAuth.Authenticate(req.authorization, env.decode) == Allow
    requires ValidateCreate(AsWritten, req.body).Err?
    ensures Serve(req, store, scan, env) == Served(Response(BadRequestStatus, MessageBody(ErrorText(ValidateCreate(AsWritten, req.body).error))), store)
  {
    var chain := CreateChain;
    RoutesSelected();
    ServedByRoute(req, store, scan, env, 0, chain);
    AllowedPassesOn(chain, req, store, scan, env, Unvalidated);
    RejectedEnds(chain[1..], req, store, scan, env, Unvalidated, ValidateCreate(AsWritten, req.body).error);
  }

  /** A UUID in the path passes the schema and reaches `getProduct`. */
  lemma ReadChainRuns(req: Request, store: Store, scan: seq<Id>, env: Env)
    requires Enumerates(scan, store)
    requires req.pathId.Some? && IsUuid(req.pathId.value)
    ensures RunChain(ReadChain, req, store, scan, env, Unvalidated) == Finish(GetProductHandler(store, req.pathId.value))
  {
    assert ParseShow(req) == Parsed(IdParam(req.pathId.value));
    OpenChain(GetProductSchema, GetProductAction, req, store, scan, env, IdParam(req.pathId.value));
  }

  /** Past the Authorization check, a UUID in the path reaches `deleteProduct`. */
  lemma DeleteChainRuns(req: Request, store: Store, scan: seq<Id>, env: Env)
    requires Enumerates(scan, store)
    requires req.pathId.Some? && IsUuid(req.pathId.value)
    requires BasicAuth.Authenticate(req.authorization, env.decode) == Allow
    ensures RunChain(DeleteChain, req, store, scan, env, Unvalidated) == Finish(DeleteProductHandler(store, req.pathId.value))
  {
    assert ParseShow(req) == Parsed(IdParam(req.pathId.value));
    GuardedChain(GetProductSchema, DeleteProductAction, req, store, scan, env, IdParam(req.pathId.value));
  }

  /** Past the Authorization check, an update the schema accepts reaches `updateProduct`. */
  lemma UpdateChainRuns(req: Request, store: Store, scan: seq<Id>, env: Env)
    requires Enumerates(scan, store)
    requires BasicAuth.Authenticate(req.authorization, env.decode) == Allow
    requires ValidateUpdate(AsWritten, req.body, Params(req)).Ok?
    ensures RunChain(UpdateChain, req, store, scan, env, Unvalidated) == Finish(UpdateProductHandler(store, ValidateUpdate(AsWritten, req.body, Params(req)).value))
  {
    GuardedChain(UpdateProductSchema, UpdateProductAction, req, store, scan, env, UpdateParams(ValidateUpdate(AsWritten, req.body, Params(req)).value));
  }

  /** Past the Authorization check, a body the schema accepts reaches `createProduct`. */
  lemma CreateChainRuns(req: Request, store: Store, scan: seq<Id>, env: Env)
    requires Enumerates(scan, store)
    requires BasicAuth.Authenticate(req.authorization, env.decode) == Allow
    requires ValidateCreate(AsWritten, req.body).Ok?
    ensures RunChain(CreateChain, req, store, scan, env, Unvalidated) == Finish(CreateProductHandler(store, ValidateCreate(AsWritten, req.body).value, env.freshId, env.now))
  {
    GuardedChain(CreateProductSchema, CreateProductAction, req, store, scan, env, CreateBody(ValidateCreate(AsWritten, req.body).value));
  }

  /** A query the schema accepts reaches `getProducts`. */
  lemma ListChainRuns(req: Request, store: Store, scan: seq<Id>, env: Env)
    requires Enumerates(scan, store)
    requires ValidateListQuery(req.query).Ok?
    ensures RunChain(ListChain, req, store, scan, env, Unvalidated) == Finish(GetProductsHandler(store, scan, ValidateListQuery(req.query).value))
  {
    assert ParseList(req) == Parsed(ListParams(ValidateListQuery(req.query).value));
    OpenChain(GetProductsSchema, GetProductsAction, req, store, scan, env, ListParams(ValidateListQuery(req.query).value));
  }

  /** `GET /:id` with a UUID reaches `getProduct`. */
  lemma ReadReachesHandler(req: Request, store: Store, scan: seq<Id>, env: Env)
    requires Enumerates(scan, store)
    requires req.verb == Get && req.pathId.Some? && IsUuid(req.pathId.value)
    ensures Serve(req, store, scan, env) == Finish(GetProductHandler(store, req.pathId.value))
  {
    RoutesSelected();
    ServedByRoute(req, store, scan, env, 2, ReadChain);
    ReadChainRuns(req, store, scan, env);
  }

  /** An authenticated `DELETE /:id` with a UUID reaches `deleteProduct`. */
  lemma DeleteReachesHandler(req: Request, store: Store, scan: seq<Id>, env: Env)
    requires Enumerates(scan, store)
    requires req.verb == Delete && req.pathId.Some? && IsUuid(req.pathId.value)
    requires BasicAuth.Authenticate(req.authorization, env.decode) == Allow
    ensures Serve(req, store, scan, env) == Finish(DeleteProductHandler(store, req.pathId.value))
  {
    RoutesSelected();
    ServedByRoute(req, store, scan, env, 4, DeleteChain);
    DeleteChainRuns(req, store, scan, env);
  }

  /** An authenticated `PATCH /:id` the schema accepts reaches
      `updateProduct`. */
  lemma UpdateReachesHandler(req: Request, store: Store, scan: seq<Id>, env: Env)
    requires Enumerates(scan, store)
    requires req.verb == Method.Patch && req.pathId.Some?
    requires BasicAuth.Authenticate(req.authorization, env.decode) == Allow
    requires ValidateUpdate(AsWritten, req.body, Params(req)).Ok?
    ensures Serve(req, store, scan, env) == Finish(UpdateProductHandler(store, ValidateUpdate(AsWritten, req.body, Params(req)).value))
  {
    RoutesSelected();
    ServedByRoute(req, store, scan, env, 3, UpdateChain);
    UpdateChainRuns(req, store, scan, env);
  }

  /** An authenticated `POST` the schema accepts reaches `createProduct`. */
  lemma CreateReachesHandler(req: Request, store: Store, scan: seq<Id>, env: Env)
    requires Enumerates(scan, store)
    requires req.verb == Post && req.pathId.None?
    requires BasicAuth.Authenticate(req.authorization, env.decode) == Allow
    requires ValidateCreate(AsWritten, req.body).Ok?
    ensures Serve(req, store, scan, env) == Finish(CreateProductHandler(store, ValidateCreate(AsWritten, req.body).value, env.freshId, env.now))
  {
    RoutesSelected();
    ServedByRoute(req, store, scan, env, 0, CreateChain);
    CreateChainRuns(req, store, scan, env);
  }

  /** `GET` on the collection with a query the schema accepts reaches
      `getProducts`. */
  lemma ListReachesHandler(req: Request, store: Store, scan: seq<Id>, env: Env)
    requires Enumerates(scan, store)
    requires req.verb == Get && req.pathId.None?
    requires ValidateListQuery(req.query).Ok?
    ensures Serve(req, store, scan, env) == Finish(GetProductsHandler(store, scan, ValidateListQuery(req.query).value))
  {
    RoutesSelected();
    ServedByRoute(req, store, scan, env, 1, ListChain);
    ListChainRuns(req, store, scan, env);
  }

  /** `GET` on the collection with a query the schema rejects gets 400. */
  lemma ListRejected(req: Request, store: Store, scan: seq<Id>, env: Env)
    requires Enumerates(scan, store)
    requires req.verb == Get && req.pathId.None?
    requires ValidateListQuery(req.query).Err?
    ensures Serve(req, store, scan, env) == Served(Response(BadRequestStatus, MessageBody(ErrorText(ValidateListQuery(req.query).error))), store)
  {
    RoutesSelected();
    ServedByRoute(req, store, scan, env, 1, ListChain);
    ListChainRejects(req, store, scan, env);
  }

  /** A query the schema rejects ends the collection's chain with 400. */
  lemma ListChainRejects(req: Request, store: Store, scan: seq<Id>, env: Env)
    requires Enumerates(scan, store)
    requires ValidateListQuery(req.query).Err?
    ensures RunChain(ListChain, req, store, scan, env, Unvalidated) == Served(Response(BadRequestStatus, MessageBody(ErrorText(ValidateListQuery(req.query).error))), store)
  {
    assert ParseList(req) == ZodFailure(ValidateListQuery(req.query).error);
    RejectedEnds(ListChain, req, store, scan, env, Unvalidated, ValidateListQuery(req.query).error);
  }

  lemma ReadReply(store: Store, id: Id)
    ensures Finish(GetProductHandler(store, id)) ==
              if id in store then Served(Response(OkStatus, EnvelopeBody(Envelope(OkStatus, ProductFound, One(store[id])))), store)
              else Served(Response(NotFoundStatus, MessageBody(ProductMissing)), store)
  {
  }

  /** `GET /:id` with a UUID: the row, or 404 `Product not found`. */
  lemma ReadById(req: Request, store: Store, scan: seq<Id>, env: Env)
    requires Enumerates(scan, store)
    requires req.verb == Get && req.pathId.Some? && IsUuid(req.pathId.value)
    ensures var id := req.pathId.value;
            Serve(req, store, scan, env) ==
              if id in store then Served(Response(OkStatus, EnvelopeBody(Envelope(OkStatus, ProductFound, One(store[id])))), store)
              else Served(Response(NotFoundStatus, MessageBody(ProductMissing)), store)
  {
    ReadReachesHandler(req, store, scan, env);
    ReadReply(store, req.pathId.value);
  }

  lemma DeleteReply(store: Store, id: Id)
    ensures Finish(DeleteProductHandler(store, id)) ==
              if id in store then Served(Response(OkStatus, EnvelopeBody(Envelope(OkStatus, ProductDeleted, NoData))), store - {id})
              else Served(Response(NotFoundStatus, MessageBody(ProductMissing)), store)
  {
  }

  lemma UpdateReply(store: Store, u: UpdateRequest)
    ensures Finish(UpdateProductHandler(store, u)) ==
              if u.id in store then
                var q := ApplyPatch(store[u.id], u.patch);
                Served(Response(OkStatus, EnvelopeBody(Envelope(OkStatus, ProductUpdated, One(q)))), store[u.id := q])
              else Served(Response(NotFoundStatus, MessageBody(ProductMissing)), store)
  {
  }

  /** `GET` on the collection, with no Authorization check: one page of
      the listing, or 400 with the query's issues. */
  lemma ListProducts(req: Request, store: Store, scan: seq<Id>, env: Env)
    requires Enumerates(scan, store)
    requires req.verb == Get && req.pathId.None?
    ensures match ValidateListQuery(req.query)
            case Ok(q) => Serve(req, store, scan, env) == Served(Response(OkStatus, EnvelopeBody(GetProducts(AsWritten, store, scan, q))), store)
            case Err(issues) => Serve(req, store, scan, env) == Served(Response(BadRequestStatus, MessageBody(ErrorText(issues))), store)
  {
    match ValidateListQuery(req.query)
    case Ok(q) =>
      ListReachesHandler(req, store, scan, env);
    case Err(issues) =>
      ListRejected(req, store, scan, env);
  }

  /** `DELETE /:id` with a UUID, once authenticated: the row removed, or
      404 `Product not found` with nothing written. */
  lemma DeleteById(req: Request, store: Store, scan: seq<Id>, env: Env)
    requires Enumerates(scan, store)
    requires req.verb == Delete && req.pathId.Some? && IsUuid(req.pathId.value)
    requires BasicAuth.Authenticate(req.authorization, env.decode) == Allow
    ensures var id := req.pathId.value;
            Serve(req, store, scan, env) ==
              if id in store then Served(Response(OkStatus, EnvelopeBody(Envelope(OkStatus, ProductDeleted, NoData))), store - {id})
              else Served(Response(NotFoundStatus, MessageBody(ProductMissing)), store)
  {
    DeleteReachesHandler(req, store, scan, env);
    DeleteReply(store, req.pathId.value);
  }

  /** `PATCH /:id` with a body and id the schema accepts, once authenticated:
      the patched row, or 404 `Product not found` with nothing written. */
  lemma UpdateById(req: Request, store: Store, scan: seq<Id>, env: Env)
    requires Enumerates(scan, store)
    requires req.verb == Method.Patch && req.pathId.Some?
    requires BasicAuth.Authenticate(req.authorization, env.decode) == Allow
    requires ValidateUpdate(AsWritten, req.body, Params(req)).Ok?
    ensures var id := req.pathId.value;
            var patch := ValidateUpdate(AsWritten, req.body, Params(req)).value.patch;
            Serve(req, store, scan, env) ==
              if id in store then
                var q := ApplyPatch(store[id], patch);
                Served(Response(OkStatus, EnvelopeBody(Envelope(OkStatus, ProductUpdated, One(q)))), store[id := q])
              else Served(Response(NotFoundStatus, MessageBody(ProductMissing)), store)
  {
    UpdateReachesHandler(req, store, scan, env);
    UpdateReply(store, ValidateUpdate(AsWritten, req.body, Params(req)).value);
  }

  /** `POST` with an acceptable body, once authenticated: HTTP 200 with
      the 201 envelope of the new row, stored under the generated id. */
  lemma CreateOnce(req: Request, store: Store, scan: seq<Id>, env: Env)
    requires Enumerates(scan, store)
    requires req.verb == Post && req.pathId.None?
    requires BasicAuth.Authenticate(req.authorization, env.decode) == Allow
    requires ValidateCreate(AsWritten, req.body).Ok?
    requires env.freshId !in store
    ensures var p := NewProduct(ValidateCreate(AsWritten, req.body).value, env.freshId, env.now);
            Serve(req, store, scan, env) == Served(Response(OkStatus, EnvelopeBody(Envelope(CreatedStatus, ProductCreated, One(p)))), store[env.freshId := p])
  {
    CreateReachesHandler(req, store, scan, env);
  }

  /** A product created through the API can be read back through it. */
  lemma CreateThenRead(create: Request, store: Store, scan: seq<Id>, env: Env, read: Request, scan2: seq<Id>)
    requires Enumerates(scan, store)
    requires create.verb == Post && create.pathId.None?
    requires BasicAuth.Authenticate(create.authorization, env.decode) == Allow
    requires ValidateCreate(AsWritten, create.body).Ok?
    requires env.freshId !in store && IsUuid(env.freshId)
    requires read.verb == Get && read.pathId == Some(env.freshId)
    requires Enumerates(scan2, Serve(create, store, scan, env).store)
    ensures var p := NewProduct(ValidateCreate(AsWritten, create.body).value, env.freshId, env.now);
            Serve(read, Serve(create, store, scan, env).store, scan2, env).response
              == Response(OkStatus, EnvelopeBody(Envelope(OkStatus, ProductFound, One(p))))
  {
    CreateOnce(create, store, scan, env);
    ReadById(read, Serve(create, store, scan, env).store, scan2, env);
  }
}
