# Product catalog service, modelled in Dafny

This project models the request pipeline of a small product-catalog REST
service. The service is an Express application with zod schemas and a
Prisma-backed `Product` table. Everything is a pure function over an
immutable table `map<Id, Product>`:

- **Input schemas.** Raw JSON values become typed inputs or an ordered list
  of issues. Four schemas are covered: the create body, the all-optional
  update body with its UUID path id, the path id alone, and the listing
  query. The query schema has defaults, numeric coercion, `asc`/`desc`
  enums and two cross-field price-range rules.
- **`basicAuth`.** The Authorization-header check: allow, 401 with one of
  three messages, or a thrown error.
- **`validationPipe`.** Its three branches: pass the parsed input on, throw
  400 with the joined issue messages, or answer 500 directly.
- **The service.**
  - `createProduct`, `getProduct`, `updateProduct`, `deleteProduct`.
  - `getProducts`: the query builder (filter, sort keys, skip/take) and
    pagination.
  - Every operation returns the `{status, message, data}` envelope.
- **Persistence.** The database's `count` and `findMany` over the table:
  filter, then a sort by the key sequence, then a skip/take window.
  Text columns compare by code point, not by a collation. Rows equal on
  every key keep the table's physical order. The database promises no
  order among such rows, nor the same one for two queries.
- **Controllers and error handling.** The five controllers, the closed
  error taxonomy (`BadRequest`, `NotFound`, `Internal`, anything else), and
  `errorHandler`.
- **The router.** The route table with each route's middleware order. A
  request runs through the whole chain, from the Authorization check to
  the final error handler. A method/path pair that no route serves gets
  the catch-all 404.

JavaScript semantics are modelled where they matter:

- String length counts UTF-16 code units.
- `trim` removes the ECMAScript whitespace set.
- `split` keeps empty pieces.
- `z.coerce.number()` is JavaScript's `Number()` on decimal text, read as
  an exact decimal: no rounding to a double, no overflow to `Infinity`.
- zod reports every issue of a field. A type error aborts the field, and
  an aborted field makes the object skip its refinements.
- Issues come in shape order, then refinement order.
- Undeclared keys are stripped.

Some values come from the database or the runtime rather than the request:

- the id and creation time stamped on a new row;
- base64 decoding;
- the table's physical row order, which decides ties between rows equal on
  every sort key.

These are parameters of the model (`Router.Env`, the `scan` sequence). A
generated id that is already taken makes the create fail with a database
error.

Two schema rules and the listing's price filter do not do what they
evidently mean (see "## Findings"). The members built on them take a
`ProductFields.Variant`:

- `AsWritten` runs the repository's code. The name and category length
  bounds measure the text as sent, and a price bound of 0 drops the price
  filter.
- `Corrected` measures the trimmed text and keeps every given price bound.

The router and the controllers use `AsWritten`, so the modelled pipeline is
the repository's. A property that holds only for the corrected rules is
stated for `Corrected` alone, and a lemma shows the two variants apart on
whole requests.

Modules, one file each, from the bottom up:

- `Wrappers`
- `Orders`
- `Text`
- `Numbers`
- `Schema`
- `ProductFields`
- `Products`
- `GetProductDto`
- `CreateProductDto`
- `UpdateProductDto`
- `GetProductsDto`
- `QueryBuilder`
- `Persistence`
- `Responses`
- `Errors`
- `Service`
- `BasicAuth`
- `ValidationPipe`
- `Controller`
- `Router`

## Model

| member | source | states |
|---|---|---|
| Text.Trim | src/products/dto/create-product.dto.ts:10 | the result has no ECMAScript whitespace at either end and is no longer than the input |
| Text.TrimPadding | src/products/dto/create-product.dto.ts:10 | the input is the result with whitespace added only before and after it: trimming removes nothing from the middle |
| Text.TrimIdempotent | src/products/dto/update-product.dto.ts:9 | trimming trimmed text changes nothing |
| Text.Utf16Length | src/products/dto/create-product.dto.ts:9 | `.min`/`.max` count UTF-16 code units: between one and two per character, exactly one each when every character is in the Basic Multilingual Plane |
| Text.Utf16LengthTrim | src/products/dto/create-product.dto.ts:36-38 | trimming never adds code units, so a category bounded before trimming stays within the bound after it |
| Text.Split | src/common/middlewares/basic-auth.middleware.ts:14 | `split` gives at least one piece, no piece holds the separator, and joining the pieces with the separator rebuilds the text |
| Text.SplitJoin | src/common/middlewares/basic-auth.middleware.ts:23 | splitting separator-free pieces joined by the separator gives back exactly those pieces |
| Text.ContainsOccurs | src/products/products.service.ts:19-24 | the `contains` filter holds exactly when the pattern occurs at some position of the text |
| Numbers.ParseNumber | src/products/dto/get-products.dto.ts:8-12 | `Number()` of blank text is 0, and a negative number comes only from text whose first non-blank character is `-` |
| Numbers.DecimalRoundTrip | src/products/dto/get-products.dto.ts:6-16 | the decimal text of any whole number coerces back to that number |
| Numbers.CeilDiv | src/products/products.service.ts:76 | `Math.ceil(a / b)` for `b >= 1`: the least q with `q * b >= a` |
| Orders.CompareStringFlip | src/products/products.service.ts:26-48 | swapping the operands of the text order flips the result |
| Orders.CompareStringSame | src/products/products.service.ts:26-48 | two texts compare equal exactly when they are the same text |
| Orders.CompareStringTrans | src/products/products.service.ts:26-48 | the text order is transitive, and ties are transitive |
| Schema.Required | src/products/dto/create-product.dto.ts:5-8 | an absent required key aborts with its own required message; a present one runs the field's checks |
| Schema.Optional | src/products/dto/update-product.dto.ts:10 | an absent optional key is valid with no value; a present one reports exactly the issues of the field's checks and is valid exactly when they pass |
| Schema.Messages | src/common/middlewares/validation.middleware.ts:20 | the messages of the issues, one per issue, in order |
| Schema.ErrorTextSingle | src/common/middlewares/validation.middleware.ts:20 | a lone issue's error text is its message |
| Schema.ErrorTextCons | src/common/middlewares/validation.middleware.ts:20 | the error text is the first issue's message, `", "`, then the rest's error text |
| ProductFields.NameChainAsWritten | src/products/dto/create-product.dto.ts:5-10 | as written: non-text aborts; the value is trimmed, but the length bound is checked on the untrimmed text |
| ProductFields.NameChain | src/products/dto/create-product.dto.ts:5-10 | corrected: non-text aborts; the trimmed value is accepted exactly when it has at least 3 code units |
| ProductFields.NameBoundBeforeTrim | src/products/dto/create-product.dto.ts:9-10 | a name of one visible character padded to 4 units passes the as-written check and is stored as that one character; the corrected check rejects it |
| ProductFields.NameField | src/products/dto/create-product.dto.ts:5-10 | the name rule of a variant: non-text aborts; accepted exactly when the measured text (as sent, or trimmed) has at least 3 units; the trimmed value is kept, and it is trimmed, and also at least 3 units long only under the corrected rule |
| ProductFields.PriceChain | src/products/dto/create-product.dto.ts:12-18 | non-numbers abort; a price is accepted exactly when it is at least 100; a non-positive price reports both the positive and the minimum message, a price in (0, 100) only the minimum message |
| ProductFields.DescriptionField | src/products/dto/create-product.dto.ts:20-23 | absent, null and text are accepted and told apart; any other value is rejected |
| ProductFields.QuantityChain | src/products/dto/create-product.dto.ts:25-30 | non-numbers abort; a quantity is accepted exactly when it is a whole number above 0 |
| ProductFields.CategoryChainAsWritten | src/products/dto/create-product.dto.ts:32-38 | as written: the value is trimmed, but the 3..20 bounds are checked on the untrimmed text |
| ProductFields.CategoryChain | src/products/dto/create-product.dto.ts:32-38 | corrected: the trimmed value is accepted exactly when it has 3 to 20 code units |
| ProductFields.CategoryBoundsBeforeTrim | src/products/dto/create-product.dto.ts:36-38 | two visible characters after a space pass the as-written check and are stored as a 2-character category; the corrected check rejects them |
| ProductFields.CategoryField | src/products/dto/create-product.dto.ts:32-38 | the category rule of a variant: accepted exactly when the measured text has 3 to 20 units; the kept value is trimmed and at most 20 units under both rules, and at least 3 units only under the corrected one |
| GetProductDto.FormatUuid | src/products/dto/get-product.dto.ts:9 | 32 hex digits with dashes inserted form UUID text, each digit in its place |
| GetProductDto.UuidDigits | src/products/dto/get-product.dto.ts:9 | UUID text without its dashes is 32 hex digits, each from its place |
| GetProductDto.UuidDigitsRoundTrip | src/products/dto/get-product.dto.ts:9 | inserting the dashes back into a UUID's digits rebuilds the UUID |
| GetProductDto.FixtureIdIsUuid | src/__test__/stub/product.stub.ts:5 | the test fixture's id is UUID text |
| GetProductDto.IdChain | src/products/dto/get-product.dto.ts:5-9 | non-text aborts; text is accepted exactly when it is UUID text |
| GetProductDto.IdField | src/products/dto/get-product.dto.ts:4-10 | the id is accepted exactly when present, text and UUID text; a missing id gives the required message |
| GetProductDto.ValidateGetProduct | src/products/dto/get-product.dto.ts:3-11 | the params are accepted exactly when the id is UUID text, and the id is passed on; text that is not a UUID gives exactly the UUID message |
| CreateProductDto.ValidateCreate | src/products/dto/create-product.dto.ts:3-40 | for each variant, a body is accepted exactly when every field passes its independently stated rule, the length bounds measured on the text as sent (as written) or trimmed (corrected); a rejection has at least one issue; an accepted body meets that variant's stored-product guarantee |
| CreateProductDto.CreateKeepsValues | src/products/dto/create-product.dto.ts:5-38 | under either variant, an accepted body's name and category are the trimmed texts, its price and quantity are the numbers given, and its description is absent, null or the text given |
| CreateProductDto.CreateReportsMissingKeys | src/products/dto/create-product.dto.ts:5-33 | each missing required field (name, price, quantity, category) rejects the body with that field's own required message among the issues |
| CreateProductDto.CreateIgnoresUndeclaredKeys | src/products/dto/create-product.dto.ts:4-39 | a key the schema does not declare changes nothing |
| CreateProductDto.PaddedNameCreated | src/products/dto/create-product.dto.ts:9-10 | a whole create body named `"  x "`: the schema as written accepts it and passes on the one-letter name `x`; the corrected schema rejects it |
| UpdateProductDto.ValidateUpdate | src/products/dto/update-product.dto.ts:3-48 | for each variant, a request is accepted exactly when every supplied field passes its rule, the length bounds measured as on create, and the path id is UUID text; an accepted patch meets that variant's stored-product guarantee |
| UpdateProductDto.UpdateKeepsValues | src/products/dto/update-product.dto.ts:4-40 | each supplied field's value is passed on (trimmed for text), each absent field is left unset, and an explicit null description clears it |
| UpdateProductDto.EmptyBodyAccepted | src/products/dto/update-product.dto.ts:4-40 | an empty body with a UUID id is accepted as the patch that changes nothing |
| UpdateProductDto.UpdateIgnoresUndeclaredKeys | src/products/dto/update-product.dto.ts:4-40 | a key the body schema does not declare, `id` and `created_at` included, changes nothing |
| UpdateProductDto.PaddedNamePatched | src/products/dto/update-product.dto.ts:8-9 | a whole update body `{name: "  x "}`: the schema as written renames the product to `x` and changes nothing else; the corrected schema rejects it |
| GetProductsDto.CountParam | src/products/dto/get-products.dto.ts:6-28 | `page`/`limit`: absent means the default; present text is accepted exactly when it coerces to an integer of at least 1, and the value is that number |
| GetProductsDto.NameParam | src/products/dto/get-products.dto.ts:30-32 | `name` is optional and passed through as text unchanged |
| GetProductsDto.SortParam | src/products/dto/get-products.dto.ts:34-56 | a sort field is accepted exactly when absent, `"asc"` or `"desc"`; anything else gives that field's message alone |
| GetProductsDto.BoundParam | src/products/dto/get-products.dto.ts:58-84 | a price bound is accepted exactly when absent or text that coerces to a number of at least 0; a coercion failure aborts it, while a negative number is reported but still passed on |
| GetProductsDto.RefinementIssues | src/products/dto/get-products.dto.ts:86-104 | the refinements report nothing exactly when both bounds or neither are present and low <= high; one bound alone gives the "together" issue on `high_price_range`, low > high gives the order issue on `low_price_range` |
| GetProductsDto.ValidateListQuery | src/products/dto/get-products.dto.ts:3-105 | a query is accepted exactly when every field passes its rule and the bounds are paired and ordered; a rejection has at least one issue; an accepted query has page and limit at least 1 and paired, ordered, non-negative bounds |
| GetProductsDto.ListQueryKeepsValues | src/products/dto/get-products.dto.ts:6-84 | an accepted query's page and limit are 1 and 10 when absent and the coerced numbers otherwise; its name and bounds are the ones given |
| GetProductsDto.OneBoundAlone | src/products/dto/get-products.dto.ts:86-94 | an otherwise valid query with exactly one bound is rejected with exactly the "provided together" issue on `high_price_range` |
| GetProductsDto.BoundsOutOfOrder | src/products/dto/get-products.dto.ts:95-104 | an otherwise valid query with low > high is rejected with exactly the order issue on `low_price_range` |
| GetProductsDto.RejectedBoundSkipsRefinements | src/products/dto/get-products.dto.ts:58-94 | a low bound that does not coerce aborts the object, so the missing high bound goes unreported |
| GetProductsDto.RefinementsSeeNegativeBound | src/products/dto/get-products.dto.ts:72-104 | a negative high bound is reported and the order refinement still runs on it, so both issues appear, in that order |
| QueryBuilder.BuildOrderBy | src/products/products.service.ts:26-61 | the sort keys end with `created_at desc`; before it, exactly the requested columns with their requested directions, in the fixed order category, name, quantity, price |
| QueryBuilder.OrderByIsRequestedThenTiebreak | src/products/products.service.ts:26-61 | the sort keys equal the requested keys, filtered from the fixed column order, followed by one `created_at desc` |
| QueryBuilder.DefaultOrderIsNewestFirst | src/products/products.service.ts:59-61 | with no sort field, the only key is `created_at desc` |
| QueryBuilder.NameWhere | src/products/products.service.ts:19-24 | the name filter is added exactly when the name is present and non-empty |
| QueryBuilder.PriceWhereAsWritten | src/products/products.service.ts:52-57 | as written: the price filter is added exactly when both bounds are present and neither is 0 |
| QueryBuilder.PriceWhere | src/products/products.service.ts:52-57 | corrected: the price filter is added exactly when both bounds are present, with those bounds |
| QueryBuilder.PriceField | src/products/products.service.ts:52-57 | the price filter of a variant: present exactly when both bounds are, and, as written, neither is 0; it carries the given bounds |
| QueryBuilder.BuildWhere | src/products/products.service.ts:16-57 | the `where` object: a name filter exactly when the name is present and non-empty, carrying that name; a price filter exactly when both bounds are present (and, as written, neither is 0), carrying those bounds |
| QueryBuilder.Skip | src/products/products.service.ts:15 | the first page skips nothing, and a page's offset plus `limit` is where the next page starts, `page * limit` |
| QueryBuilder.BuildPlan | src/products/products.service.ts:63-72 | `count` and `findMany` share the one `where` object; the fetch is ordered by the built sort keys, takes `limit` rows and skips `(page - 1) * limit` |
| Persistence.CompareRowsFlip | src/products/products.service.ts:26-61 | comparing two rows by a key sequence is antisymmetric |
| Persistence.CompareRowsTrans | src/products/products.service.ts:26-61 | comparing rows by a key sequence is transitive |
| Persistence.Insert | src/products/products.service.ts:67-72 | inserting into sorted rows keeps them sorted and adds exactly the new row |
| Persistence.Sort | src/products/products.service.ts:67-72 | `orderBy`: the result is sorted by the keys and is a permutation of the input |
| Persistence.Filter | src/products/products.service.ts:63-72 | `where`: exactly the rows that match are kept |
| Persistence.Window | src/products/products.service.ts:67-72 | `skip`/`take`: at most `take` rows, starting at position `skip` |
| Persistence.FindMany | src/products/products.service.ts:67-72 | at most `take` rows, each in the table and matching the filter, sorted by the keys |
| Persistence.Count | src/products/products.service.ts:63-65 | `count({where})` is the number of table rows that match the filter |
| Persistence.FindManySize | src/products/products.service.ts:63-72 | the fetch holds as many rows as remain after `skip` out of the counted matches, up to `take` |
| Persistence.PagesAdjacent | src/products/products.service.ts:67-72 | a fetch followed by the fetch that starts where it stops equals the one longer fetch: consecutive pages neither repeat nor skip a row |
| Persistence.WholeFetch | src/products/products.service.ts:63-72 | a fetch from the start with room for every match holds exactly the matching rows of the table, each as often as the table holds it, and a product is in it exactly when it is in the table and matches |
| Persistence.PagesInOrder | src/products/products.service.ts:67-72 | every row of a page sorts no later than every row of a later page |
| Responses.ResponseFormat | src/common/util/response.util.ts:3-9 | the envelope carries the given status, message and data; data defaults to null |
| Errors.InternalServerException | src/common/middlewares/error.middleware.ts:20-24 | an internal error with the given message, `!Oops, something went wrong` by default |
| Errors.HttpCode | src/common/middlewares/error.middleware.ts:20-36 | the three application error classes carry 400, 404 and 500, one each |
| Errors.ErrorHandler | src/common/middlewares/error.middleware.ts:39-48 | an application error answers with its own code and message; any other error answers 500 `Something went wrong` |
| Errors.StatusIdentifiesClass | src/common/middlewares/error.middleware.ts:39-48 | 400 means bad request and 404 means not found; 500 means an internal or a foreign error; no other status occurs |
| Errors.ForeignMessagesHidden | src/common/middlewares/error.middleware.ts:47 | all foreign errors get the same response, so none of their messages reaches the client |
| ValidationPipe.Pipe | src/common/middlewares/validation.middleware.ts:5-27 | parsed input goes on unchanged; a zod failure throws a bad request whose message joins the issue messages with `", "`; any other failure answers 500 directly |
| ValidationPipe.RejectionAnswers400 | src/common/middlewares/validation.middleware.ts:19-21 | a zod failure reaches the client as 400 with the joined messages; a lone issue shows exactly its message |
| BasicAuth.Authenticate | src/common/middlewares/basic-auth.middleware.ts:4-34 | a missing or empty header gives `Authentication required`, exactly; a first token other than `Basic` gives `Invalid authentication scheme`, exactly; a bare `Basic` throws; every other denial is `Invalid credentials` |
| BasicAuth.AdminHeaderAllowed | src/common/middlewares/basic-auth.middleware.ts:14-33 | every header `Basic <token>[ ...]` whose token decodes to `admin:pass[:...]` is let through |
| BasicAuth.AllowedOnlyAdminHeader | src/common/middlewares/basic-auth.middleware.ts:14-33 | only such headers are let through |
| BasicAuth.ExtraSegmentAccepted | src/common/middlewares/basic-auth.middleware.ts:23-26 | decoded text `admin:pass:extra` is accepted |
| Service.CreateProduct | src/products/products.service.ts:7-12 | a new row under the generated id, answered 201 `Product created` with that row; other rows unchanged; a taken id fails with a database error |
| Service.GetProduct | src/products/products.service.ts:87-97 | the row, 200 `Product found`, when the id is in the table; `NotFound('Product not found')` exactly when it is not |
| Service.UpdateProduct | src/products/products.service.ts:99-109 | a missing id is `NotFound` with nothing written; otherwise only that row changes, to the patched row, answered 200 `Product updated` |
| Service.DeleteProduct | src/products/products.service.ts:111-121 | a missing id is `NotFound` with nothing removed; otherwise exactly that row is removed, answered 200 `Product deleted successfully` with null data |
| Service.Paginate | src/products/products.service.ts:74-84 | the page count is the least number of pages of `limit` rows that hold `count`; there is a previous page exactly when `page > 1` |
| Service.GetProducts | src/products/products.service.ts:14-85 | for each variant, 200 `Products`; at most `limit` rows, each in the table and matching that variant's filter, sorted by the sort keys |
| Service.HasNextPageIff | src/products/products.service.ts:80 | `page < page_count` holds exactly when `page * limit < count` |
| Service.ListingCounts | src/products/products.service.ts:14-85 | the count is the number of matching rows; the page holds as many rows as remain after `(page-1)*limit`, up to `limit`; the page count and both flags follow from them |
| Service.NextPageContinues | src/products/products.service.ts:63-85 | page n followed by page n + 1 is the single fetch of both: paging neither repeats nor skips a matching row |
| Service.SinglePageListsAll | src/products/products.service.ts:63-85 | a first page with room for every match lists exactly the matching products of the table, once per row |
| Service.PastLastPage | src/products/products.service.ts:74-84 | a page past the last one is empty and has no next page |
| Service.FirstOfTenPages | src/__test__/unit/product.service.test.ts:45-76 | 100 rows, 10 per page, page 1: 10 pages, no previous page, a next page |
| Service.EmptyNameMatchesAll | src/products/products.service.ts:19-24 | an empty name filter would match every row anyway, so skipping it loses nothing |
| Service.ZeroLowBoundListsPricierProducts | src/products/products.service.ts:52-57 | as written, bounds 0..200 let a product priced above 200 through; the corrected filter excludes it |
| Service.ListedWithinPriceRange | src/products/products.service.ts:52-57 | corrected filter only: with bounds given, every listed row is within them, 0 bounds included |
| Service.ZeroBoundCountsPricierProducts | src/products/products.service.ts:52-57 | a whole listing with bounds 0 and 200 over a table holding a product above 200: as written the count is the whole table; corrected it is smaller |
| Service.CreateThenGet | src/__test__/unit/product.service.test.ts:27-39 | a created product is read back under its new id |
| Service.DeleteThenGet | src/__test__/unit/product.service.test.ts:123-141 | after a delete, reading or deleting the same id is `NotFound` |
| Service.UpdateIdempotent | src/products/products.service.ts:99-109 | applying the same update twice is the same as once |
| Service.EmptyPatchKeepsRow | src/products/products.service.ts:99-109 | the empty update leaves the table as it was |
| Service.ApplyPatch | src/products/products.service.ts:99-106 | the updated row: each supplied field takes its new value, each omitted one keeps the old, a `null` description is cleared, and the id and creation time never change |
| Service.CreateKeepsStoreValid | src/products/products.service.ts:7-12 | for each variant, creating from input validated under it keeps every row meeting that variant's guarantee and filed under its id; as written the guarantee is only trimmed text and a category of at most 20 units |
| Service.UpdateKeepsStoreValid | src/products/products.service.ts:99-109 | for each variant, updating with a patch validated under it keeps every row meeting that variant's guarantee |
| Service.DeleteKeepsStoreValid | src/products/products.service.ts:111-121 | for each variant, deleting keeps every row meeting that variant's guarantee |
| Controller.Reply | src/products/products.controller.ts:15-23 | a result is sent as HTTP 200 with the envelope unchanged; an error is passed on unchanged and nothing is sent |
| Controller.ReplyWritten | src/products/products.controller.ts:34-41 | the same, and the table changes only when the operation succeeds |
| Controller.CreateProductHandler | src/products/products.controller.ts:6-13 | the error is passed on exactly when the generated id is taken, and then nothing is written |
| Controller.GetProductsHandler | src/products/products.controller.ts:15-23 | a listing is always sent and nothing is written |
| Controller.GetProductHandler | src/products/products.controller.ts:25-32 | nothing is written; the error is passed on exactly when the id is missing |
| Controller.UpdateProductHandler | src/products/products.controller.ts:34-41 | the error is passed on exactly when the id is missing, and then nothing is written |
| Controller.DeleteProductHandler | src/products/products.controller.ts:43-50 | the error is passed on exactly when the id is missing, and then nothing is written |
| Controller.CreateAnswers200With201Envelope | src/products/products.controller.ts:9 | a successful create answers HTTP 200 while its envelope says 201 |
| Router.Params | src/products/products.router.ts:341-343 | `req.params` holds `id` exactly on `/:id` paths, with the path segment as text |
| Router.FindRoute | src/products/products.router.ts:338-343 | the first route registered for the method and path shape, or none when no route has them |
| Router.RouteTableShape | src/products/products.router.ts:338-343 | every route ends with validation and then its controller; exactly the routes that write start with `basicAuth`, and only there |
| Router.RoutesSelected | src/products/products.router.ts:338-343 | each of the five method/path pairs selects its own route; `POST /:id`, collection `PATCH` and collection `DELETE` select none |
| Router.ParseWith | src/common/middlewares/validation.middleware.ts:8-12 | this project's schemas either parse or report issues; they never throw anything else |
| Router.RunChain | src/products/products.router.ts:338-343 | a chain with no writing controller leaves the table alone |
| Router.Finish | src/common/middlewares/error.middleware.ts:39-48 | a passed-on error is answered by `errorHandler`; the table is the controller's |
| Router.Serve | src/products/products.router.ts:338-343 | a `GET` never changes the table |
| Router.AllowedPassesOn | src/common/middlewares/basic-auth.middleware.ts:33 | a passing Authorization check hands the request on unchanged |
| Router.ParsedPassesOn | src/common/middlewares/validation.middleware.ts:13-17 | accepted input goes on to the next middleware, parsed |
| Router.RejectedEnds | src/common/middlewares/validation.middleware.ts:19-21 | rejected input ends the chain with 400 and the joined messages, and nothing is written |
| Router.UnauthenticatedWriteRejected | src/products/products.router.ts:338-343 | on the routes that write, a failed Authorization check gives 401 with its message whatever the body, and nothing is written: authentication comes before validation |
| Router.UnroutedNotFound | src/common/middlewares/not-found.middleware.ts:4-6 | a method/path pair no route serves gets 404 `Route does not exist` |
| Router.InvalidCreateBody | src/products/products.router.ts:338 | an authenticated create whose body the schema as written rejects gets 400 with the issue messages, and nothing is written |
| Router.ReadById | src/products/products.router.ts:341 | `GET /:id` with UUID text, without authentication: 200 with the row, or 404 `Product not found` |
| Router.ListProducts | src/products/products.router.ts:339 | `GET` on the collection, without authentication: 200 with the as-written listing for the validated query (a 0 bound drops the price filter), or 400 with the query's issues |
| Router.DeleteById | src/products/products.router.ts:343 | authenticated `DELETE /:id`: the row removed and 200, or 404 with nothing written |
| Router.UpdateById | src/products/products.router.ts:342 | authenticated `PATCH /:id` with a body the schema as written accepts: the patched row stored and sent, or 404 with nothing written |
| Router.CreateOnce | src/products/products.router.ts:338 | authenticated `POST` with a body the schema as written accepts and a free id: the new row stored, HTTP 200 with the 201 envelope |
| Router.CreateThenRead | src/products/products.router.ts:338-341 | a product created through the router is read back through it |

## Left out

- Rate limiting, `helmet`, the JSON body parser, Swagger documentation,
  the `/` health route and process start-up are not modelled. They are
  wiring and I/O around the pipeline.
- `console.log` calls are not modelled. They do not affect responses.
- Prisma's database access is a function of the table. There is no
  concurrency, no connection failure and no transaction. The only
  database error modelled is a generated id that is already taken.
- Base64 decoding, the UUID and timestamp the database generates, and
  the table's physical row order are parameters, not computed.
- Prices are mathematical reals, not IEEE doubles, so zod's `.finite()`
  check can never fail and is not modelled. Rounding is not modelled
  either.
- Numbers.ParseNumber: only decimal text is covered: an optional sign,
  digits and an optional fraction, surrounded by whitespace. Exponents,
  hexadecimal/octal/binary prefixes and `Infinity` are treated as not a
  number. Its contract states only the blank-text and sign facts. The
  decimal round trip is a separate lemma.
- Numbers.ParseNumber: the text is read as an exact decimal, with no
  rounding to the nearest double and no overflow to `Infinity`.
  JavaScript reads `page=1.0000000000000001` as 1 and accepts it, while
  the model rejects it as not whole. A 310-digit `limit` is `Infinity` in
  JavaScript and fails `.int()`, while the model accepts it.
- Orders.CompareString: text sorts by code point, not by the database's
  collation. Under an `en_US` collation `"B"` sorts after `"a"`, while
  here it sorts before. Sorting by `category` or `name` may therefore
  order rows differently from a real database.
- Text.Lower: the case-insensitive comparison is a per-character ASCII
  fold. The database's collation rules are not modelled.
- Router.Serve: only the product router and the catch-all 404 are
  modelled. The contract states only that a read never writes; the
  per-route lemmas carry the rest.
- Router.RunChain: if a controller is reached without parsed input, it
  is modelled as throwing. The route table never does this.
- Controller.GetProductsHandler: the status and body of the response are
  stated by `Service.GetProducts` and `Router.ListProducts`, not by this
  member's own contract.
- Persistence.FindMany: its own contract does not say which rows form the
  page. `Persistence.PagesAdjacent` and `Persistence.WholeFetch` state that.
- Persistence.FindManySize: states only how many rows the fetch holds.
  Which rows they are is stated by `Persistence.PagesAdjacent` and
  `Persistence.WholeFetch`.
- Service.GetProducts: its own contract does not say which rows form the
  page. `Service.NextPageContinues` and `Service.SinglePageListsAll` state
  that.
- Service.ListingCounts: states only how many rows the page holds. Which
  rows they are is stated by `Service.NextPageContinues` and
  `Service.SinglePageListsAll`.
- Service.ListedWithinPriceRange: holds only for the `Corrected` filter.
  As written, a 0 bound lists rows outside the range, as
  `Service.ZeroBoundCountsPricierProducts` shows.
- Service.CreateKeepsStoreValid: as written, a stored name may be shorter
  than 3 characters and a category shorter than 3, because the schemas
  bound the untrimmed text. Only trimming and the 20-unit category cap
  are kept.
- Service.UpdateKeepsStoreValid: as written, keeps only trimmed text and
  the 20-unit category cap, for the reason above.
- Persistence.PagesAdjacent: holds because both fetches read the rows in
  the same physical order (one `scan`). PostgreSQL promises no order
  among rows equal on every sort key, `created_at` included, and two
  queries with different offsets may see ties differently. Then one row
  can appear on two pages and another on none. The lemma assumes the
  order stays the same between requests.
- Service.NextPageContinues: relies on the same assumption as
  `Persistence.PagesAdjacent`, because the two pages are two requests.
  `Service.SinglePageListsAll` and `Persistence.PagesInOrder` hold
  whatever the order of ties.
- Router.Serve: a request body is a JSON object (`map<string, Value>`).
  `express.json()` also accepts an array body, which zod then rejects with
  400 `Expected object, received array`. Such a request cannot be
  represented.
- Router.Serve: only `POST`, `GET`, `PATCH` and `DELETE` requests are
  modelled. Express also sends `HEAD` to the `GET` handlers and answers
  other methods such as `PUT` or `OPTIONS` itself or through the
  catch-all 404. None of these can be represented.
- Service.Paginate: `has_next_page` is stated by `Service.HasNextPageIff`,
  not by this member's own contract.
- `updated_at` and any other column beyond the seven the service reads
  and writes are not modelled.

## Findings

| source | as written | input that shows it | evidently intended | confidence | as-written member | corrected member |
|---|---|---|---|---|---|---|
| src/products/products.service.ts:52-57 | the price filter is added only when both bounds are truthy, so a bound of `0`, which the query schema accepts, drops the filter | `low_price_range=0&high_price_range=200` lists a product priced 300 | filter whenever both bounds are present | high, not executed | QueryBuilder.PriceWhereAsWritten | QueryBuilder.PriceWhere |
| src/products/dto/create-product.dto.ts:9-10 | `.min(3)` runs before `.trim()`, so the bound applies to the untrimmed text and a shorter trimmed name is stored | name `"  a "` is accepted and stored as `"a"` | at least 3 characters after trimming | medium, not executed | ProductFields.NameChainAsWritten | ProductFields.NameChain |
| src/products/dto/create-product.dto.ts:36-38 | `.min(3).max(20)` run before `.trim()`, so a category of fewer than 3 characters after trimming is stored | category `" ab"` is accepted and stored as `"ab"` | 3 to 20 characters after trimming | medium, not executed | ProductFields.CategoryChainAsWritten | ProductFields.CategoryChain |

The counterexamples are proved by `Service.ZeroLowBoundListsPricierProducts`,
`ProductFields.NameBoundBeforeTrim` and
`ProductFields.CategoryBoundsBeforeTrim`. They are also proved on whole
requests by `CreateProductDto.PaddedNameCreated`,
`UpdateProductDto.PaddedNamePatched` and
`Service.ZeroBoundCountsPricierProducts`. The update schema has the same
trim ordering at src/products/dto/update-product.dto.ts:8-9 and 36-38.

The pipeline does not use the corrected definitions. The router and the
controllers run the `AsWritten` variant, as the repository does. The
corrected chains and filter are the `Corrected` variant of the same
compositions. The intended properties are proved for that variant only:
the stored-name and stored-category guarantees of `ValidateCreate`,
`ValidateUpdate` and the `Keeps...StoreValid` lemmas, and
`Service.ListedWithinPriceRange`.
