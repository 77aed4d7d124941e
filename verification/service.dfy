/** The five service operations over the product table. Each returns the
    response envelope (and, when it writes, the new table) or the error it
    throws. The database's id generator and clock are parameters. */
module Service {
  import opened Wrappers
  import opened Text
  import opened Numbers
  import opened ProductFields
  import opened Products
  import opened CreateProductDto
  import opened UpdateProductDto
  import opened GetProductsDto
  import opened QueryBuilder
  import opened Persistence
  import opened Responses
  import opened Errors

  const ProductCreated := "Product created"
  const ProductsListed := "Products"
  const ProductFound := "Product found"
  const ProductUpdated := "Product updated"
  const ProductDeleted := "Product deleted successfully"
  const ProductMissing := "Product not found"
  /** What the database reports when a generated id is already taken. */
  const DuplicateKey := "Unique constraint failed on the fields: (`id`)"

  /** The reply of an operation that writes, with the table after it. */
  datatype Written = Written(envelope: Envelope, store: Store)

  /** The row `create` inserts. */
  function NewProduct(input: CreateInput, id: Id, now: Timestamp): Product {
    Product(id, input.name, input.price, input.description, input.quantity, input.category, now)
  }

  /** `createProduct`: insert a row under the id the database generates. */
  function CreateProduct(store: Store, input: CreateInput, freshId: Id, now: Timestamp): (r: Result<Written, AppError>)
    ensures r.Err? <==> freshId in store
    ensures r.Err? ==> r.error.Other?
    ensures r.Ok? ==> && r.value.envelope.status == CreatedStatus
                      && r.value.envelope.message == ProductCreated
                      && r.value.store.Keys == store.Keys + {freshId}
                      && r.value.envelope.data == One(r.value.store[freshId])
                      && (forall k :: k in store ==> r.value.store[k] == store[k])
  {
    if freshId in store then Err(Other(DuplicateKey))
    else
      var p := NewProduct(input, freshId, now);
      Ok(Written(ResponseFormat(CreatedStatus, ProductCreated, One(p)), store[freshId := p]))
  }

  /** `getProduct`: the row with that id, or `NotFound`. */
  function GetProduct(store: Store, id: Id): (r: Result<Envelope, AppError>)
    ensures r.Err? <==> id !in store
    ensures r.Err? ==> r.error == NotFound(ProductMissing)
    ensures r.Ok? ==> r.value == Envelope(OkStatus, ProductFound, One(store[id]))
  {
    if id in store then Ok(ResponseFormat(OkStatus, ProductFound, One(store[id])))
    else Err(NotFound(ProductMissing))
  }

  /** The row after an update: supplied fields replaced, the rest kept. */
  function ApplyPatch(p: Product, patch: Patch): (q: Product)
    ensures q.id == p.id && q.createdAt == p.createdAt
    ensures q.name == (if patch.name.Some? then patch.name.value else p.name)
    ensures q.price == (if patch.price.Some? then patch.price.value else p.price)
    ensures q.quantity == (if patch.quantity.Some? then patch.quantity.value else p.quantity)
    ensures q.category == (if patch.category.Some? then patch.category.value else p.category)
    ensures q.description == match patch.description
                             case Omitted => p.description
                             case Cleared => None
                             case Given(t) => Some(t)
  {
    Product(
      p.id,
      if patch.name.Some? then patch.name.value else p.name,
      if patch.price.Some? then patch.price.value else p.price,
      match patch.description
      case Omitted => p.description
      case Cleared => None
      case Given(t) => Some(t),
      if patch.quantity.Some? then patch.quantity.value else p.quantity,
      if patch.category.Some? then patch.category.value else p.category,
      p.createdAt)
  }

  /** `updateProduct`: look the row up first, then write the patch. */
  function UpdateProduct(store: Store, id: Id, patch: Patch): (r: Result<Written, AppError>)
    ensures r.Err? <==> id !in store
    ensures r.Err? ==> r.error == NotFound(ProductMissing)
    ensures r.Ok? ==> && r.value.store.Keys == store.Keys
                      && r.value.store[id] == ApplyPatch(store[id], patch)
                      && (forall k :: k in store && k != id ==> r.value.store[k] == store[k])
                      && r.value.envelope == Envelope(OkStatus, ProductUpdated, One(r.value.store[id]))
  {
    match GetProduct(store, id)
    case Err(e) => Err(e)
    case Ok(_) =>
      var q := ApplyPatch(store[id], patch);
      Ok(Written(ResponseFormat(OkStatus, ProductUpdated, One(q)), store[id := q]))
  }

  /** `deleteProduct`: look the row up first, then remove it. */
  function DeleteProduct(store: Store, id: Id): (r: Result<Written, AppError>)
    ensures r.Err? <==> id !in store
    ensures r.Err? ==> r.error == NotFound(ProductMissing)
    ensures r.Ok? ==> && r.value.store.Keys == store.Keys - {id}
                      && (forall k :: k in r.value.store ==> r.value.store[k] == store[k])
                      && r.value.envelope == Envelope(OkStatus, ProductDeleted, NoData)
  {
    match GetProduct(store, id)
    case Err(e) => Err(e)
    case Ok(_) => Ok(Written(ResponseFormat(OkStatus, ProductDeleted), store - {id}))
  }

  /** `page_count`, `has_previous_page` and `has_next_page`. */
  function Paginate(products: seq<Product>, count: nat, page: nat, limit: nat): (l: Listing)
    requires limit >= 1
    ensures l.products == products && l.count == count && l.page == page
    ensures l.pageCount * limit >= count && (l.pageCount == 0 || (l.pageCount - 1) * limit < count)
    ensures l.hasPreviousPage <==> page > 1
  {
    var pageCount := CeilDiv(count, limit);
    Listing(products, count, page, pageCount, page > 1, page < pageCount)
  }

  /** `getProducts`: one page of the matching rows, with the total count.
      The repository's service is `GetProducts(AsWritten, _, _, _)`. */
  function GetProducts(variant: Variant, store: Store, scan: seq<Id>, q: ListQuery): (e: Envelope)
    requires Enumerates(scan, store)
    requires WellFormedQuery(q)
    ensures e.status == OkStatus && e.message == ProductsListed && e.data.Page?
    ensures forall p :: p in e.data.listing.products ==> p in store.Values && Matches(BuildWhere(variant, q), p)
    ensures Sorted(BuildOrderBy(q), e.data.listing.products)
    ensures |e.data.listing.products| <= q.limit
  {
    var plan := BuildPlan(variant, q);
    var count := Count(store, scan, plan.where);
    var products := FindMany(store, scan, plan);
    ResponseFormat(OkStatus, ProductsListed, Page(Paginate(products, count, q.page, q.limit)))
  }

  /** `has_next_page` holds exactly when rows remain after this page. */
  lemma HasNextPageIff(products: seq<Product>, count: nat, page: nat, limit: nat)
    requires limit >= 1
    ensures Paginate(products, count, page, limit).hasNextPage <==> page * limit < count
  {
    var n := CeilDiv(count, limit);
    assert Paginate(products, count, page, limit).hasNextPage == (page < n);
    if page < n {
      MulMonotone(page, n - 1, limit);
    } else {
      MulMonotone(n, page, limit);
    }
  }

  lemma MulMonotone(a: nat, b: nat, c: nat)
    requires a <= b
    ensures a * c <= b * c
  {
    var d := b - a;
    assert b * c == a * c + d * c;
  }

  /** The listing's count is the number of matching products, its page
      holds every remaining row up to `limit`, and `has_next_page` says
      whether rows remain after it. */
  lemma ListingCounts(variant: Variant, store: Store, scan: seq<Id>, q: ListQuery)
    requires Enumerates(scan, store)
    requires WellFormedQuery(q)
    ensures var l := GetProducts(variant, store, scan, q).data.listing;
            var skip := (q.page - 1) * q.limit;
            && l.count == |set k | k in store && Matches(BuildWhere(variant, q), store[k])|
            && |l.products| == (if skip >= l.count then 0 else if q.limit < l.count - skip then q.limit else l.count - skip)
            && l.pageCount == CeilDiv(l.count, q.limit)
            && (l.hasPreviousPage <==> q.page > 1)
            && (l.hasNextPage <==> q.page * q.limit < l.count)
  {
    var plan := BuildPlan(variant, q);
    var count := Count(store, scan, plan.where);
    var products := FindMany(store, scan, plan);
    assert GetProducts(variant, store, scan, q).data.listing == Paginate(products, count, q.page, q.limit);
    FindManySize(store, scan, plan);
    HasNextPageIff(products, count, q.page, q.limit);
  }

  /** Page `n` followed by page `n + 1` is the fetch of both pages at once:
      paging neither repeats nor skips a matching row. */
  lemma NextPageContinues(variant: Variant, store: Store, scan: seq<Id>, q: ListQuery)
    requires Enumerates(scan, store)
    requires WellFormedQuery(q)
    ensures GetProducts(variant, store, scan, q).data.listing.products
              + GetProducts(variant, store, scan, q.(page := q.page + 1)).data.listing.products
            == FindMany(store, scan, BuildPlan(variant, q).(take := 2 * q.limit))
  {
    var plan := BuildPlan(variant, q);
    assert q.page * q.limit == (q.page - 1) * q.limit + q.limit;
    assert BuildPlan(variant, q.(page := q.page + 1)) == plan.(skip := plan.skip + plan.take, take := q.limit);
    PagesAdjacent(store, scan, plan, q.limit);
  }

  /** A first page with room for every match lists each matching product
      of the table once per row holding it, and nothing else. */
  lemma SinglePageListsAll(variant: Variant, store: Store, scan: seq<Id>, q: ListQuery)
    requires Enumerates(scan, store)
    requires WellFormedQuery(q)
    requires q.page == 1 && q.limit >= |set k | k in store && Matches(BuildWhere(variant, q), store[k])|
    ensures var products := GetProducts(variant, store, scan, q).data.listing.products;
            && multiset(products) == multiset(Filter(BuildWhere(variant, q), Rows(store, scan)))
            && forall p :: p in products <==> p in store.Values && Matches(BuildWhere(variant, q), p)
  {
    var plan := BuildPlan(variant, q);
    WholeFetch(store, scan, plan);
  }

  /** A page past the last one is empty and has no next page. */
  lemma PastLastPage(variant: Variant, store: Store, scan: seq<Id>, q: ListQuery)
    requires Enumerates(scan, store)
    requires WellFormedQuery(q)
    requires q.page > GetProducts(variant, store, scan, q).data.listing.pageCount
    ensures GetProducts(variant, store, scan, q).data.listing.products == []
    ensures !GetProducts(variant, store, scan, q).data.listing.hasNextPage
  {
    ListingCounts(variant, store, scan, q);
    EmptyPastEnd(GetProducts(variant, store, scan, q).data.listing, q.page, q.limit);
  }

  /** The arithmetic behind `PastLastPage`. */
  lemma EmptyPastEnd(l: Listing, page: nat, limit: nat)
    requires limit >= 1 && page > l.pageCount && l.pageCount == CeilDiv(l.count, limit)
    requires var skip := (page - 1) * limit;
             |l.products| == (if skip >= l.count then 0 else if limit < l.count - skip then limit else l.count - skip)
    requires l.hasNextPage <==> page * limit < l.count
    ensures l.products == [] && !l.hasNextPage
  {
    MulMonotone(l.pageCount, page - 1, limit);
    MulMonotone(page - 1, page, limit);
  }

  /** 100 matching rows, 10 per page, first page: ten pages, no previous
      page, a next page. */
  lemma FirstOfTenPages(products: seq<Product>)
    ensures var l := Paginate(products, 100, 1, 10);
            l.pageCount == 10 && !l.hasPreviousPage && l.hasNextPage
  {
    var l := Paginate(products, 100, 1, 10);
    assert l.pageCount * 10 >= 100 && (l.pageCount == 0 || (l.pageCount - 1) * 10 < 100);
  }

  /** An empty name filter would match every row anyway, so dropping it
      on `!!name` loses nothing. */
  lemma EmptyNameMatchesAll(price: Option<PriceRange>, p: Product)
    ensures Matches(Where(Some(""), price), p) == Matches(Where(None, price), p)
  {
    assert Contains(Lower(p.name), []);
  }

  /** As written, a low bound of 0 switches the price filter off, so a
      product outside the requested range passes it. */
  lemma ZeroLowBoundListsPricierProducts(p: Product)
    requires p.price > 200.0
    ensures Matches(Where(None, PriceWhereAsWritten(Some(0.0), Some(200.0))), p)
    ensures !Matches(Where(None, PriceWhere(Some(0.0), Some(200.0))), p)
  {
  }

  /** Under the corrected filter every row of a listing lies in the
      requested price range, 0 bounds included. */
  lemma ListedWithinPriceRange(store: Store, scan: seq<Id>, q: ListQuery)
    requires Enumerates(scan, store)
    requires WellFormedQuery(q)
    requires q.lowPrice.Some?
    ensures forall p :: p in GetProducts(Corrected, store, scan, q).data.listing.products ==> q.lowPrice.value <= p.price <= q.highPrice.value
  {
  }

  /** On a whole listing: asking for prices 0 to 200 counts every product
      as written, and leaves out a product dearer than 200 once
      corrected. */
  lemma ZeroBoundCountsPricierProducts(store: Store, scan: seq<Id>, q: ListQuery, k: Id)
    requires Enumerates(scan, store)
    requires WellFormedQuery(q)
    requires q.name.None? && q.lowPrice == Some(0.0) && q.highPrice == Some(200.0)
    requires k in store && store[k].price > 200.0
    ensures GetProducts(AsWritten, store, scan, q).data.listing.count == |store|
    ensures GetProducts(Corrected, store, scan, q).data.listing.count < |store|
  {
    assert BuildWhere(AsWritten, q) == Where(None, None);
    assert BuildWhere(Corrected, q) == Where(None, Some(PriceRange(0.0, 200.0)));
    ListingCounts(AsWritten, store, scan, q);
    ListingCounts(Corrected, store, scan, q);
    FilterDropsOne(store, BuildWhere(AsWritten, q), BuildWhere(Corrected, q), k);
  }

  /** A filter every row passes counts the whole table; one that some row
      fails counts fewer. */
  lemma FilterDropsOne(store: Store, all: Where, some: Where, k: Id)
    requires forall j :: j in store ==> Matches(all, store[j])
    requires k in store && !Matches(some, store[k])
    ensures |set j | j in store && Matches(all, store[j])| == |store|
    ensures |set j | j in store && Matches(some, store[j])| < |store|
  {
    assert (set j | j in store && Matches(all, store[j])) == store.Keys;
    var kept := set j | j in store && Matches(some, store[j]);
    assert kept <= store.Keys - {k};
    SubsetSize(kept, store.Keys - {k});
  }

  lemma {:induction false} SubsetSize<T>(a: set<T>, b: set<T>)
    requires a <= b
    ensures |a| <= |b|
    decreases |b|
  {
    if b != {} {
      var x :| x in b;
      SubsetSize(a - {x}, b - {x});
    }
  }

  /** A created product can be read back under its new id. */
  lemma CreateThenGet(store: Store, input: CreateInput, freshId: Id, now: Timestamp)
    requires freshId !in store
    ensures var w := CreateProduct(store, input, freshId, now).value;
            GetProduct(w.store, freshId) == Ok(Envelope(OkStatus, ProductFound, One(NewProduct(input, freshId, now))))
  {
  }

  /** Deleting removes the row: a second read or delete is `NotFound`. */
  lemma DeleteThenGet(store: Store, id: Id)
    requires id in store
    ensures var w := DeleteProduct(store, id).value;
            GetProduct(w.store, id) == Err(NotFound(ProductMissing))
            && DeleteProduct(w.store, id) == Err(NotFound(ProductMissing))
  {
  }

  /** Updating with the same patch twice is the same as once. */
  lemma UpdateIdempotent(store: Store, id: Id, patch: Patch)
    requires id in store
    ensures var w := UpdateProduct(store, id, patch).value;
            UpdateProduct(w.store, id, patch).value.store == w.store
  {
    var w := UpdateProduct(store, id, patch).value;
    var w2 := UpdateProduct(w.store, id, patch).value;
    assert ApplyPatch(ApplyPatch(store[id], patch), patch) == ApplyPatch(store[id], patch);
    assert w2.store == w.store;
  }

  /** The body that changes nothing leaves the row as it was. */
  lemma EmptyPatchKeepsRow(store: Store, id: Id)
    requires id in store
    ensures UpdateProduct(store, id, EmptyPatch).value.store == store
  {
    assert ApplyPatch(store[id], EmptyPatch) == store[id];
  }

  /** Validated writes keep every row valid. */
  lemma CreateKeepsStoreValid(variant: Variant, store: Store, input: CreateInput, freshId: Id, now: Timestamp)
    requires ValidStore(variant, store) && ValidInput(variant, input) && freshId !in store
    ensures ValidStore(variant, CreateProduct(store, input, freshId, now).value.store)
  {
  }

  lemma UpdateKeepsStoreValid(variant: Variant, store: Store, id: Id, patch: Patch)
    requires ValidStore(variant, store) && ValidPatch(variant, patch) && id in store
    ensures ValidStore(variant, UpdateProduct(store, id, patch).value.store)
  {
  }

  lemma DeleteKeepsStoreValid(variant: Variant, store: Store, id: Id)
    requires ValidStore(variant, store) && id in store
    ensures ValidStore(variant, DeleteProduct(store, id).value.store)
  {
  }
}
