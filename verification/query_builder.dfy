/** The first half of `getProducts`: a validated list query becomes a
    filter, an ordered list of sort keys and a pagination window. */
module QueryBuilder {
  import opened Wrappers
  import opened GetProductsDto
  import opened ProductFields

  /** The columns a list can be ordered by. */
  datatype Column = CategoryColumn | NameColumn | QuantityColumn | PriceColumn | CreatedAtColumn

  datatype SortKey = SortKey(column: Column, direction: Direction)

  /** `price >= low AND price <= high`. */
  datatype PriceRange = PriceRange(low: real, high: real)

  /** The `where` object: a case-insensitive name substring and a price range, each optional. */
  datatype Where = Where(nameContains: Option<string>, price: Option<PriceRange>)

  /** What `getProducts` asks of the database: the filter shared by the
      count and the fetch, the ordering, and the window of the fetch. */
  datatype Plan = Plan(where: Where, orderBy: seq<SortKey>, take: nat, skip: nat)

  /** The key every ordering ends with: newest first. */
  const Tiebreak := SortKey(CreatedAtColumn, Desc)

  /** The columns a query may ask to sort by, in the order they are applied. */
  const SortableColumns: seq<Column> := [CategoryColumn, NameColumn, QuantityColumn, PriceColumn]

  /** A column's place in the fixed order of sort keys. */
  function Rank(c: Column): nat {
    match c
    case CategoryColumn => 0
    case NameColumn => 1
    case QuantityColumn => 2
    case PriceColumn => 3
    case CreatedAtColumn => 4
  }

  /** The direction the query asks for on column `c`, if any. */
  function Requested(q: ListQuery, c: Column): Option<Direction> {
    match c
    case CategoryColumn => q.sortByCategory
    case NameColumn => q.sortByName
    case QuantityColumn => q.sortByQuantity
    case PriceColumn => q.sortByPrice
    case CreatedAtColumn => None
  }

  /** Reference ordering: the requested keys among `columns`, in the order of `columns`. */
  function RequestedKeys(q: ListQuery, columns: seq<Column>): seq<SortKey> {
    if columns == [] then []
    else
      var c := columns[0];
      (if Requested(q, c).Some? then [SortKey(c, Requested(q, c).value)] else []) + RequestedKeys(q, columns[1..])
  }

  /** The key pushed for one `sort_by_*` parameter, if it is set. */
  function Push(keys: seq<SortKey>, c: Column, d: Option<Direction>): seq<SortKey> {
    if d.Some? then keys + [SortKey(c, d.value)] else keys
  }

  /** `keys` are requested keys in strictly increasing column rank, all
      below `bound`. */
  predicate RankedRequests(q: ListQuery, keys: seq<SortKey>, bound: nat) {
    && (forall i, j :: 0 <= i < j < |keys| ==> Rank(keys[i].column) < Rank(keys[j].column))
    && (forall i :: 0 <= i < |keys| ==> Rank(keys[i].column) < bound && Requested(q, keys[i].column) == Some(keys[i].direction))
  }

  /** Every column ranked below `bound` that the query sorts by has its key in `keys`. */
  predicate Covers(q: ListQuery, keys: seq<SortKey>, bound: nat) {
    forall c :: Rank(c) < bound && Requested(q, c).Some? ==> SortKey(c, Requested(q, c).value) in keys
  }

  /** Pushing the next column keeps the keys ranked and covering. */
  lemma PushRanked(q: ListQuery, keys: seq<SortKey>, c: Column)
    requires RankedRequests(q, keys, Rank(c)) && Covers(q, keys, Rank(c))
    ensures RankedRequests(q, Push(keys, c, Requested(q, c)), Rank(c) + 1)
    ensures Covers(q, Push(keys, c, Requested(q, c)), Rank(c) + 1)
  {
    var r := Push(keys, c, Requested(q, c));
    assert forall i :: 0 <= i < |keys| ==> r[i] == keys[i];
    forall c' | Rank(c') < Rank(c) + 1 && Requested(q, c').Some?
      ensures SortKey(c', Requested(q, c').value) in r
    {
      if Rank(c') == Rank(c) {
        assert c' == c;
        assert r[|r| - 1] == SortKey(c, Requested(q, c).value);
      }
    }
  }

  /** `orderBy` as `getProducts` builds it: category, name, quantity and
      price keys for the parameters that are set, then newest first. */
  function BuildOrderBy(q: ListQuery): (keys: seq<SortKey>)
    ensures |keys| >= 1 && keys[|keys| - 1] == Tiebreak
    ensures forall i, j :: 0 <= i < j < |keys| ==> Rank(keys[i].column) < Rank(keys[j].column)
    ensures forall i :: 0 <= i < |keys| - 1 ==> Requested(q, keys[i].column) == Some(keys[i].direction)
    ensures forall c :: Requested(q, c).Some? ==> SortKey(c, Requested(q, c).value) in keys
  {
    var k1 := Push([], CategoryColumn, q.sortByCategory);
    PushRanked(q, [], CategoryColumn);
    var k2 := Push(k1, NameColumn, q.sortByName);
    PushRanked(q, k1, NameColumn);
    var k3 := Push(k2, QuantityColumn, q.sortByQuantity);
    PushRanked(q, k2, QuantityColumn);
    var k4 := Push(k3, PriceColumn, q.sortByPrice);
    PushRanked(q, k3, PriceColumn);
    OrderEndsWithTiebreak(q, k4);
    k4 + [Tiebreak]
  }

  /** Ranked, covering requested keys followed by the tiebreak meet the
      ordering's contract. */
  lemma OrderEndsWithTiebreak(q: ListQuery, keys: seq<SortKey>)
    requires RankedRequests(q, keys, 4) && Covers(q, keys, 4)
    ensures var r := keys + [Tiebreak];
            && (forall i, j :: 0 <= i < j < |r| ==> Rank(r[i].column) < Rank(r[j].column))
            && (forall i :: 0 <= i < |r| - 1 ==> Requested(q, r[i].column) == Some(r[i].direction))
            && (forall c :: Requested(q, c).Some? ==> SortKey(c, Requested(q, c).value) in r)
  {
    var r := keys + [Tiebreak];
    assert forall i :: 0 <= i < |keys| ==> r[i] == keys[i];
    forall c | Requested(q, c).Some?
      ensures SortKey(c, Requested(q, c).value) in r
    {
      assert Rank(c) < 4;
    }
  }

  /** The ordering is the requested keys in the fixed column order,
      followed by exactly one newest-first key. */
  lemma OrderByIsRequestedThenTiebreak(q: ListQuery)
    ensures BuildOrderBy(q) == RequestedKeys(q, SortableColumns) + [Tiebreak]
  {
    var c1 := [CategoryColumn];
    var c2 := c1 + [NameColumn];
    var c3 := c2 + [QuantityColumn];
    var c4 := c3 + [PriceColumn];
    assert c1 == [] + [CategoryColumn];
    RequestedKeysSnoc(q, [], CategoryColumn);
    RequestedKeysSnoc(q, c1, NameColumn);
    RequestedKeysSnoc(q, c2, QuantityColumn);
    RequestedKeysSnoc(q, c3, PriceColumn);
    assert c4 == SortableColumns;
  }

  /** Adding a column at the end of the reference list pushes its key. */
  lemma {:induction false} RequestedKeysSnoc(q: ListQuery, cs: seq<Column>, c: Column)
    ensures RequestedKeys(q, cs + [c]) == Push(RequestedKeys(q, cs), c, Requested(q, c))
    decreases |cs|
  {
    if cs == [] {
      assert ([] + [c])[1..] == [];
    } else {
      assert (cs + [c])[1..] == cs[1..] + [c];
      RequestedKeysSnoc(q, cs[1..], c);
    }
  }

  /** A query with no sort parameter is ordered newest first only. */
  lemma DefaultOrderIsNewestFirst(q: ListQuery)
    requires q.sortByCategory.None? && q.sortByName.None? && q.sortByQuantity.None? && q.sortByPrice.None?
    ensures BuildOrderBy(q) == [Tiebreak]
  {
  }

  /** `!!query.name`: an absent or empty name adds no constraint. */
  function NameWhere(name: Option<string>): (r: Option<string>)
    ensures r.Some? <==> name.Some? && name.value != ""
    ensures r.Some? ==> r == name
  {
    if name.Some? && name.value != "" then name else None
  }

  /** `!!low && !!high` as `getProducts` writes it: a bound of 0 is falsy,
      so it switches the price filter off. */
  function PriceWhereAsWritten(low: Option<real>, high: Option<real>): (r: Option<PriceRange>)
    ensures r.Some? <==> low.Some? && high.Some? && low.value != 0.0 && high.value != 0.0
    ensures r.Some? ==> r.value == PriceRange(low.value, high.value)
  {
    if low.Some? && high.Some? && low.value != 0.0 && high.value != 0.0 then Some(PriceRange(low.value, high.value))
    else None
  }

  /** The price filter whenever both bounds are given, 0 included. */
  function PriceWhere(low: Option<real>, high: Option<real>): (r: Option<PriceRange>)
    ensures r.Some? <==> low.Some? && high.Some?
    ensures r.Some? ==> r.value == PriceRange(low.value, high.value)
  {
    if low.Some? && high.Some? then Some(PriceRange(low.value, high.value)) else None
  }

  /** The price filter of the given variant. */
  function PriceField(variant: Variant, low: Option<real>, high: Option<real>): (r: Option<PriceRange>)
    ensures r.Some? <==> low.Some? && high.Some? && (variant == AsWritten ==> low.value != 0.0 && high.value != 0.0)
    ensures r.Some? ==> r.value == PriceRange(low.value, high.value)
  {
    if variant == AsWritten then PriceWhereAsWritten(low, high) else PriceWhere(low, high)
  }

  /** The `where` object of a list query; the repository builds
      `BuildWhere(AsWritten, _)`. */
  function BuildWhere(variant: Variant, q: ListQuery): (w: Where)
    ensures w.nameContains.Some? <==> q.name.Some? && q.name.value != ""
    ensures w.nameContains.Some? ==> w.nameContains.value == q.name.value
    ensures w.price.Some? <==> q.lowPrice.Some? && q.highPrice.Some?
                               && (variant == AsWritten ==> q.lowPrice.value != 0.0 && q.highPrice.value != 0.0)
    ensures w.price.Some? ==> w.price.value == PriceRange(q.lowPrice.value, q.highPrice.value)
  {
    Where(NameWhere(q.name), PriceField(variant, q.lowPrice, q.highPrice))
  }

  /** Rows skipped before the requested page. */
  function Skip(page: nat, limit: nat): (n: nat)
    requires page >= 1
    ensures page == 1 ==> n == 0
    ensures n + limit == page * limit
  {
    (page - 1) * limit
  }

  /** Both database reads of `getProducts`. */
  function BuildPlan(variant: Variant, q: ListQuery): (p: Plan)
    requires WellFormedQuery(q)
    ensures p.where == BuildWhere(variant, q) && p.orderBy == BuildOrderBy(q)
    ensures p.take == q.limit && p.skip == (q.page - 1) * q.limit
    ensures p.skip + p.take == q.page * q.limit
  {
    Plan(BuildWhere(variant, q), BuildOrderBy(q), q.limit, Skip(q.page, q.limit))
  }
}
