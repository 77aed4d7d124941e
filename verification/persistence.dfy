/** The database as `getProducts` uses it: `count` and `findMany` over the
    product table. Rows are filtered by a `where` object, ordered by a list
    of sort keys (the first key on which two rows differ decides), and cut
    to a window. */
module Persistence {
  import opened Wrappers
  import opened Orders
  import opened Text
  import opened Products
  import opened GetProductsDto
  import opened QueryBuilder

  /** Whether a row satisfies the filter. */
  predicate Matches(w: Where, p: Product) {
    && (w.nameContains.Some? ==> ContainsInsensitive(p.name, w.nameContains.value))
    && (w.price.Some? ==> w.price.value.low <= p.price <= w.price.value.high)
  }

  /** A column's value in one row. */
  datatype KeyValue = TextKey(text: string) | NumberKey(number: real)

  function ColumnValue(c: Column, p: Product): KeyValue {
    match c
    case CategoryColumn => TextKey(p.category)
    case NameColumn => TextKey(p.name)
    case QuantityColumn => NumberKey(p.quantity as real)
    case PriceColumn => NumberKey(p.price)
    case CreatedAtColumn => NumberKey(p.createdAt as real)
  }

  function CompareValues(x: KeyValue, y: KeyValue): Ordering {
    match (x, y)
    case (TextKey(s), TextKey(t)) => CompareString(s, t)
    case (NumberKey(m), NumberKey(n)) => CompareReal(m, n)
    case (TextKey(_), NumberKey(_)) => Less
    case (NumberKey(_), TextKey(_)) => Greater
  }

  lemma CompareValuesFlip(x: KeyValue, y: KeyValue)
    ensures CompareValues(y, x) == CompareValues(x, y).Flip()
  {
    if x.TextKey? && y.TextKey? {
      CompareStringFlip(x.text, y.text);
    }
  }

  lemma CompareValuesTrans(x: KeyValue, y: KeyValue, z: KeyValue)
    requires CompareValues(x, y) != Greater && CompareValues(y, z) != Greater
    ensures CompareValues(x, z) != Greater
    ensures CompareValues(x, z) == Same ==> CompareValues(x, y) == Same && CompareValues(y, z) == Same
  {
    if x.TextKey? && y.TextKey? && z.TextKey? {
      CompareStringTrans(x.text, y.text, z.text);
    }
  }

  /** One sort key: ascending compares the column values, descending the other way round. */
  function CompareKey(k: SortKey, a: Product, b: Product): Ordering {
    if k.direction == Asc then CompareValues(ColumnValue(k.column, a), ColumnValue(k.column, b))
    else CompareValues(ColumnValue(k.column, b), ColumnValue(k.column, a))
  }

  /** The order of two rows under a key list: the first key on which they differ decides. */
  function CompareRows(keys: seq<SortKey>, a: Product, b: Product): Ordering {
    if keys == [] then Same
    else
      var o := CompareKey(keys[0], a, b);
      if o != Same then o else CompareRows(keys[1..], a, b)
  }

  lemma {:induction false} CompareRowsFlip(keys: seq<SortKey>, a: Product, b: Product)
    ensures CompareRows(keys, b, a) == CompareRows(keys, a, b).Flip()
  {
    if keys != [] {
      var k := keys[0];
      CompareValuesFlip(ColumnValue(k.column, a), ColumnValue(k.column, b));
      CompareRowsFlip(keys[1..], a, b);
    }
  }

  lemma {:induction false} CompareRowsTrans(keys: seq<SortKey>, a: Product, b: Product, c: Product)
    requires CompareRows(keys, a, b) != Greater && CompareRows(keys, b, c) != Greater
    ensures CompareRows(keys, a, c) != Greater
  {
    if keys != [] {
      var k := keys[0];
      var (va, vb, vc) := (ColumnValue(k.column, a), ColumnValue(k.column, b), ColumnValue(k.column, c));
      if k.direction == Asc {
        CompareValuesTrans(va, vb, vc);
      } else {
        CompareValuesTrans(vc, vb, va);
      }
      if CompareKey(k, a, b) == Same && CompareKey(k, b, c) == Same {
        CompareRowsTrans(keys[1..], a, b, c);
      }
    }
  }

  /** `a` may come before `b`. */
  predicate InOrder(keys: seq<SortKey>, a: Product, b: Product) {
    CompareRows(keys, a, b) != Greater
  }

  /** Each row may come before the next. */
  predicate Sorted(keys: seq<SortKey>, rows: seq<Product>) {
    forall i :: 0 <= i < |rows| - 1 ==> InOrder(keys, rows[i], rows[i + 1])
  }

  /** In a sorted list every row may come before every later row. */
  lemma {:induction false} SortedInOrder(keys: seq<SortKey>, rows: seq<Product>, i: nat, j: nat)
    requires Sorted(keys, rows)
    requires i < j < |rows|
    ensures InOrder(keys, rows[i], rows[j])
    decreases j - i
  {
    if i + 1 < j {
      SortedInOrder(keys, rows, i + 1, j);
      CompareRowsTrans(keys, rows[i], rows[i + 1], rows[j]);
    }
  }

  /** `x` placed before the first row it may precede. */
  function Insert(keys: seq<SortKey>, x: Product, rows: seq<Product>): (r: seq<Product>)
    requires Sorted(keys, rows)
    ensures Sorted(keys, r)
    ensures multiset(r) == multiset(rows) + multiset{x}
    ensures |r| == |rows| + 1 && (r[0] == x || (rows != [] && r[0] == rows[0]))
  {
    if rows == [] || InOrder(keys, x, rows[0]) then
      [x] + rows
    else
      CompareRowsFlip(keys, x, rows[0]);
      var tail := Insert(keys, x, rows[1..]);
      assert rows == [rows[0]] + rows[1..];
      [rows[0]] + tail
  }

  /** A stable insertion sort: rows that tie on every key keep their order. */
  function Sort(keys: seq<SortKey>, rows: seq<Product>): (r: seq<Product>)
    ensures Sorted(keys, r)
    ensures multiset(r) == multiset(rows)
  {
    if rows == [] then []
    else
      assert rows == [rows[0]] + rows[1..];
      Insert(keys, rows[0], Sort(keys, rows[1..]))
  }

  /** The rows that satisfy the filter, in their original order. */
  function Filter(w: Where, rows: seq<Product>): (r: seq<Product>)
    ensures |r| <= |rows|
    ensures forall p :: p in r <==> p in rows && Matches(w, p)
  {
    if rows == [] then []
    else (if Matches(w, rows[0]) then [rows[0]] else []) + Filter(w, rows[1..])
  }

  /** `skip` rows dropped, then at most `take` rows kept. */
  function Window(rows: seq<Product>, skip: nat, take: nat): (r: seq<Product>)
    ensures |r| == if skip >= |rows| then 0 else if take < |rows| - skip then take else |rows| - skip
    ensures forall i :: 0 <= i < |r| ==> r[i] == rows[skip + i]
  {
    if skip >= |rows| then []
    else if take < |rows| - skip then rows[skip..skip + take]
    else rows[skip..]
  }

  /** A window of a sorted list is sorted and holds only rows of the list. */
  lemma WindowKeeps(keys: seq<SortKey>, rows: seq<Product>, skip: nat, take: nat)
    requires Sorted(keys, rows)
    ensures Sorted(keys, Window(rows, skip, take))
    ensures forall p :: p in Window(rows, skip, take) ==> p in multiset(rows)
  {
    var r := Window(rows, skip, take);
    forall i | 0 <= i < |r| - 1
      ensures InOrder(keys, r[i], r[i + 1])
    {
      assert r[i] == rows[skip + i] && r[i + 1] == rows[skip + i + 1];
    }
    forall p | p in r
      ensures p in multiset(rows)
    {
      var i :| 0 <= i < |r| && r[i] == p;
      assert rows[skip + i] == p;
    }
  }

  /** `scan` lists every key of the store exactly once: the order in which
      the database reads the table. */
  predicate Enumerates(scan: seq<Id>, store: Store) {
    && (forall i :: 0 <= i < |scan| ==> scan[i] in store)
    && (forall k :: k in store ==> k in scan)
    && (forall i, j :: 0 <= i < j < |scan| ==> scan[i] != scan[j])
  }

  /** The table's rows in scan order. */
  function Rows(store: Store, scan: seq<Id>): (rows: seq<Product>)
    requires forall i :: 0 <= i < |scan| ==> scan[i] in store
    ensures |rows| == |scan|
    ensures forall i :: 0 <= i < |scan| ==> rows[i] == store[scan[i]]
  {
    if scan == [] then [] else [store[scan[0]]] + Rows(store, scan[1..])
  }

  lemma RowsInStore(store: Store, scan: seq<Id>)
    requires forall i :: 0 <= i < |scan| ==> scan[i] in store
    ensures forall p :: p in Rows(store, scan) ==> p in store.Values
  {
    forall p | p in Rows(store, scan)
      ensures p in store.Values
    {
      var i :| 0 <= i < |scan| && Rows(store, scan)[i] == p;
      assert store[scan[i]] == p;
    }
  }

  /** `count({where})`: the number of products in the table that satisfy
      the filter. */
  function Count(store: Store, scan: seq<Id>, w: Where): (n: nat)
    requires Enumerates(scan, store)
    ensures n == |set k | k in store && Matches(w, store[k])|
  {
    FilterCountsKeys(store, scan, w);
    assert MatchingKeys(store, scan, w) == set k | k in store && Matches(w, store[k]);
    |Filter(w, Rows(store, scan))|
  }

  /** `findMany({where, orderBy, take, skip})`. */
  function FindMany(store: Store, scan: seq<Id>, plan: Plan): (r: seq<Product>)
    requires Enumerates(scan, store)
    ensures |r| <= plan.take
    ensures forall p :: p in r ==> p in store.Values && Matches(plan.where, p)
    ensures Sorted(plan.orderBy, r)
  {
    var rows := Rows(store, scan);
    var filtered := Filter(plan.where, rows);
    var all := Sort(plan.orderBy, filtered);
    WindowKeeps(plan.orderBy, all, plan.skip, plan.take);
    assert forall p :: p in multiset(all) ==> p in multiset(filtered);
    RowsInStore(store, scan);
    Window(all, plan.skip, plan.take)
  }

  /** The keys of matching rows among the first keys of a scan. */
  function MatchingKeys(store: Store, scan: seq<Id>, w: Where): set<Id>
    requires forall i :: 0 <= i < |scan| ==> scan[i] in store
  {
    set k | k in scan && Matches(w, store[k])
  }

  /** Filtering a duplicate-free scan keeps one row per matching key. */
  lemma {:induction false} FilterCountsKeys(store: Store, scan: seq<Id>, w: Where)
    requires forall i :: 0 <= i < |scan| ==> scan[i] in store
    requires forall i, j :: 0 <= i < j < |scan| ==> scan[i] != scan[j]
    ensures |Filter(w, Rows(store, scan))| == |MatchingKeys(store, scan, w)|
  {
    if scan != [] {
      var k := scan[0];
      var rest := scan[1..];
      FilterCountsKeys(store, rest, w);
      var rows := Rows(store, scan);
      assert rows[0] == store[k] && rows[1..] == Rows(store, rest);
      assert k !in rest;
      ScanKeysSplit(store, scan, w);
    }
  }

  /** The matching keys of a scan are its first key, when it matches, and
      the matching keys of the rest. */
  lemma ScanKeysSplit(store: Store, scan: seq<Id>, w: Where)
    requires forall i :: 0 <= i < |scan| ==> scan[i] in store
    requires scan != []
    ensures MatchingKeys(store, scan, w)
            == (if Matches(w, store[scan[0]]) then {scan[0]} else {}) + MatchingKeys(store, scan[1..], w)
  {
    assert forall x :: x in scan <==> x == scan[0] || x in scan[1..] by {
      assert scan == [scan[0]] + scan[1..];
    }
  }

  /** The fetch is the part of the sorted matching rows the window selects,
      so it holds exactly as many rows as remain after `skip`, up to `take`. */
  lemma FindManySize(store: Store, scan: seq<Id>, plan: Plan)
    requires Enumerates(scan, store)
    ensures var n := Count(store, scan, plan.where);
            |FindMany(store, scan, plan)| == if plan.skip >= n then 0 else if plan.take < n - plan.skip then plan.take else n - plan.skip
  {
    var filtered := Filter(plan.where, Rows(store, scan));
    assert |multiset(Sort(plan.orderBy, filtered))| == |multiset(filtered)|;
  }

  /** Two windows side by side are one window over both. */
  lemma WindowsAdjacent(rows: seq<Product>, skip: nat, a: nat, b: nat)
    ensures Window(rows, skip, a) + Window(rows, skip + a, b) == Window(rows, skip, a + b)
  {
    var (x, y, z) := (Window(rows, skip, a), Window(rows, skip + a, b), Window(rows, skip, a + b));
    assert |x + y| == |z|;
    forall i | 0 <= i < |z|
      ensures (x + y)[i] == z[i]
    {
      if i >= |x| {
        assert (x + y)[i] == y[i - a];
      }
    }
  }

  /** A fetch followed by the fetch that starts where it stops is one
      longer fetch: consecutive pages neither repeat nor skip a row. */
  lemma PagesAdjacent(store: Store, scan: seq<Id>, plan: Plan, more: nat)
    requires Enumerates(scan, store)
    ensures FindMany(store, scan, plan) + FindMany(store, scan, plan.(skip := plan.skip + plan.take, take := more))
            == FindMany(store, scan, plan.(take := plan.take + more))
  {
    WindowsAdjacent(Sort(plan.orderBy, Filter(plan.where, Rows(store, scan))), plan.skip, plan.take, more);
  }

  /** A fetch from the start with room for every match holds each matching
      row of the table, as many times as the table holds it, and nothing
      else. */
  lemma WholeFetch(store: Store, scan: seq<Id>, plan: Plan)
    requires Enumerates(scan, store)
    requires plan.skip == 0 && plan.take >= Count(store, scan, plan.where)
    ensures multiset(FindMany(store, scan, plan)) == multiset(Filter(plan.where, Rows(store, scan)))
    ensures forall p :: p in FindMany(store, scan, plan) <==> p in store.Values && Matches(plan.where, p)
  {
    var rows := Rows(store, scan);
    var filtered := Filter(plan.where, rows);
    var all := Sort(plan.orderBy, filtered);
    assert |all| == |filtered| by {
      assert |multiset(all)| == |multiset(filtered)|;
    }
    assert FindMany(store, scan, plan) == all;
    forall p | p in store.Values && Matches(plan.where, p)
      ensures p in all
    {
      var k :| k in store && store[k] == p;
      var i :| 0 <= i < |scan| && scan[i] == k;
      assert rows[i] == p;
      assert p in multiset(filtered);
    }
  }

  /** A row of the fetch comes no earlier than any row of a later fetch
      with the same filter and ordering: pages do not overlap out of order. */
  lemma PagesInOrder(store: Store, scan: seq<Id>, plan: Plan, laterSkip: nat, i: nat, j: nat)
    requires Enumerates(scan, store)
    requires plan.skip + plan.take <= laterSkip
    requires i < |FindMany(store, scan, plan)|
    requires j < |FindMany(store, scan, plan.(skip := laterSkip))|
    ensures InOrder(plan.orderBy, FindMany(store, scan, plan)[i], FindMany(store, scan, plan.(skip := laterSkip))[j])
  {
    var all := Sort(plan.orderBy, Filter(plan.where, Rows(store, scan)));
    assert FindMany(store, scan, plan)[i] == all[plan.skip + i];
    assert FindMany(store, scan, plan.(skip := laterSkip))[j] == all[laterSkip + j];
    SortedInOrder(plan.orderBy, all, plan.skip + i, laterSkip + j);
  }
}
