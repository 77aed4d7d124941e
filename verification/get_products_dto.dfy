/** `GetProductsSchema`: the query string of a list request, coerced from
    text into a typed `ListQuery`. */
module GetProductsDto {
  import opened Wrappers
  import opened Text
  import opened Numbers
  import opened Schema

  datatype Direction = Asc | Desc

  /** A validated list query. */
  datatype ListQuery = ListQuery(
    page: nat,
    limit: nat,
    name: Option<string>,
    sortByCategory: Option<Direction>,
    sortByName: Option<Direction>,
    sortByQuantity: Option<Direction>,
    sortByPrice: Option<Direction>,
    lowPrice: Option<real>,
    highPrice: Option<real>)

  /** What every accepted list query satisfies. */
  predicate WellFormedQuery(q: ListQuery) {
    && q.page >= 1
    && q.limit >= 1
    && (q.lowPrice.Some? <==> q.highPrice.Some?)
    && (q.lowPrice.Some? ==> 0.0 <= q.lowPrice.value <= q.highPrice.value)
  }

  /** A list query that validation can produce. */
  type ValidQuery = q: ListQuery | WellFormedQuery(q) witness ListQuery(1, 1, None, None, None, None, None, None, None)

  const DefaultPage := 1
  const DefaultLimit := 10

  const PagePath: seq<string> := ["query", "page"]
  const LimitPath: seq<string> := ["query", "limit"]
  const NamePath: seq<string> := ["query", "name"]
  const SortCategoryPath: seq<string> := ["query", "sort_by_category"]
  const SortNamePath: seq<string> := ["query", "sort_by_name"]
  const SortQuantityPath: seq<string> := ["query", "sort_by_quantity"]
  const SortPricePath: seq<string> := ["query", "sort_by_price"]
  const LowPricePath: seq<string> := ["query", "low_price_range"]
  const HighPricePath: seq<string> := ["query", "high_price_range"]

  const PageNotNumber := "Page must be a valid number"
  const PageNotInteger := "Page must be an integer"
  const PageTooSmall := "Page must be at least 1"
  const LimitNotNumber := "Limit must be a valid number"
  const LimitNotInteger := "Limit must be an integer"
  const LimitTooSmall := "Limit must be at least 1"
  const NameNotText := "Name must be a string"
  const SortCategoryMessage := "Sorting by Category must be either \"asc\" or \"desc\""
  const SortNameMessage := "Sorting by Name must be either \"asc\" or \"desc\" "
  const SortQuantityMessage := "Sorting by Quantity must be either \"asc\" or \"desc\" "
  const SortPriceMessage := "Sorting by Price must be either \"asc\" or \"desc\" "
  const PriceNotText := "Price must be a string representation of a number"
  const LowPriceNotNumber := "Low price must be a valid number"
  const LowPriceNegative := "Low price cannot be negative"
  const HighPriceNotNumber := "High price must be a valid number"
  const HighPriceNegative := "High price cannot be negative"
  const BoundsTogether := "Both low_price_range and high_price_range must be provided together"
  const BoundsOrdered := "low_price_range must be less than or equal to high_price_range"

  /** zod's default message when a `z.string()` gets something else. */
  function ExpectedString(v: Value): string {
    "Expected string, received " + TypeName(v)
  }

  /** A page or limit parameter that coerces to a whole number of at least 1. */
  predicate AcceptableCount(v: Option<Value>) {
    v.None? || (v.value.Str? && var x := ParseNumber(v.value.s); x.Some? && IsInteger(x.value) && x.value >= 1.0)
  }

  /** `z.string().pipe(z.coerce.number().int().min(1)).default(fallback)`:
      the number the text coerces to, after every failed check is reported. */
  function CountParam(v: Option<Value>, fallback: nat, path: seq<string>, notNumber: string, notInteger: string, tooSmall: string): (r: Parsed<real>)
    requires fallback >= 1
    ensures r.WellFormed()
    ensures r.Valid? <==> AcceptableCount(v)
    ensures r.Valid? ==> IsInteger(r.value) && r.value >= 1.0
    ensures v.None? ==> r == Valid(fallback as real)
    ensures v.Some? && r.Valid? ==> ParseNumber(v.value.s) == Some(r.value)
  {
    match v
    case None => Valid(fallback as real)
    case Some(Str(s)) =>
      (match ParseNumber(s)
       case None => Aborted([Issue(path, notNumber)])
       case Some(x) => Checked(x, IssueIf(!IsInteger(x), path, notInteger) + IssueIf(x < 1.0, path, tooSmall)))
    case Some(other) => Aborted([Issue(path, ExpectedString(other))])
  }

  /** `z.string().optional()` on the name filter: passed on as it is. */
  function NameParam(v: Option<Value>): (r: Parsed<Option<string>>)
    ensures r.WellFormed() && !r.Dirty?
    ensures r.Valid? <==> v.None? || v.value.Str?
    ensures r.Valid? ==> (r.value.Some? <==> v.Some?)
    ensures r.Valid? && v.Some? ==> r.value.value == v.value.s
  {
    match v
    case None => Valid(None)
    case Some(Str(s)) => Valid(Some(s))
    case Some(_) => Aborted([Issue(NamePath, NameNotText)])
  }

  /** A sort direction parameter that is absent, "asc" or "desc". */
  predicate AcceptableSort(v: Option<Value>) {
    v.None? || v.value == Str("asc") || v.value == Str("desc")
  }

  /** `z.enum(['asc', 'desc']).optional()`. */
  function SortParam(v: Option<Value>, path: seq<string>, message: string): (r: Parsed<Option<Direction>>)
    ensures r.WellFormed() && !r.Dirty?
    ensures r.Valid? <==> AcceptableSort(v)
    ensures r.Valid? ==> (r.value == Some(Asc) <==> v == Some(Str("asc")))
    ensures r.Valid? ==> (r.value == Some(Desc) <==> v == Some(Str("desc")))
    ensures r.Aborted? ==> r.issues == [Issue(path, message)]
  {
    match v
    case None => Valid(None)
    case Some(Str(s)) =>
      if s == "asc" then Valid(Some(Asc))
      else if s == "desc" then Valid(Some(Desc))
      else Aborted([Issue(path, message)])
    case Some(_) => Aborted([Issue(path, message)])
  }

  /** A price bound parameter that is absent or coerces to a number of at least 0. */
  predicate AcceptableBound(v: Option<Value>) {
    v.None? || (v.value.Str? && var x := ParseNumber(v.value.s); x.Some? && x.value >= 0.0)
  }

  /** The number a present bound coerces to. */
  function BoundOf(v: Option<Value>): Option<real> {
    if v.Some? && v.value.Str? then ParseNumber(v.value.s) else None
  }

  /** `z.string().pipe(z.coerce.number().min(0)).optional()`. */
  function BoundParam(v: Option<Value>, path: seq<string>, notNumber: string, negative: string): (r: Parsed<Option<real>>)
    ensures r.WellFormed()
    ensures r.Valid? <==> AcceptableBound(v)
    ensures !r.Aborted? ==> r.value == BoundOf(v)
    ensures r.Aborted? <==> v.Some? && BoundOf(v).None?
  {
    match v
    case None => Valid(None)
    case Some(Str(s)) =>
      (match ParseNumber(s)
       case None => Aborted([Issue(path, notNumber)])
       case Some(x) => Checked(Some(x), IssueIf(x < 0.0, path, negative)))
    case Some(_) => Aborted([Issue(path, PriceNotText)])
  }

  /** The outcome of every field of the query object, in declaration order. */
  datatype QueryFields = QueryFields(
    page: Parsed<real>,
    limit: Parsed<real>,
    name: Parsed<Option<string>>,
    sortByCategory: Parsed<Option<Direction>>,
    sortByName: Parsed<Option<Direction>>,
    sortByQuantity: Parsed<Option<Direction>>,
    sortByPrice: Parsed<Option<Direction>>,
    lowPrice: Parsed<Option<real>>,
    highPrice: Parsed<Option<real>>)
  {
    predicate AnyAborted() {
      page.Aborted? || limit.Aborted? || name.Aborted? || sortByCategory.Aborted? || sortByName.Aborted?
      || sortByQuantity.Aborted? || sortByPrice.Aborted? || lowPrice.Aborted? || highPrice.Aborted?
    }

    predicate AllValid() {
      page.Valid? && limit.Valid? && name.Valid? && sortByCategory.Valid? && sortByName.Valid?
      && sortByQuantity.Valid? && sortByPrice.Valid? && lowPrice.Valid? && highPrice.Valid?
    }

    function Issues(): seq<Issue> {
      page.Issues() + limit.Issues() + name.Issues() + sortByCategory.Issues() + sortByName.Issues()
      + sortByQuantity.Issues() + sortByPrice.Issues() + lowPrice.Issues() + highPrice.Issues()
    }
  }

  function ParseFields(query: map<string, Value>): QueryFields {
    QueryFields(
      CountParam(Field(query, "page"), DefaultPage, PagePath, PageNotNumber, PageNotInteger, PageTooSmall),
      CountParam(Field(query, "limit"), DefaultLimit, LimitPath, LimitNotNumber, LimitNotInteger, LimitTooSmall),
      NameParam(Field(query, "name")),
      SortParam(Field(query, "sort_by_category"), SortCategoryPath, SortCategoryMessage),
      SortParam(Field(query, "sort_by_name"), SortNamePath, SortNameMessage),
      SortParam(Field(query, "sort_by_quantity"), SortQuantityPath, SortQuantityMessage),
      SortParam(Field(query, "sort_by_price"), SortPricePath, SortPriceMessage),
      BoundParam(Field(query, "low_price_range"), LowPricePath, LowPriceNotNumber, LowPriceNegative),
      BoundParam(Field(query, "high_price_range"), HighPricePath, HighPriceNotNumber, HighPriceNegative))
  }

  /** The two refinements on the query object: the bounds come together,
      and the low one does not exceed the high one. */
  function RefinementIssues(low: Option<real>, high: Option<real>): (r: seq<Issue>)
    ensures r == [] <==> (low.Some? <==> high.Some?) && (low.Some? && high.Some? ==> low.value <= high.value)
    ensures low.Some? != high.Some? ==> r == [Issue(HighPricePath, BoundsTogether)]
    ensures low.Some? && high.Some? && low.value > high.value ==> r == [Issue(LowPricePath, BoundsOrdered)]
  {
    IssueIf(low.Some? != high.Some?, HighPricePath, BoundsTogether)
    + IssueIf(low.Some? && high.Some? && low.value > high.value, LowPricePath, BoundsOrdered)
  }

  /** Every parameter other than the price bounds is acceptable on its own. */
  predicate AcceptableNonPriceFields(query: map<string, Value>) {
    && AcceptableCount(Field(query, "page"))
    && AcceptableCount(Field(query, "limit"))
    && ("name" in query ==> query["name"].Str?)
    && AcceptableSort(Field(query, "sort_by_category"))
    && AcceptableSort(Field(query, "sort_by_name"))
    && AcceptableSort(Field(query, "sort_by_quantity"))
    && AcceptableSort(Field(query, "sort_by_price"))
  }

  /** The query strings the schema accepts, stated key by key on the raw input. */
  predicate AcceptableListQuery(query: map<string, Value>) {
    && AcceptableNonPriceFields(query)
    && AcceptableBound(Field(query, "low_price_range"))
    && AcceptableBound(Field(query, "high_price_range"))
    && ("low_price_range" in query <==> "high_price_range" in query)
    && ("low_price_range" in query ==>
          BoundOf(Field(query, "low_price_range")).value <= BoundOf(Field(query, "high_price_range")).value)
  }

  /** `GetProductsSchema.parse` on the query: a typed query, or every issue
      found. Field issues come first, in declaration order; the two
      refinements run only when no field was rejected outright, and they
      see values that failed a bound. */
  function ValidateListQuery(query: map<string, Value>): (r: Result<ListQuery, seq<Issue>>)
    ensures r.Ok? <==> AcceptableListQuery(query)
    ensures r.Err? ==> r.error != []
    ensures r.Ok? ==> WellFormedQuery(r.value)
  {
    var f := ParseFields(query);
    if f.AnyAborted() then
      Err(f.Issues())
    else
      var issues := f.Issues() + RefinementIssues(f.lowPrice.value, f.highPrice.value);
      if issues != [] then
        Err(issues)
      else
        Ok(ListQuery(
          Whole(f.page.value), Whole(f.limit.value), f.name.value,
          f.sortByCategory.value, f.sortByName.value, f.sortByQuantity.value, f.sortByPrice.value,
          f.lowPrice.value, f.highPrice.value))
  }

  /** An accepted query keeps what was sent, with 1 and 10 for an omitted
      page and limit. */
  lemma ListQueryKeepsValues(query: map<string, Value>)
    requires ValidateListQuery(query).Ok?
    ensures var q := ValidateListQuery(query).value;
            && ("page" !in query ==> q.page == DefaultPage)
            && ("limit" !in query ==> q.limit == DefaultLimit)
            && ("page" in query ==> ParseNumber(query["page"].s) == Some(q.page as real))
            && ("limit" in query ==> ParseNumber(query["limit"].s) == Some(q.limit as real))
            && (q.name.Some? <==> "name" in query)
            && ("name" in query ==> q.name.value == query["name"].s)
            && q.lowPrice == BoundOf(Field(query, "low_price_range"))
            && q.highPrice == BoundOf(Field(query, "high_price_range"))
  {
  }

  /** One price bound without the other is refused with the single
      "provided together" issue, reported on `high_price_range`. */
  lemma OneBoundAlone(query: map<string, Value>)
    requires AcceptableNonPriceFields(query)
    requires AcceptableBound(Field(query, "low_price_range")) && AcceptableBound(Field(query, "high_price_range"))
    requires ("low_price_range" in query) != ("high_price_range" in query)
    ensures ValidateListQuery(query) == Err([Issue(HighPricePath, BoundsTogether)])
  {
    var f := ParseFields(query);
    assert f.AllValid();
    assert f.Issues() == [];
    assert !f.AnyAborted();
    assert f.lowPrice.value.Some? != f.highPrice.value.Some?;
    assert RefinementIssues(f.lowPrice.value, f.highPrice.value) == [Issue(HighPricePath, BoundsTogether)];
    assert f.Issues() + RefinementIssues(f.lowPrice.value, f.highPrice.value) == [Issue(HighPricePath, BoundsTogether)];
  }

  /** A low bound above the high bound is refused with the single ordering
      issue, reported on `low_price_range`. */
  lemma BoundsOutOfOrder(query: map<string, Value>)
    requires AcceptableNonPriceFields(query)
    requires AcceptableBound(Field(query, "low_price_range")) && AcceptableBound(Field(query, "high_price_range"))
    requires "low_price_range" in query && "high_price_range" in query
    requires BoundOf(Field(query, "low_price_range")).value > BoundOf(Field(query, "high_price_range")).value
    ensures ValidateListQuery(query) == Err([Issue(LowPricePath, BoundsOrdered)])
  {
    var f := ParseFields(query);
    assert f.AllValid() && f.Issues() == [];
  }

  /** With every other parameter acceptable, only the price bounds can
      contribute issues. */
  lemma OnlyBoundsReport(query: map<string, Value>)
    requires AcceptableNonPriceFields(query)
    ensures var f := ParseFields(query);
            && f.Issues() == f.lowPrice.Issues() + f.highPrice.Issues()
            && (f.AnyAborted() <==> f.lowPrice.Aborted? || f.highPrice.Aborted?)
  {
    var f := ParseFields(query);
    assert f.page.Valid? && f.limit.Valid? && f.name.Valid?;
    assert f.sortByCategory.Valid? && f.sortByName.Valid? && f.sortByQuantity.Valid? && f.sortByPrice.Valid?;
    BoundsIssuesOnly(f);
  }

  lemma BoundsIssuesOnly(f: QueryFields)
    requires f.page.Valid? && f.limit.Valid? && f.name.Valid?
    requires f.sortByCategory.Valid? && f.sortByName.Valid? && f.sortByQuantity.Valid? && f.sortByPrice.Valid?
    ensures f.Issues() == f.lowPrice.Issues() + f.highPrice.Issues()
    ensures f.AnyAborted() <==> f.lowPrice.Aborted? || f.highPrice.Aborted?
  {
    var none: seq<Issue> := [];
    assert f.page.Issues() == none && f.limit.Issues() == none && f.name.Issues() == none;
    assert f.sortByCategory.Issues() == none && f.sortByName.Issues() == none;
    assert f.sortByQuantity.Issues() == none && f.sortByPrice.Issues() == none;
    assert none + none + none + none + none + none + none == none;
  }

  /** A bound that is not a number rejects its field outright, so the
      refinements do not run: a lone unreadable low bound reports only
      that it is not a number. */
  lemma RejectedBoundSkipsRefinements(query: map<string, Value>)
    requires AcceptableNonPriceFields(query)
    requires "low_price_range" in query && query["low_price_range"].Str?
    requires ParseNumber(query["low_price_range"].s).None?
    requires "high_price_range" !in query
    ensures ValidateListQuery(query) == Err([Issue(LowPricePath, LowPriceNotNumber)])
  {
    var f := ParseFields(query);
    OnlyBoundsReport(query);
    assert f.lowPrice == Aborted([Issue(LowPricePath, LowPriceNotNumber)]);
    assert f.highPrice == Valid(None);
    assert f.Issues() == [Issue(LowPricePath, LowPriceNotNumber)];
  }

  /** A negative bound only marks its field, so the refinements still run
      on it: a negative high bound below the low bound reports both. */
  lemma RefinementsSeeNegativeBound(query: map<string, Value>)
    requires AcceptableNonPriceFields(query)
    requires AcceptableBound(Field(query, "low_price_range"))
    requires "low_price_range" in query && "high_price_range" in query && query["high_price_range"].Str?
    requires ParseNumber(query["high_price_range"].s).Some? && ParseNumber(query["high_price_range"].s).value < 0.0
    ensures ValidateListQuery(query) == Err([Issue(HighPricePath, HighPriceNegative), Issue(LowPricePath, BoundsOrdered)])
  {
    var f := ParseFields(query);
    OnlyBoundsReport(query);
    assert f.lowPrice.Valid?;
    var high := ParseNumber(query["high_price_range"].s).value;
    var hn := Issue(HighPricePath, HighPriceNegative);
    var bo := Issue(LowPricePath, BoundsOrdered);
    assert f.highPrice == Dirty(Some(high), [hn]);
    assert !f.AnyAborted();
    var a := f.Issues();
    assert a == [hn];
    assert f.lowPrice.value.value > high;
    var b := RefinementIssues(f.lowPrice.value, f.highPrice.value);
    assert b == [bo];
    assert [hn] + [bo] == [hn, bo];
  }
}
