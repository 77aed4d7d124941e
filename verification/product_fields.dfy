/** The field rules the create and update body schemas share: a product's
    name, price, description, quantity and category. */
module ProductFields {
  import opened Wrappers
  import opened Text
  import opened Numbers
  import opened Schema

  const NamePath: seq<string> := ["body", "name"]
  const PricePath: seq<string> := ["body", "price"]
  const DescriptionPath: seq<string> := ["body", "description"]
  const QuantityPath: seq<string> := ["body", "quantity"]
  const CategoryPath: seq<string> := ["body", "category"]

  const NameNotText := "Product name must be a text string"
  const NameTooShort := "Product name must be at least 3 characters long"
  const PriceNotNumber := "Price must be a valid number"
  const PriceNotPositive := "Price must be a positive number"
  const PriceBelowMinimum := "Price must be at least 100 naira"
  const DescriptionNotText := "Description must be a text string"
  const QuantityNotNumber := "Quantity must be a valid number"
  const QuantityNotWhole := "Quantity must be a whole number"
  const QuantityNotPositive := "Quantity must be greater than zero"
  const CategoryNotText := "Category must be a text string"
  const CategoryTooShort := "Category name must be at least 3 characters long"
  const CategoryTooLong := "Category name cannot exceed 20 characters"

  /** The least accepted price, in naira. */
  const MinPrice: real := 100.0

  /** A product name as it should be stored: trimmed, at least 3 characters. */
  predicate GoodName(s: string) {
    IsTrimmed(s) && Utf16Length(s) >= 3
  }

  /** A category as it should be stored: trimmed, 3 to 20 characters. */
  predicate GoodCategory(s: string) {
    IsTrimmed(s) && 3 <= Utf16Length(s) <= 20
  }

  /** `z.string().min(3).trim()` as the schemas chain it: the length bound
      is checked on the text as sent, and the trimmed text is kept. */
  function NameChainAsWritten(v: Value): (r: Parsed<string>)
    ensures r.WellFormed()
    ensures r.Aborted? <==> !v.Str?
    ensures r.Valid? <==> v.Str? && Utf16Length(v.s) >= 3
    ensures v.Str? ==> r.value == Trim(v.s)
  {
    match v
    case Str(s) => Checked(Trim(s), IssueIf(Utf16Length(s) < 3, NamePath, NameTooShort))
    case _ => Aborted([Issue(NamePath, NameNotText)])
  }

  /** The name rule with the bound on the trimmed text, so that every
      accepted name is a good stored name. */
  function NameChain(v: Value): (r: Parsed<string>)
    ensures r.WellFormed()
    ensures r.Aborted? <==> !v.Str?
    ensures r.Valid? <==> v.Str? && Utf16Length(Trim(v.s)) >= 3
    ensures r.Valid? ==> GoodName(r.value)
    ensures v.Str? ==> r.value == Trim(v.s)
  {
    match v
    case Str(s) =>
      var t := Trim(s);
      Checked(t, IssueIf(Utf16Length(t) < 3, NamePath, NameTooShort))
    case _ => Aborted([Issue(NamePath, NameNotText)])
  }

  /** Trimming two spaces, a letter and a space leaves the letter. */
  lemma TrimPaddedName(x: char)
    requires !IsSpace(x)
    ensures Trim([' ', ' ', x, ' ']) == [x]
  {
    assert IsTrimmed([x]);
    TrimBeforeSpace([x], ' ');
    assert [x, ' '] == [x] + [' '];
    TrimDropsLeadingSpace(' ', [x, ' ']);
    assert [' ', x, ' '] == [' '] + [x, ' '];
    TrimDropsLeadingSpace(' ', [' ', x, ' ']);
    assert [' ', ' ', x, ' '] == [' '] + [' ', x, ' '];
  }

  /** A name such as "  a ", whose padding makes it long enough, passes
      the chain as written and is stored shorter than 3 characters. */
  lemma NameBoundBeforeTrim(x: char)
    requires !IsSpace(x)
    ensures NameChainAsWritten(Str([' ', ' ', x, ' '])) == Valid([x])
    ensures !GoodName([x])
    ensures !NameChain(Str([' ', ' ', x, ' '])).Valid?
  {
    TrimPaddedName(x);
  }

  /** Which rules a composition runs: the repository's, where the length
      bounds measure the text as sent and a price bound of 0 is dropped,
      or the corrected ones, where the bounds measure the trimmed text and
      every given price bound filters. */
  datatype Variant = AsWritten | Corrected

  /** The text a length bound measures under each variant. */
  function Measured(variant: Variant, s: string): string {
    if variant == AsWritten then s else Trim(s)
  }

  /** What an accepted name is known to be once stored: always trimmed,
      and at least 3 characters long only under the corrected rule. */
  predicate StoredName(variant: Variant, s: string) {
    if variant == AsWritten then IsTrimmed(s) else GoodName(s)
  }

  /** What an accepted category is known to be once stored: trimmed and
      at most 20 characters, and at least 3 only under the corrected rule. */
  predicate StoredCategory(variant: Variant, s: string) {
    if variant == AsWritten then IsTrimmed(s) && Utf16Length(s) <= 20 else GoodCategory(s)
  }

  /** The name rule of the given variant. */
  function NameField(variant: Variant, v: Value): (r: Parsed<string>)
    ensures r.WellFormed()
    ensures r.Aborted? <==> !v.Str?
    ensures r.Valid? <==> v.Str? && Utf16Length(Measured(variant, v.s)) >= 3
    ensures r.Valid? ==> StoredName(variant, r.value)
    ensures v.Str? ==> r.value == Trim(v.s)
  {
    if variant == AsWritten then NameChainAsWritten(v) else NameChain(v)
  }

  /** The category rule of the given variant. */
  function CategoryField(variant: Variant, v: Value): (r: Parsed<string>)
    ensures r.WellFormed()
    ensures r.Aborted? <==> !v.Str?
    ensures r.Valid? <==> v.Str? && 3 <= Utf16Length(Measured(variant, v.s)) <= 20
    ensures r.Valid? ==> StoredCategory(variant, r.value)
    ensures v.Str? ==> r.value == Trim(v.s)
  {
    if variant == Corrected then CategoryChain(v)
    else if v.Str? then Utf16LengthTrim(v.s); CategoryChainAsWritten(v)
    else CategoryChainAsWritten(v)
  }

  /** `z.number().positive().gte(100).finite()`: every failed check is
      reported, in that order; a number is always finite here. */
  function PriceChain(v: Value): (r: Parsed<real>)
    ensures r.WellFormed()
    ensures r.Aborted? <==> !v.Num?
    ensures r.Valid? <==> v.Num? && v.n >= MinPrice
    ensures v.Num? ==> r.value == v.n
    ensures v.Num? && v.n <= 0.0 ==> r.Issues() == [Issue(PricePath, PriceNotPositive), Issue(PricePath, PriceBelowMinimum)]
    ensures v.Num? && 0.0 < v.n < MinPrice ==> r.Issues() == [Issue(PricePath, PriceBelowMinimum)]
  {
    match v
    case Num(x) =>
      Checked(x, IssueIf(x <= 0.0, PricePath, PriceNotPositive) + IssueIf(x < MinPrice, PricePath, PriceBelowMinimum))
    case _ => Aborted([Issue(PricePath, PriceNotNumber)])
  }

  /** What a body says about the description: nothing, `null`, or a text. */
  datatype DescriptionInput = Omitted | Cleared | Given(text: string)

  /** `z.string().nullish().optional()`. */
  function DescriptionField(v: Option<Value>): (r: Parsed<DescriptionInput>)
    ensures r.WellFormed() && !r.Dirty?
    ensures r.Valid? <==> v.None? || v.value.Null? || v.value.Str?
    ensures r.Valid? ==> (r.value.Omitted? <==> v.None?)
    ensures r.Valid? ==> (r.value.Cleared? <==> v == Some(Null))
    ensures r.Valid? && v.Some? && v.value.Str? ==> r.value == Given(v.value.s)
  {
    match v
    case None => Valid(Omitted)
    case Some(Null) => Valid(Cleared)
    case Some(Str(s)) => Valid(Given(s))
    case Some(_) => Aborted([Issue(DescriptionPath, DescriptionNotText)])
  }

  /** `z.number().int().positive()`: both failed checks are reported. */
  function QuantityChain(v: Value): (r: Parsed<real>)
    ensures r.WellFormed()
    ensures r.Aborted? <==> !v.Num?
    ensures r.Valid? <==> v.Num? && IsInteger(v.n) && v.n > 0.0
    ensures v.Num? ==> r.value == v.n
  {
    match v
    case Num(x) =>
      Checked(x, IssueIf(!IsInteger(x), QuantityPath, QuantityNotWhole) + IssueIf(x <= 0.0, QuantityPath, QuantityNotPositive))
    case _ => Aborted([Issue(QuantityPath, QuantityNotNumber)])
  }

  /** `z.string().min(3).max(20).trim()` as the schemas chain it: both
      bounds are checked on the text as sent. */
  function CategoryChainAsWritten(v: Value): (r: Parsed<string>)
    ensures r.WellFormed()
    ensures r.Aborted? <==> !v.Str?
    ensures r.Valid? <==> v.Str? && 3 <= Utf16Length(v.s) <= 20
    ensures v.Str? ==> r.value == Trim(v.s)
  {
    match v
    case Str(s) =>
      var n := Utf16Length(s);
      Checked(Trim(s), IssueIf(n < 3, CategoryPath, CategoryTooShort) + IssueIf(n > 20, CategoryPath, CategoryTooLong))
    case _ => Aborted([Issue(CategoryPath, CategoryNotText)])
  }

  /** The category rule with both bounds on the trimmed text. */
  function CategoryChain(v: Value): (r: Parsed<string>)
    ensures r.WellFormed()
    ensures r.Aborted? <==> !v.Str?
    ensures r.Valid? <==> v.Str? && 3 <= Utf16Length(Trim(v.s)) <= 20
    ensures r.Valid? ==> GoodCategory(r.value)
    ensures v.Str? ==> r.value == Trim(v.s)
  {
    match v
    case Str(s) =>
      var t := Trim(s);
      var n := Utf16Length(t);
      Checked(t, IssueIf(n < 3, CategoryPath, CategoryTooShort) + IssueIf(n > 20, CategoryPath, CategoryTooLong))
    case _ => Aborted([Issue(CategoryPath, CategoryNotText)])
  }

  /** Trimming a space and two letters removes the space. */
  lemma TrimPaddedCategory(x: char, y: char)
    requires !IsSpace(x) && !IsSpace(y)
    ensures Trim([' ', x, y]) == [x, y]
  {
    assert [' ', x, y] == [' '] + [x, y];
    assert IsTrimmed([x, y]);
    TrimAfterSpace(' ', [x, y]);
  }

  /** A category such as " ab", whose padding makes it long enough,
      passes the chain as written and is stored shorter than 3
      characters. */
  lemma CategoryBoundsBeforeTrim(x: char, y: char)
    requires !IsSpace(x) && !IsSpace(y)
    requires x as int < 0x1_0000 && y as int < 0x1_0000
    ensures CategoryChainAsWritten(Str([' ', x, y])) == Valid([x, y])
    ensures !GoodCategory([x, y])
    ensures !CategoryChain(Str([' ', x, y])).Valid?
  {
    TrimPaddedCategory(x, y);
    assert Utf16Length([x, y]) == 2;
  }
}
