/** `CreateProductSchema`: the body of a create request. */
module CreateProductDto {
  import opened Wrappers
  import opened Text
  import opened Numbers
  import opened Schema
  import opened ProductFields

  const NameRequired := "Product name is required"
  const PriceRequired := "Product price is required"
  const QuantityRequired := "Product quantity is required"
  const CategoryRequired := "Product category is required"

  /** A validated create body. An omitted and a `null` description are both
      stored as no description. */
  datatype CreateInput = CreateInput(
    name: string,
    price: real,
    description: Option<string>,
    quantity: nat,
    category: string)

  /** What a validated create body guarantees under each variant. */
  predicate ValidInput(variant: Variant, c: CreateInput) {
    StoredName(variant, c.name) && c.price >= MinPrice && c.quantity >= 1 && StoredCategory(variant, c.category)
  }

  /** The bodies the schema accepts, stated key by key on the raw input:
      the length bounds measure the text as sent under the repository's
      rules and the trimmed text under the corrected ones. */
  predicate AcceptableCreateBody(variant: Variant, body: map<string, Value>) {
    && "name" in body && body["name"].Str? && Utf16Length(Measured(variant, body["name"].s)) >= 3
    && "price" in body && body["price"].Num? && body["price"].n >= MinPrice
    && ("description" in body ==> body["description"].Null? || body["description"].Str?)
    && "quantity" in body && body["quantity"].Num? && IsInteger(body["quantity"].n) && body["quantity"].n > 0.0
    && "category" in body && body["category"].Str? && 3 <= Utf16Length(Measured(variant, body["category"].s)) <= 20
  }

  /** The stored description for what the body said. */
  function StoredDescription(d: DescriptionInput): Option<string> {
    if d.Given? then Some(d.text) else None
  }

  /** `CreateProductSchema.parse` on the body: the typed input, or every
      issue found in field order (name, price, description, quantity,
      category). Keys the schema does not declare are dropped. The
      repository's schema is `ValidateCreate(AsWritten, _)`. */
  function ValidateCreate(variant: Variant, body: map<string, Value>): (r: Result<CreateInput, seq<Issue>>)
    ensures r.Ok? <==> AcceptableCreateBody(variant, body)
    ensures r.Err? ==> r.error != []
    ensures r.Ok? ==> ValidInput(variant, r.value)
  {
    var name := Required(Field(body, "name"), NamePath, NameRequired, v => NameField(variant, v));
    var price := Required(Field(body, "price"), PricePath, PriceRequired, PriceChain);
    var description := DescriptionField(Field(body, "description"));
    var quantity := Required(Field(body, "quantity"), QuantityPath, QuantityRequired, QuantityChain);
    var category := Required(Field(body, "category"), CategoryPath, CategoryRequired, v => CategoryField(variant, v));
    if name.Valid? && price.Valid? && description.Valid? && quantity.Valid? && category.Valid? then
      Ok(CreateInput(name.value, price.value, StoredDescription(description.value), Whole(quantity.value), category.value))
    else
      Err(name.Issues() + price.Issues() + description.Issues() + quantity.Issues() + category.Issues())
  }

  /** An accepted body is stored as sent, but for the trimmed text and an
      omitted or `null` description stored as none. */
  lemma CreateKeepsValues(variant: Variant, body: map<string, Value>)
    requires ValidateCreate(variant, body).Ok?
    ensures var c := ValidateCreate(variant, body).value;
            && c.name == Trim(body["name"].s)
            && c.price == body["price"].n
            && c.quantity as real == body["quantity"].n
            && c.category == Trim(body["category"].s)
            && (c.description.Some? <==> "description" in body && body["description"].Str?)
            && (c.description.Some? ==> c.description.value == body["description"].s)
  {
    var name := Required(Field(body, "name"), NamePath, NameRequired, v => NameField(variant, v));
    var price := Required(Field(body, "price"), PricePath, PriceRequired, PriceChain);
    var description := DescriptionField(Field(body, "description"));
    var quantity := Required(Field(body, "quantity"), QuantityPath, QuantityRequired, QuantityChain);
    var category := Required(Field(body, "category"), CategoryPath, CategoryRequired, v => CategoryField(variant, v));
    assert ValidateCreate(variant, body).value
      == CreateInput(name.value, price.value, StoredDescription(description.value), Whole(quantity.value), category.value);
    assert name == NameField(variant, body["name"]) && category == CategoryField(variant, body["category"]);
    assert price == PriceChain(body["price"]) && quantity == QuantityChain(body["quantity"]);
  }

  /** Each required key that is missing is reported with its own message. */
  lemma CreateReportsMissingKeys(variant: Variant, body: map<string, Value>)
    ensures "name" !in body ==> ValidateCreate(variant, body).Err? && Issue(NamePath, NameRequired) in ValidateCreate(variant, body).error
    ensures "price" !in body ==> ValidateCreate(variant, body).Err? && Issue(PricePath, PriceRequired) in ValidateCreate(variant, body).error
    ensures "quantity" !in body ==> ValidateCreate(variant, body).Err? && Issue(QuantityPath, QuantityRequired) in ValidateCreate(variant, body).error
    ensures "category" !in body ==> ValidateCreate(variant, body).Err? && Issue(CategoryPath, CategoryRequired) in ValidateCreate(variant, body).error
  {
  }

  /** Keys outside the schema, such as `id` or `created_at`, are dropped:
      they change nothing about the outcome. */
  lemma CreateIgnoresUndeclaredKeys(variant: Variant, body: map<string, Value>, key: string, v: Value)
    requires key !in {"name", "price", "description", "quantity", "category"}
    ensures ValidateCreate(variant, body[key := v]) == ValidateCreate(variant, body)
  {
    var b := body[key := v];
    assert Field(b, "name") == Field(body, "name");
    assert Field(b, "price") == Field(body, "price");
    assert Field(b, "description") == Field(body, "description");
    assert Field(b, "quantity") == Field(body, "quantity");
    assert Field(b, "category") == Field(body, "category");
  }

  /** The name "  x " shows the two variants apart on a whole body: the
      repository's schema accepts it and stores the one-letter name `x`,
      the corrected one rejects it. */
  lemma PaddedNameCreated(x: char, body: map<string, Value>)
    requires !IsSpace(x)
    requires body == map["name" := Str([' ', ' ', x, ' ']), "price" := Num(MinPrice), "quantity" := Num(1.0), "category" := Str(['a', 'b', 'c'])]
    ensures ValidateCreate(AsWritten, body) == Ok(CreateInput([x], MinPrice, None, 1, ['a', 'b', 'c']))
    ensures ValidateCreate(Corrected, body).Err?
  {
    TrimPaddedName(x);
    TrimTrimmed(['a', 'b', 'c']);
    assert IsInteger(1.0) by { assert 1.0 == 1 as real; }
    assert AcceptableCreateBody(AsWritten, body);
    CreateKeepsValues(AsWritten, body);
    assert Utf16Length([x]) <= 2;
    assert !AcceptableCreateBody(Corrected, body);
  }
}
