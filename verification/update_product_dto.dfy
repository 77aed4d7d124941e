/** `UpdateProductSchema`: an update body in which every field is optional,
    and the id of the product to change. */
module UpdateProductDto {
  import opened Wrappers
  import opened Text
  import opened Numbers
  import opened Schema
  import opened ProductFields
  import opened Products
  import opened GetProductDto

  /** A validated update body: the fields to change; `None` (and `Omitted`
      for the description) leaves a field as it is. */
  datatype Patch = Patch(
    name: Option<string>,
    price: Option<real>,
    description: DescriptionInput,
    quantity: Option<nat>,
    category: Option<string>)

  /** The body that changes nothing. */
  const EmptyPatch := Patch(None, None, Omitted, None, None)

  datatype UpdateRequest = UpdateRequest(id: Id, patch: Patch)

  /** Every supplied field obeys the same guarantee as on create. */
  predicate ValidPatch(variant: Variant, p: Patch) {
    && (p.name.Some? ==> StoredName(variant, p.name.value))
    && (p.price.Some? ==> p.price.value >= MinPrice)
    && (p.quantity.Some? ==> p.quantity.value >= 1)
    && (p.category.Some? ==> StoredCategory(variant, p.category.value))
  }

  /** The bodies the schema accepts: each key that is present holds an
      acceptable value, the length bounds measured as on create. */
  predicate AcceptableUpdateBody(variant: Variant, body: map<string, Value>) {
    && ("name" in body ==> body["name"].Str? && Utf16Length(Measured(variant, body["name"].s)) >= 3)
    && ("price" in body ==> body["price"].Num? && body["price"].n >= MinPrice)
    && ("description" in body ==> body["description"].Null? || body["description"].Str?)
    && ("quantity" in body ==> body["quantity"].Num? && IsInteger(body["quantity"].n) && body["quantity"].n > 0.0)
    && ("category" in body ==> body["category"].Str? && 3 <= Utf16Length(Measured(variant, body["category"].s)) <= 20)
  }

  /** `UpdateProductSchema.parse`: the id and the patch, or every issue
      found, body fields first (in declaration order) and the id last. The
      repository's schema is `ValidateUpdate(AsWritten, _, _)`. */
  function ValidateUpdate(variant: Variant, body: map<string, Value>, params: map<string, Value>): (r: Result<UpdateRequest, seq<Issue>>)
    ensures r.Ok? <==> AcceptableUpdateBody(variant, body) && "id" in params && params["id"].Str? && IsUuid(params["id"].s)
    ensures r.Err? ==> r.error != []
    ensures r.Ok? ==> ValidPatch(variant, r.value.patch) && r.value.id == params["id"].s
  {
    var name := Optional(Field(body, "name"), v => NameField(variant, v));
    var price := Optional(Field(body, "price"), PriceChain);
    var description := DescriptionField(Field(body, "description"));
    var quantity := Optional(Field(body, "quantity"), QuantityChain);
    var category := Optional(Field(body, "category"), v => CategoryField(variant, v));
    var id := IdField(params);
    if name.Valid? && price.Valid? && description.Valid? && quantity.Valid? && category.Valid? && id.Valid? then
      var q := if quantity.value.Some? then Some(Whole(quantity.value.value)) else None;
      Ok(UpdateRequest(id.value, Patch(name.value, price.value, description.value, q, category.value)))
    else
      Err(name.Issues() + price.Issues() + description.Issues() + quantity.Issues() + category.Issues() + id.Issues())
  }

  /** An accepted patch holds exactly the keys sent: text trimmed, an
      omitted description left alone and a `null` one cleared. */
  lemma UpdateKeepsValues(variant: Variant, body: map<string, Value>, params: map<string, Value>)
    requires ValidateUpdate(variant, body, params).Ok?
    ensures var p := ValidateUpdate(variant, body, params).value.patch;
            && (p.name.Some? <==> "name" in body)
            && ("name" in body ==> p.name.value == Trim(body["name"].s))
            && (p.price.Some? <==> "price" in body)
            && ("price" in body ==> p.price.value == body["price"].n)
            && (p.description.Omitted? <==> "description" !in body)
            && (p.description.Cleared? <==> "description" in body && body["description"].Null?)
            && (p.quantity.Some? <==> "quantity" in body)
            && ("quantity" in body ==> p.quantity.value as real == body["quantity"].n)
            && (p.category.Some? <==> "category" in body)
            && ("category" in body ==> p.category.value == Trim(body["category"].s))
  {
  }

  /** An empty body is accepted and changes nothing. */
  lemma EmptyBodyAccepted(variant: Variant, params: map<string, Value>)
    requires "id" in params && params["id"].Str? && IsUuid(params["id"].s)
    ensures ValidateUpdate(variant, map[], params) == Ok(UpdateRequest(params["id"].s, EmptyPatch))
  {
  }

  /** The body schema does not declare `id` or `created_at`: such keys are
      dropped and cannot reach the database. */
  lemma UpdateIgnoresUndeclaredKeys(variant: Variant, body: map<string, Value>, params: map<string, Value>, key: string, v: Value)
    requires key !in {"name", "price", "description", "quantity", "category"}
    ensures ValidateUpdate(variant, body[key := v], params) == ValidateUpdate(variant, body, params)
  {
    var b := body[key := v];
    assert Field(b, "name") == Field(body, "name");
    assert Field(b, "price") == Field(body, "price");
    assert Field(b, "description") == Field(body, "description");
    assert Field(b, "quantity") == Field(body, "quantity");
    assert Field(b, "category") == Field(body, "category");
  }

  /** The name "  x " shows the two variants apart on an update: the
      repository's schema renames the product to `x`, the corrected one
      rejects the body. */
  lemma PaddedNamePatched(x: char, body: map<string, Value>, params: map<string, Value>)
    requires !IsSpace(x)
    requires body == map["name" := Str([' ', ' ', x, ' '])]
    requires "id" in params && params["id"].Str? && IsUuid(params["id"].s)
    ensures ValidateUpdate(AsWritten, body, params) == Ok(UpdateRequest(params["id"].s, EmptyPatch.(name := Some([x]))))
    ensures ValidateUpdate(Corrected, body, params).Err?
  {
    TrimPaddedName(x);
    assert AcceptableUpdateBody(AsWritten, body);
    UpdateKeepsValues(AsWritten, body, params);
    assert Utf16Length([x]) <= 2;
    assert !AcceptableUpdateBody(Corrected, body);
  }
}
