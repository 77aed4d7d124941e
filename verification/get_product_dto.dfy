/** `GetProductSchema`: a path whose only parameter is a product id in
    UUID syntax. The update schema checks its id with the same rule. */
module GetProductDto {
  import opened Wrappers
  import opened Schema
  import opened Products

  const IdPath: seq<string> := ["params", "id"]
  const IdRequired := "The 'id' field is required."
  const IdNotText := "The 'id' must be a string."
  const IdNotUuid := "The provided 'id' must be a valid UUID."

  predicate IsHexDigit(c: char) {
    '0' <= c <= '9' || 'a' <= c <= 'f' || 'A' <= c <= 'F'
  }

  /** The positions of the four dashes in 8-4-4-4-12 UUID text. */
  predicate IsDashPosition(i: int) {
    i == 8 || i == 13 || i == 18 || i == 23
  }

  /** zod's `.uuid()`: 36 characters, hex digits of either case in groups
      of 8, 4, 4, 4 and 12 separated by dashes. */
  predicate IsUuid(s: string) {
    && |s| == 36
    && forall i :: 0 <= i < |s| ==> if IsDashPosition(i) then s[i] == '-' else IsHexDigit(s[i])
  }

  predicate AllHex(h: string) {
    forall i :: 0 <= i < |h| ==> IsHexDigit(h[i])
  }

  /** Where the digit at text position `i` sits among the 32 digits. */
  function DigitIndex(i: int): int {
    if i < 8 then i else if i < 13 then i - 1 else if i < 18 then i - 2 else if i < 23 then i - 3 else i - 4
  }

  /** The UUID text of 32 hex digits, dashes inserted. */
  function FormatUuid(h: string): (s: string)
    requires |h| == 32 && AllHex(h)
    ensures IsUuid(s)
    ensures forall i :: 0 <= i < 36 && !IsDashPosition(i) ==> 0 <= DigitIndex(i) < 32 && s[i] == h[DigitIndex(i)]
  {
    var s := h[..8] + "-" + h[8..12] + "-" + h[12..16] + "-" + h[16..20] + "-" + h[20..];
    assert forall i :: 0 <= i < 8 ==> s[i] == h[i];
    assert forall i :: 9 <= i < 13 ==> s[i] == h[i - 1];
    assert forall i :: 14 <= i < 18 ==> s[i] == h[i - 2];
    assert forall i :: 19 <= i < 23 ==> s[i] == h[i - 3];
    assert forall i :: 24 <= i < 36 ==> s[i] == h[i - 4];
    s
  }

  /** The 32 hex digits of UUID text, dashes removed. */
  function UuidDigits(s: string): (h: string)
    requires IsUuid(s)
    ensures |h| == 32 && AllHex(h)
    ensures forall i :: 0 <= i < 36 && !IsDashPosition(i) ==> 0 <= DigitIndex(i) < 32 && h[DigitIndex(i)] == s[i]
  {
    var h := s[..8] + s[9..13] + s[14..18] + s[19..23] + s[24..];
    assert forall i :: 0 <= i < 8 ==> h[i] == s[i];
    assert forall i :: 9 <= i < 13 ==> h[i - 1] == s[i];
    assert forall i :: 14 <= i < 18 ==> h[i - 2] == s[i];
    assert forall i :: 19 <= i < 23 ==> h[i - 3] == s[i];
    assert forall i :: 24 <= i < 36 ==> h[i - 4] == s[i];
    h
  }

  /** UUID text and its 32 digits determine each other. */
  lemma UuidDigitsRoundTrip(s: string)
    requires IsUuid(s)
    ensures FormatUuid(UuidDigits(s)) == s
  {
    var t := FormatUuid(UuidDigits(s));
    assert forall i :: 0 <= i < 36 ==> t[i] == s[i] by {
      forall i | 0 <= i < 36
        ensures t[i] == s[i]
      {
        if IsDashPosition(i) {
          assert s[i] == '-' && t[i] == '-';
        }
      }
    }
  }

  /** The id of the test fixture product is valid UUID text. */
  lemma FixtureIdIsUuid()
    ensures IsUuid("9b5b90a7-65ad-4c84-aef5-c58d9800ec99")
  {
  }

  /** `z.string().uuid()` on the id parameter. */
  function IdChain(v: Value): (r: Parsed<string>)
    ensures r.WellFormed()
    ensures r.Aborted? <==> !v.Str?
    ensures r.Valid? <==> v.Str? && IsUuid(v.s)
    ensures v.Str? ==> r.value == v.s
  {
    match v
    case Str(s) => Checked(s, IssueIf(!IsUuid(s), IdPath, IdNotUuid))
    case _ => Aborted([Issue(IdPath, IdNotText)])
  }

  /** The id parameter, which must be present. */
  function IdField(params: map<string, Value>): (r: Parsed<string>)
    ensures r.WellFormed()
    ensures r.Valid? <==> "id" in params && params["id"].Str? && IsUuid(params["id"].s)
    ensures r.Valid? ==> r.value == params["id"].s
    ensures "id" !in params ==> r == Aborted([Issue(IdPath, IdRequired)])
  {
    Required(Field(params, "id"), IdPath, IdRequired, IdChain)
  }

  /** `GetProductSchema.parse`: the validated id, or the issues found. */
  function ValidateGetProduct(params: map<string, Value>): (r: Result<Id, seq<Issue>>)
    ensures r.Ok? <==> "id" in params && params["id"].Str? && IsUuid(params["id"].s)
    ensures r.Ok? ==> r.value == params["id"].s
    ensures r.Err? ==> r.error != []
    ensures "id" in params && params["id"].Str? && !IsUuid(params["id"].s) ==> r == Err([Issue(IdPath, IdNotUuid)])
  {
    var id := IdField(params);
    if id.Valid? then Ok(id.value) else Err(id.Issues())
  }
}
