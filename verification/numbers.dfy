/** JavaScript's `Number(text)` coercion, restricted to plain decimal
    notation, and the integer arithmetic of the pagination. */
module Numbers {
  import opened Wrappers
  import opened Text

  predicate IsDigit(c: char) {
    '0' <= c <= '9'
  }

  predicate AllDigits(s: string) {
    forall i :: 0 <= i < |s| ==> IsDigit(s[i])
  }

  /** The value of a run of decimal digits, most significant first. */
  function DigitsValue(s: string): nat
    requires AllDigits(s)
  {
    if s == [] then 0
    else DigitsValue(s[..|s| - 1]) * 10 + (s[|s| - 1] as int - '0' as int)
  }

  function Pow10(k: nat): (p: nat)
    ensures p >= 1
  {
    if k == 0 then 1 else 10 * Pow10(k - 1)
  }

  /** Unsigned decimal notation: digits, optionally a point and more digits,
      with at least one digit somewhere. `None` stands for `NaN`. */
  function ParseUnsigned(u: string): (r: Option<real>)
    ensures r.Some? ==> r.value >= 0.0
  {
    match IndexOf(u, '.')
    case None =>
      if u != [] && AllDigits(u) then
        Some(DigitsValue(u) as real)
      else None
    case Some(k) =>
      var whole := u[..k];
      var frac := u[k + 1..];
      if (whole != [] || frac != []) && AllDigits(whole) && AllDigits(frac) then
        Some(DigitsValue(whole) as real + DigitsValue(frac) as real / Pow10(|frac|) as real)
      else None
  }

  /** `Number(s)` on a string: surrounding white space is ignored, the empty
      (or all-blank) text is 0, an optional sign precedes unsigned decimal
      notation, and anything else is `NaN` (`None`). */
  function ParseNumber(s: string): (r: Option<real>)
    ensures Trim(s) == [] ==> r == Some(0.0)
    ensures r.Some? && r.value < 0.0 ==> Trim(s) != [] && Trim(s)[0] == '-'
  {
    var t := Trim(s);
    if t == [] then Some(0.0)
    else if t[0] == '-' then
      match ParseUnsigned(t[1..])
      case None => None
      case Some(x) => Some(-x)
    else if t[0] == '+' then ParseUnsigned(t[1..])
    else ParseUnsigned(t)
  }

  function DigitChar(d: nat): (c: char)
    requires d < 10
    ensures IsDigit(c)
  {
    ('0' as int + d) as char
  }

  /** The shortest decimal spelling of `n`. */
  function Decimal(n: nat): (s: string)
    ensures |s| >= 1 && AllDigits(s)
  {
    if n < 10 then [DigitChar(n)] else Decimal(n / 10) + [DigitChar(n % 10)]
  }

  /** Reading back the decimal spelling of `n` gives `n`. */
  lemma {:induction false} DecimalValue(n: nat)
    ensures DigitsValue(Decimal(n)) == n
  {
    if n >= 10 {
      var s := Decimal(n);
      assert s[..|s| - 1] == Decimal(n / 10);
      DecimalValue(n / 10);
    }
  }

  /** `Number(String(n))` is `n` for every natural number `n`. */
  lemma DecimalRoundTrip(n: nat)
    ensures ParseNumber(Decimal(n)) == Some(n as real)
  {
    var s := Decimal(n);
    assert IsDigit(s[0]) && IsDigit(s[|s| - 1]);
    TrimTrimmed(s);
    assert s[0] != '-' && s[0] != '+';
    assert '.' !in s;
    DecimalValue(n);
    assert ParseUnsigned(s) == Some(n as real);
  }

  /** Zod's `.int()`: the number has no fractional part. */
  predicate IsInteger(x: real) {
    x.Floor as real == x
  }

  /** A whole non-negative number as the natural number it denotes. */
  function Whole(x: real): (n: nat)
    requires IsInteger(x) && x >= 0.0
    ensures n as real == x
  {
    x.Floor
  }

  /** `Math.ceil(a / b)` for whole numbers: the fewest pages of `b` rows that
      hold `a` rows. */
  function CeilDiv(a: nat, b: nat): (q: nat)
    requires b >= 1
    ensures a <= q * b
    ensures q == 0 || (q - 1) * b < a
  {
    var q := (a + b - 1) / b;
    assert q * b <= a + b - 1 < q * b + b;
    q
  }
}
