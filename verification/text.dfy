/** The JavaScript string operations the service relies on: `trim`,
    `length` (in UTF-16 code units), `split`, `join` and a case-insensitive
    substring test. */
module Text {
  import opened Wrappers

  /** The ECMAScript WhiteSpace and LineTerminator code points: the
      characters `String.prototype.trim` and `Number(string)` strip. */
  predicate IsSpace(c: char) {
    var n := c as int;
    || n == 0x09 || n == 0x0A || n == 0x0B || n == 0x0C || n == 0x0D
    || n == 0x20 || n == 0xA0 || n == 0x1680 || 0x2000 <= n <= 0x200A
    || n == 0x2028 || n == 0x2029 || n == 0x202F || n == 0x205F
    || n == 0x3000 || n == 0xFEFF
  }

  predicate AllSpace(s: string) {
    forall i :: 0 <= i < |s| ==> IsSpace(s[i])
  }

  /** Neither end of `s` is white space. */
  predicate IsTrimmed(s: string) {
    s == [] || (!IsSpace(s[0]) && !IsSpace(s[|s| - 1]))
  }

  /** `r` sits in `s` at offset `k` with only white space around it. */
  predicate PaddedBy(s: string, k: nat, r: string) {
    && k + |r| <= |s|
    && s[k..k + |r|] == r
    && AllSpace(s[..k])
    && AllSpace(s[k + |r|..])
  }

  /** `String.prototype.trim`: the text with the white space at both
      ends removed, one character at a time. */
  function Trim(s: string): (r: string)
    ensures IsTrimmed(r)
    ensures |r| <= |s|
  {
    if s != [] && IsSpace(s[0]) then Trim(s[1..])
    else if s != [] && IsSpace(s[|s| - 1]) then Trim(s[..|s| - 1])
    else s
  }

  /** What trimming keeps is a piece of the text with nothing but white
      space around it. */
  lemma {:induction false} TrimPadding(s: string)
    ensures exists k: nat :: PaddedBy(s, k, Trim(s))
    decreases |s|
  {
    var r := Trim(s);
    if s != [] && IsSpace(s[0]) {
      TrimPadding(s[1..]);
      var k: nat :| PaddedBy(s[1..], k, r);
      PaddedAfterSpace(s, k, r);
    } else if s != [] && IsSpace(s[|s| - 1]) {
      TrimPadding(s[..|s| - 1]);
      var k: nat :| PaddedBy(s[..|s| - 1], k, r);
      PaddedBeforeSpace(s, k, r);
    } else {
      PaddedSelf(s);
    }
  }

  /** Padding stays padding when a space is put in front. */
  lemma PaddedAfterSpace(s: string, k: nat, r: string)
    requires s != [] && IsSpace(s[0]) && PaddedBy(s[1..], k, r)
    ensures PaddedBy(s, k + 1, r)
  {
    var t := s[1..];
    assert s[k + 1..k + 1 + |r|] == t[k..k + |r|];
    assert s[..k + 1] == [s[0]] + t[..k];
    assert s[k + 1 + |r|..] == t[k + |r|..];
  }

  /** Padding stays padding when a space is put behind. */
  lemma PaddedBeforeSpace(s: string, k: nat, r: string)
    requires s != [] && IsSpace(s[|s| - 1]) && PaddedBy(s[..|s| - 1], k, r)
    ensures PaddedBy(s, k, r)
  {
    var t := s[..|s| - 1];
    assert s[k..k + |r|] == t[k..k + |r|];
    assert s[..k] == t[..k];
    assert s[k + |r|..] == t[k + |r|..] + [s[|s| - 1]];
  }

  lemma PaddedSelf(s: string)
    ensures PaddedBy(s, 0, s)
  {
    assert s[0..|s|] == s && s[..0] == [] && s[|s|..] == [];
  }

  /** Trimming changes nothing on text whose ends are not white space. */
  lemma TrimTrimmed(s: string)
    requires IsTrimmed(s)
    ensures Trim(s) == s
  {
  }

  /** A leading space is trimmed away. */
  lemma TrimDropsLeadingSpace(c: char, t: string)
    requires IsSpace(c)
    ensures Trim([c] + t) == Trim(t)
  {
    assert ([c] + t)[1..] == t;
  }

  /** Trimming text that is trimmed but for one leading space removes
      just that space. */
  lemma TrimAfterSpace(c: char, t: string)
    requires IsSpace(c) && IsTrimmed(t)
    ensures Trim([c] + t) == t
  {
    TrimDropsLeadingSpace(c, t);
    TrimTrimmed(t);
  }

  /** Trimming non-empty trimmed text followed by one space removes just
      that space. */
  lemma TrimBeforeSpace(t: string, c: char)
    requires IsSpace(c) && IsTrimmed(t) && t != []
    ensures Trim(t + [c]) == t
  {
    var s := t + [c];
    assert s[0] == t[0] && s[|s| - 1] == c;
    assert s[..|s| - 1] == t;
    TrimTrimmed(t);
  }

  /** Trimming twice is trimming once. */
  lemma TrimIdempotent(s: string)
    ensures Trim(Trim(s)) == Trim(s)
  {
    TrimTrimmed(Trim(s));
  }

  /** `s.length`: the number of UTF-16 code units, so a code point outside
      the Basic Multilingual Plane counts twice. */
  function Utf16Length(s: string): (n: nat)
    ensures |s| <= n <= 2 * |s|
    ensures n == |s| <==> forall i :: 0 <= i < |s| ==> s[i] as int < 0x1_0000
  {
    if s == [] then 0
    else (if s[0] as int < 0x1_0000 then 1 else 2) + Utf16Length(s[1..])
  }

  /** Lengths in code units add up over concatenation. */
  lemma {:induction false} Utf16LengthConcat(a: string, b: string)
    ensures Utf16Length(a + b) == Utf16Length(a) + Utf16Length(b)
    decreases |a|
  {
    if a == [] {
      assert a + b == b;
    } else {
      assert (a + b)[0] == a[0];
      assert (a + b)[1..] == a[1..] + b;
      Utf16LengthConcat(a[1..], b);
    }
  }

  /** Trimming never makes text longer in code units. */
  lemma {:induction false} Utf16LengthTrim(s: string)
    ensures Utf16Length(Trim(s)) <= Utf16Length(s)
    decreases |s|
  {
    if s != [] && IsSpace(s[0]) {
      Utf16LengthTrim(s[1..]);
    } else if s != [] && IsSpace(s[|s| - 1]) {
      var t := s[..|s| - 1];
      Utf16LengthTrim(t);
      assert s == t + [s[|s| - 1]];
      Utf16LengthConcat(t, [s[|s| - 1]]);
    }
  }

  /** The first position of `c` in `s`, if any. */
  function IndexOf(s: string, c: char): (r: Option<nat>)
    ensures r.Some? ==> r.value < |s| && s[r.value] == c && c !in s[..r.value]
    ensures r.None? ==> c !in s
  {
    if s == [] then None
    else if s[0] == c then Some(0)
    else match IndexOf(s[1..], c)
      case None => None
      case Some(i) => Some(i + 1)
  }

  /** `parts.join(sep)`. */
  function Join(parts: seq<string>, sep: string): string
  {
    if |parts| == 0 then []
    else if |parts| == 1 then parts[0]
    else parts[0] + sep + Join(parts[1..], sep)
  }

  /** `s.split(sep)` for a one-character separator: every occurrence
      separates, so empty pieces are kept and there is always one piece. */
  function Split(s: string, sep: char): (parts: seq<string>)
    ensures |parts| >= 1
    ensures forall i :: 0 <= i < |parts| ==> sep !in parts[i]
    ensures Join(parts, [sep]) == s
    decreases |s|
  {
    match IndexOf(s, sep)
    case None => [s]
    case Some(k) =>
      var rest := Split(s[k + 1..], sep);
      assert ([s[..k]] + rest)[1..] == rest;
      assert s == s[..k] + [sep] + s[k + 1..];
      [s[..k]] + rest
  }

  /** The first separator after a separator-free piece is the one that ends it. */
  lemma {:induction false} IndexOfAfterPiece(p: string, sep: char, t: string)
    requires sep !in p
    ensures IndexOf(p + [sep] + t, sep) == Some(|p|)
    decreases |p|
  {
    if p != [] {
      IndexOfAfterPiece(p[1..], sep, t);
      assert (p + [sep] + t)[1..] == p[1..] + [sep] + t;
    }
  }

  /** Splitting a joined list of separator-free pieces gives the pieces back. */
  lemma {:induction false} SplitJoin(parts: seq<string>, sep: char)
    requires |parts| >= 1
    requires forall i :: 0 <= i < |parts| ==> sep !in parts[i]
    ensures Split(Join(parts, [sep]), sep) == parts
    decreases |parts|
  {
    if |parts| > 1 {
      var p := parts[0];
      var tail := Join(parts[1..], [sep]);
      var s := p + [sep] + tail;
      assert Join(parts, [sep]) == s;
      IndexOfAfterPiece(p, sep, tail);
      assert s[..|p|] == p;
      assert s[|p| + 1..] == tail;
      SplitJoin(parts[1..], sep);
      assert parts == [p] + parts[1..];
    } else {
      assert IndexOf(parts[0], sep).None?;
    }
  }

  /** ASCII case folding. */
  function LowerChar(c: char): char {
    if 'A' <= c <= 'Z' then (c as int + 32) as char else c
  }

  function Lower(s: string): (r: string)
    ensures |r| == |s|
  {
    seq(|s|, i requires 0 <= i < |s| => LowerChar(s[i]))
  }

  /** `p` occurs in `s` starting at position `i`. */
  predicate OccursAt(s: string, p: string, i: nat) {
    i + |p| <= |s| && s[i..i + |p|] == p
  }

  /** Substring test, scanning left to right. */
  predicate Contains(s: string, p: string)
    decreases |s|
  {
    (|p| <= |s| && s[..|p|] == p) || (|s| > 0 && Contains(s[1..], p))
  }

  /** The scan finds `p` exactly when `p` occurs somewhere in `s`. */
  lemma {:induction false} ContainsOccurs(s: string, p: string)
    ensures Contains(s, p) <==> exists i: nat :: OccursAt(s, p, i)
    decreases |s|
  {
    if |p| <= |s| && s[..|p|] == p {
      assert OccursAt(s, p, 0);
    } else if |s| > 0 {
      ContainsOccurs(s[1..], p);
      if Contains(s[1..], p) {
        var i: nat :| OccursAt(s[1..], p, i);
        assert s[i + 1..i + 1 + |p|] == s[1..][i..i + |p|];
        assert OccursAt(s, p, i + 1);
      }
      if exists i: nat :: OccursAt(s, p, i) {
        var i: nat :| OccursAt(s, p, i);
        assert i != 0;
        assert s[1..][i - 1..i - 1 + |p|] == s[i..i + |p|];
        assert OccursAt(s[1..], p, i - 1);
      }
    }
  }

  /** Case-insensitive containment, as a database's `ILIKE '%p%'` does for ASCII letters. */
  predicate ContainsInsensitive(s: string, p: string) {
    Contains(Lower(s), Lower(p))
  }
}
