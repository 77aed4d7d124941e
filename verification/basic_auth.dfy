/** `basicAuth`: the Authorization-header check in front of every route
    that writes. Base64 decoding is a parameter. */
module BasicAuth {
  import opened Wrappers
  import opened Text
  import opened Errors

  const AuthenticationRequired := "Authentication required"
  const InvalidScheme := "Invalid authentication scheme"
  const InvalidCredentials := "Invalid credentials"
  const Scheme := "Basic"
  const AdminUser := "admin"
  const AdminPassword := "pass"
  /** What `Buffer.from(undefined, 'base64')` throws. */
  const UndefinedBuffer := "The first argument must be of type string or an instance of Buffer, ArrayBuffer, or Array or an Array-like Object. Received undefined"

  /** Continue to the next middleware, answer 401 with a message, or throw. */
  datatype AuthDecision = Allow | Deny(message: string) | Fail(error: AppError)

  /** Element `i` of an array destructuring: `undefined` past the end. */
  function Element(parts: seq<string>, i: nat): (r: Option<string>)
    ensures r.Some? <==> i < |parts|
    ensures r.Some? ==> r.value == parts[i]
  {
    if i < |parts| then Some(parts[i]) else None
  }

  /** The decision for a request's Authorization header (`None` when it
      is absent). */
  function Authenticate(header: Option<string>, decode: string -> string): (r: AuthDecision)
    ensures r == Deny(AuthenticationRequired) <==> header.None? || header.value == ""
    ensures r == Deny(InvalidScheme) <==> header.Some? && header.value != "" && Split(header.value, ' ')[0] != Scheme
    ensures r.Fail? <==> header == Some(Scheme)
    ensures r.Fail? ==> r.error.Other?
    ensures r.Deny? ==> r.message in {AuthenticationRequired, InvalidScheme, InvalidCredentials}
  {
    if header.None? || header.value == "" then Deny(AuthenticationRequired)
    else
      var parts := Split(header.value, ' ');
      if parts[0] != Scheme then Deny(InvalidScheme)
      else match Element(parts, 1)
        case None => Fail(Other(UndefinedBuffer))
        case Some(credentials) =>
          var pair := Split(decode(credentials), ':');
          if pair[0] != AdminUser || Element(pair, 1) != Some(AdminPassword) then Deny(InvalidCredentials)
          else Allow
  }

  /** Decoded credentials whose first two `:`-separated segments are the
      admin's user name and password. */
  predicate AdminCredentials(t: string) {
    |t| >= 10 && t[..10] == AdminUser + ":" + AdminPassword && (|t| == 10 || t[10] == ':')
  }

  /** A header that starts with `Basic`, a space and the token `c`, ends or
      continues with a space, and whose token decodes to the admin's
      credentials. */
  predicate AdminHeader(h: string, c: string, decode: string -> string) {
    && ' ' !in c
    && |h| >= 6 + |c|
    && h[..6 + |c|] == Scheme + " " + c
    && (|h| == 6 + |c| || h[6 + |c|] == ' ')
    && AdminCredentials(decode(c))
  }

  /** Splitting text that starts with a separator-free piece and then
      ends or continues with the separator yields that piece first. */
  lemma SplitLeading(p: string, sep: char, t: string)
    requires sep !in p
    requires t == [] || t[0] == sep
    ensures Split(p + t, sep)[0] == p
    ensures t == [] ==> Split(p + t, sep) == [p]
    ensures t != [] ==> Split(p + t, sep) == [p] + Split(t[1..], sep)
  {
    if t == [] {
      assert p + t == p;
    } else {
      assert p + t == p + [sep] + t[1..];
      IndexOfAfterPiece(p, sep, t[1..]);
      assert (p + t)[..|p|] == p;
      assert (p + t)[|p| + 1..] == t[1..];
    }
  }

  /** Text made of two separator-free pieces joined by the separator,
      then ending or continuing with the separator, splits into those two
      pieces first. */
  lemma SplitTwo(a: string, b: string, tail: string, sep: char)
    requires sep !in a && sep !in b
    requires tail == [] || tail[0] == sep
    ensures var parts := Split(a + [sep] + b + tail, sep);
            |parts| >= 2 && parts[0] == a && parts[1] == b
  {
    var t := [sep] + b + tail;
    assert a + [sep] + b + tail == a + t;
    assert t[1..] == b + tail;
    SplitLeading(a, sep, t);
    SplitLeading(b, sep, tail);
    assert Split(a + t, sep) == [a] + Split(b + tail, sep);
  }

  /** Every admin header is let through, whatever follows the token. */
  lemma AdminHeaderAllowed(h: string, c: string, decode: string -> string)
    requires AdminHeader(h, c, decode)
    ensures Authenticate(Some(h), decode) == Allow
  {
    var rest := h[6 + |c|..];
    assert h == Scheme + [' '] + c + rest;
    SplitTwo(Scheme, c, rest, ' ');
    var t := decode(c);
    assert t == AdminUser + [':'] + AdminPassword + t[10..];
    SplitTwo(AdminUser, AdminPassword, t[10..], ':');
  }

  /** Joined text begins with its first two pieces and the separator
      between them, then ends or continues with the separator. */
  lemma JoinedPrefix(parts: seq<string>, sep: char)
    requires |parts| >= 2
    ensures var s := Join(parts, [sep]);
            var n := |parts[0]| + 1 + |parts[1]|;
            && |s| >= n
            && s[..n] == parts[0] + [sep] + parts[1]
            && (|s| == n || s[n] == sep)
  {
    var tail := if |parts| == 2 then "" else [sep] + Join(parts[2..], [sep]);
    assert parts[1..][1..] == parts[2..];
    assert Join(parts[1..], [sep]) == parts[1] + tail;
    assert Join(parts, [sep]) == parts[0] + [sep] + parts[1] + tail;
  }

  /** Only admin headers are let through. */
  lemma AllowedOnlyAdminHeader(h: string, decode: string -> string)
    requires Authenticate(Some(h), decode) == Allow
    ensures |Split(h, ' ')| >= 2 && AdminHeader(h, Split(h, ' ')[1], decode)
  {
    var parts := Split(h, ' ');
    JoinedPrefix(parts, ' ');
    var pair := Split(decode(parts[1]), ':');
    JoinedPrefix(pair, ':');
  }

  /** Only the first two segments are compared: decoded text
      `admin:pass:extra` is accepted. */
  lemma ExtraSegmentAccepted(c: string, decode: string -> string)
    requires ' ' !in c && decode(c) == "admin:pass:extra"
    ensures Authenticate(Some(Scheme + " " + c), decode) == Allow
  {
    var h := Scheme + " " + c;
    assert h[..6 + |c|] == h;
    AdminHeaderAllowed(h, c, decode);
  }
}
