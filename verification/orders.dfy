/** Three-way comparison, as a database uses it to order rows. */
module Orders {

  datatype Ordering = Less | Same | Greater {

    /** The comparison seen from the other side. */
    function Flip(): Ordering {
      match this
      case Less => Greater
      case Same => Same
      case Greater => Less
    }
  }

  function CompareReal(a: real, b: real): (r: Ordering)
    ensures r == Same <==> a == b
    ensures r == Less <==> a < b
  {
    if a < b then Less else if a == b then Same else Greater
  }

  /** Strings ordered character by character on code points, a prefix
      first; no collation. */
  function CompareString(a: string, b: string): (r: Ordering)
    decreases |a|
  {
    if a == [] then (if b == [] then Same else Less)
    else if b == [] then Greater
    else if a[0] < b[0] then Less
    else if a[0] > b[0] then Greater
    else CompareString(a[1..], b[1..])
  }

  /** Swapping the operands flips the string comparison. */
  lemma {:induction false} CompareStringFlip(a: string, b: string)
    ensures CompareString(b, a) == CompareString(a, b).Flip()
    decreases |a|
  {
    if a != [] && b != [] && a[0] == b[0] {
      CompareStringFlip(a[1..], b[1..]);
    }
  }

  /** Two strings compare equal exactly when they are the same string. */
  lemma {:induction false} CompareStringSame(a: string, b: string)
    ensures CompareString(a, b) == Same <==> a == b
    decreases |a|
  {
    if a != [] && b != [] && a[0] == b[0] {
      CompareStringSame(a[1..], b[1..]);
      assert a == [a[0]] + a[1..];
      assert b == [b[0]] + b[1..];
    }
  }

  /** String order is transitive, and two steps compare equal only when
      both do. */
  lemma {:induction false} CompareStringTrans(a: string, b: string, c: string)
    requires CompareString(a, b) != Greater && CompareString(b, c) != Greater
    ensures CompareString(a, c) != Greater
    ensures CompareString(a, c) == Same ==> CompareString(a, b) == Same && CompareString(b, c) == Same
    decreases |a|
  {
    if a != [] && b != [] && c != [] && a[0] == b[0] && b[0] == c[0] {
      CompareStringTrans(a[1..], b[1..], c[1..]);
    }
  }
}
