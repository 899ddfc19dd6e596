/** Optional values and the JavaScript truthiness tests the route handler applies to them.

    Every number the handler reads from a data provider may be missing. The handler then
    tests it with plain truthiness (`if (x)`, `x && ...`, `x || null`, `x ? ... : null`),
    which treats a present 0 exactly like a missing value. `Known` captures that test once.
 */
module Values {

  datatype Option<+T> = None | Some(value: T)

  datatype Result<+T, +E> = Success(value: T) | Failure(error: E)

  /** JavaScript truthiness of an optional number: present and not zero. */
  predicate Known(x: Option<real>) {
    x.Some? && x.value != 0.0
  }

  /** `x || null` for an optional number: a falsy number becomes null. */
  function OrNull(x: Option<real>): (r: Option<real>)
    ensures r.Some? <==> Known(x)
    ensures r.Some? ==> r.value == x.value
  {
    if Known(x) then x else None
  }

  /** `s || fallback` for a string: the empty string is falsy. */
  function StringOr(s: string, fallback: string): (r: string)
    ensures |s| > 0 ==> r == s
    ensures |s| == 0 ==> r == fallback
  {
    if |s| > 0 then s else fallback
  }

  /** `s || fallback` for an optional string: a missing or empty string is falsy. */
  function TextOr(s: Option<string>, fallback: string): (r: string)
    ensures s.Some? && |s.value| > 0 ==> r == s.value
    ensures s.None? || |s.value| == 0 ==> r == fallback
  {
    if s.Some? then StringOr(s.value, fallback) else fallback
  }

  function Max(a: real, b: real): (r: real)
    ensures r >= a && r >= b && (r == a || r == b)
  {
    if a >= b then a else b
  }

  function Min(a: real, b: real): (r: real)
    ensures r <= a && r <= b && (r == a || r == b)
  {
    if a <= b then a else b
  }

  function Abs(x: real): (r: real)
    ensures r >= 0.0 && (r == x || r == -x)
  {
    if x < 0.0 then -x else x
  }

  /** Sign facts about a product `p == x * a`, stated over the named product so that callers
      reason about `p` linearly. */
  lemma PositiveProduct(a: real, b: real, p: real)
    requires a > 0.0 && b > 0.0 && p == a * b
    ensures p > 0.0
  {
  }

  /** Scaling by a positive factor keeps the sign. */
  lemma ProductSign(x: real, a: real, p: real)
    requires a > 0.0 && p == x * a
    ensures p > 0.0 <==> x > 0.0
    ensures p < 0.0 <==> x < 0.0
  {
    if x > 0.0 {
      PositiveProduct(x, a, p);
    } else if x < 0.0 {
      PositiveProduct(-x, a, -p);
    }
  }
}
