/**
 * The JavaScript number operations the transformer relies on, written out
 * over unbounded reals and integers (floating-point rounding is not modelled).
 */
module JsMath {

  /** `Math.abs`. */
  function Abs(v: real): (r: real)
    ensures 0.0 <= r && (r == v || r == -v)
  {
    if v < 0.0 then -v else v
  }

  /** `Math.abs` on a whole number. */
  function AbsInt(v: int): (r: int)
    ensures 0 <= r && (r == v || r == -v)
  {
    if v < 0 then -v else v
  }

  /** `Math.max` of two whole numbers. */
  function MaxInt(a: int, b: int): (r: int)
    ensures a <= r && b <= r && (r == a || r == b)
  {
    if a < b then b else a
  }

  /** `Math.round`: the nearest integer, ties rounded toward +infinity (so -2.5 becomes -2). */
  function Round(v: real): (r: int)
    ensures v - 0.5 < r as real <= v + 0.5
  {
    (v + 0.5).Floor
  }

  /** `Math.sign`, with `Math.sign(0) == 0`. */
  function Sign(v: real): (r: real)
    ensures r == 1.0 <==> 0.0 < v
    ensures r == -1.0 <==> v < 0.0
    ensures r == 0.0 <==> v == 0.0
  {
    if 0.0 < v then 1.0 else if v < 0.0 then -1.0 else 0.0
  }

  /** Rounding toward zero, the quotient that JavaScript's `%` is built on. */
  function Trunc(v: real): (r: int)
    ensures 0.0 <= v ==> 0 <= r && r as real <= v < r as real + 1.0
    ensures v < 0.0 ==> r <= 0 && r as real - 1.0 < v <= r as real
  {
    if 0.0 <= v then v.Floor else -((-v).Floor)
  }

  /** `a` is an integer multiple of `b`. */
  ghost predicate IsMultiple(a: real, b: real) {
    exists k: int :: a == Times(k, b)
  }

  function Times(k: int, b: real): real {
    k as real * b
  }

  /**
   * JavaScript `a % b` for a positive divisor: the truncated remainder, which
   * takes the sign of the dividend (unlike Dafny's Euclidean `%`).
   */
  function Rem(a: real, b: real): (r: real)
    requires 0.0 < b
    ensures 0.0 <= a ==> 0.0 <= r < b
    ensures a <= 0.0 ==> -b < r <= 0.0
    ensures IsMultiple(a - r, b)
  {
    var t := Trunc(a / b) as real;
    assert a - (a - t * b) == Times(Trunc(a / b), b);
    if 0.0 <= a / b then
      LeQuotient(t, a, b);
      GtQuotient(t + 1.0, a, b);
      assert (t + 1.0) * b == t * b + b;
      a - t * b
    else
      GeQuotient(t, a, b);
      LtQuotient(t - 1.0, a, b);
      assert (t - 1.0) * b == t * b - b;
      a - t * b
  }

  // Multiplying a bound on the quotient `a / b` by a positive `b`.

  lemma LeQuotient(t: real, a: real, b: real)
    requires 0.0 < b && t <= a / b
    ensures t * b <= a
  {
  }

  lemma LtQuotient(u: real, a: real, b: real)
    requires 0.0 < b && u < a / b
    ensures u * b < a
  {
  }

  lemma GeQuotient(t: real, a: real, b: real)
    requires 0.0 < b && a / b <= t
    ensures a <= t * b
  {
  }

  lemma GtQuotient(u: real, a: real, b: real)
    requires 0.0 < b && a / b < u
    ensures a < u * b
  {
  }

  lemma MultipleDiff(a: real, c: real, b: real)
    requires IsMultiple(a, b) && IsMultiple(c, b)
    ensures IsMultiple(a - c, b)
  {
    var i: int :| a == Times(i, b);
    var j: int :| c == Times(j, b);
    assert a - c == Times(i - j, b);
  }

  /** The remainder is zero exactly when the dividend is a whole multiple of the divisor. */
  lemma RemZeroIffMultiple(a: real, b: real)
    requires 0.0 < b
    ensures Rem(a, b) == 0.0 <==> IsMultiple(a, b)
  {
    if IsMultiple(a, b) {
      var k: int :| a == Times(k, b);
      assert a / b == k as real;
      assert Trunc(a / b) == k;
    }
  }
}
