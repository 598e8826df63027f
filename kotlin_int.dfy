/**
 * Kotlin's `Int` and its integer division, as far as the view-count formatter
 * uses them.
 */
module KotlinInt {

  const MIN_VALUE: int := -0x8000_0000
  const MAX_VALUE: int := 0x7FFF_FFFF

  /** Kotlin's `Int`: a signed 32-bit integer. */
  type Int32 = x: int | MIN_VALUE <= x <= MAX_VALUE

  /** Euclidean division of a natural number: `a` splits into whole multiples of `d` and a remainder below `d`. */
  lemma DivideNat(a: nat, d: int)
    requires d > 0
    ensures (a / d) * d <= a < (a / d) * d + d
    ensures (-(a / d)) * d == -((a / d) * d)
  {
    var q, m := a / d, a % d;
    assert a == d * q + m && 0 <= m < d;
    assert d * q == q * d;
    assert (-q) * d == -(q * d);
  }

  /**
   * Kotlin's `a / d` on integers for a positive divisor: the quotient is
   * truncated toward zero (Dafny's own `/` rounds toward negative infinity
   * for a negative dividend, so the two differ there).
   */
  function Div(a: int, d: int): (q: int)
    requires d > 0
    ensures a >= 0 ==> 0 <= q && q * d <= a < q * d + d
    ensures a < 0 ==> q <= 0 && q * d - d < a <= q * d
  {
    if a >= 0 then
      DivideNat(a, d);
      a / d
    else
      DivideNat(-a, d);
      -((-a) / d)
  }
}
