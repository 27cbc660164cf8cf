/**
 * The two places where the game's integer width shows through: `<<` on an
 * i32 (which discards the bits shifted out rather than panicking) and an
 * `as i32` cast of a u32.  Everywhere else the model computes exactly.
 */
module Int32 {

  const MIN: int := -0x8000_0000
  const MAX: int := 0x7fff_ffff
  const MODULUS: int := 0x1_0000_0000

  predicate InRange(n: int) {
    MIN <= n <= MAX
  }

  /** Two's-complement wrap-around of an integer into the i32 range. */
  function Wrap(n: int): (r: int)
    ensures InRange(r)
    ensures (n - r) % MODULUS == 0
    ensures InRange(n) ==> r == n
  {
    (n - MIN) % MODULUS + MIN
  }

  /** `u as i32` for a u32 `u`. */
  function FromU32(u: nat): (r: int)
    requires u < MODULUS
    ensures InRange(r)
    ensures u <= MAX ==> r == u
    ensures u > MAX ==> r == u - MODULUS
  {
    Wrap(u)
  }

  /** Integer division rounding toward zero, as Rust's `/` on i32 does
      (Dafny's own `/` rounds toward negative infinity for a positive divisor). */
  function TruncDiv(a: int, b: int): (r: int)
    requires b > 0
    ensures a >= 0 ==> 0 <= b * r <= a < b * r + b
    ensures a < 0 ==> b * r - b < a <= b * r <= 0
  {
    if a >= 0 then
      DivBounds(a, b);
      a / b
    else
      DivBounds(-a, b);
      -((-a) / b)
  }

  /** Division of a non-negative number by a positive one leaves a
      remainder below the divisor. */
  lemma DivBounds(a: nat, b: int)
    requires b > 0
    ensures 0 <= a / b && 0 <= b * (a / b) <= a < b * (a / b) + b
  {
    var q, m := a / b, a % b;
    assert a == b * q + m && 0 <= m < b;
    assert 0 <= q;
  }
}
