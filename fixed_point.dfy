/**
 * Integer arithmetic shared by the contracts: the fixed-point unit, the basis-point
 * unit, and the two `java.math.BigInteger` operations whose behaviour on negative
 * operands differs from Dafny's built-in operators.
 */
module FixedPoint {

  /** 10^18, the fixed-point representation of 100% (Constants.EXA). */
  const EXA: int := 1_000_000_000_000_000_000

  /** 10000 points = 100%, the unit of the slippage and swap-reward parameters. */
  const POINTS: int := 10_000

  const TWO_32: int := 0x1_0000_0000
  const TWO_31: int := 0x8000_0000

  function Abs(x: int): (r: int)
    ensures r >= 0 && (r == x || r == -x)
  {
    if x < 0 then -x else x
  }

  function Min(a: int, b: int): (r: int)
    ensures r <= a && r <= b && (r == a || r == b)
  {
    if a <= b then a else b
  }

  /**
   * `a.divide(b)` on BigInteger: the quotient is rounded toward zero, so its magnitude
   * is the floor of the magnitudes and its sign is the product of the operands' signs.
   * Dafny's `/` rounds so that the remainder is never negative; the two agree when
   * both operands are non-negative.
   */
  function Quot(a: int, b: int): (q: int)
    requires b != 0
    ensures Abs(q) == Abs(a) / Abs(b)
    ensures q > 0 ==> (a < 0) == (b < 0)
    ensures q < 0 ==> (a < 0) != (b < 0)
    ensures 0 <= a && 0 < b ==> q == a / b
  {
    var m := Abs(a) / Abs(b);
    assert 0 <= m;
    if (a < 0) != (b < 0) then -m else m
  }

  /**
   * `x.intValue()` on BigInteger: the low-order 32 bits of `x` read as a
   * two's-complement int.
   */
  function IntValue(x: int): (r: int)
    ensures -TWO_31 <= r < TWO_31
    ensures (x - r) % TWO_32 == 0
    ensures -TWO_31 <= x < TWO_31 ==> r == x
  {
    (x + TWO_31) % TWO_32 - TWO_31
  }
}
