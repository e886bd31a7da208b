/** Math.pow of the score library: exponentiation by repeated multiplication. */
module MathUtil {
  import opened FixedPoint

  /** b^e, by the recurrence the loop of `pow` follows: b^0 = 1, b^(e+1) = b^e * b. */
  function Power(b: int, e: nat): (r: int)
    ensures b > 0 ==> r > 0
    ensures b >= 0 ==> r >= 0
  {
    if e == 0 then 1 else Power(b, e - 1) * b
  }

  /**
   * `pow(base, exponent)`: multiplies an accumulator that starts at 1 by `base`
   * once for each i in 1..exponent. A negative exponent never enters the loop.
   */
  method Pow(base: int, exponent: int) returns (res: int)
    ensures exponent >= 0 ==> res == Power(base, exponent)
    ensures exponent < 0 ==> res == 1
  {
    res := 1;
    var i := 1;
    while i <= exponent
      invariant 1 <= i
      invariant exponent >= 0 ==> i <= exponent + 1
      invariant exponent < 0 ==> i == 1
      invariant res == Power(base, i - 1)
    {
      res := res * base;
      i := i + 1;
    }
  }

  /** The decimal divisor 10^d of a token with d decimals. */
  function DecimalScale(decimals: int): (r: int)
    ensures r > 0
    ensures decimals <= 0 ==> r == 1
  {
    if decimals <= 0 then 1 else Power(10, decimals)
  }

  /** An 18-decimal token's divisor is exactly the fixed-point unit. */
  lemma EighteenDecimalsIsExa()
    ensures DecimalScale(18) == EXA
  {
    assert Power(10, 6) == 1_000_000;
    assert Power(10, 12) == 1_000_000_000_000;
  }
}
