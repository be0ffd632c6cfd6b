/**
 * Python's built-in `round` applied to an exact rational `n / d`: the nearest
 * integer, with ties going to the even neighbour ("banker's rounding").
 */
module Rounding {

  function RoundHalfEven(n: int, d: int): (r: int)
    requires d > 0
    // r is a nearest integer to n / d ...
    ensures d * (2 * r - 1) <= 2 * n <= d * (2 * r + 1)
    // ... and on a tie it is the even one
    ensures 2 * n == d * (2 * r - 1) || 2 * n == d * (2 * r + 1) ==> r % 2 == 0
  {
    var q, m := n / d, n % d;
    assert 2 * n == 2 * d * q + 2 * m;
    assert d * (2 * q - 1) == 2 * d * q - d && d * (2 * q + 1) == 2 * d * q + d;
    assert d * (2 * q + 3) == 2 * d * q + 3 * d;
    if 2 * m < d then q
    else if 2 * m > d then q + 1
    else if q % 2 == 0 then q
    else q + 1
  }

  lemma MulCancelLess(d: int, a: int, b: int)
    requires d > 0 && d * a < d * b
    ensures a < b
  {
  }

  /** Any integer strictly within one half of n / d is the rounded value. */
  lemma RoundUnique(n: int, d: int, x: int)
    requires d > 0
    requires d * (2 * x - 1) < 2 * n < d * (2 * x + 1)
    ensures RoundHalfEven(n, d) == x
  {
    var r := RoundHalfEven(n, d);
    MulCancelLess(d, 2 * r - 1, 2 * x + 1);
    MulCancelLess(d, 2 * x - 1, 2 * r + 1);
  }

  /** RoundUnique with the product d * x supplied, so that callers stay linear. */
  lemma RoundUniqueScaled(n: int, d: int, x: int, dx: int)
    requires d > 0 && dx == d * x
    requires 2 * dx - d < 2 * n < 2 * dx + d
    ensures RoundHalfEven(n, d) == x
  {
    assert d * (2 * x - 1) == 2 * dx - d && d * (2 * x + 1) == 2 * dx + d;
    RoundUnique(n, d, x);
  }

  /** Rounding an exact multiple of d gives the multiplier back. */
  lemma RoundMultiple(k: int, d: int)
    requires d > 0
    ensures RoundHalfEven(k * d, d) == k
  {
    assert d * (2 * k - 1) == 2 * (k * d) - d;
    assert d * (2 * k + 1) == 2 * (k * d) + d;
    RoundUnique(k * d, d, k);
  }

  lemma RoundMonotone(n1: int, n2: int, d: int)
    requires d > 0 && n1 <= n2
    ensures RoundHalfEven(n1, d) <= RoundHalfEven(n2, d)
  {
    if n1 < n2 {
      // d * (2 * r1 - 1) <= 2 * n1 < 2 * n2 <= d * (2 * r2 + 1)
      MulCancelLess(d, 2 * RoundHalfEven(n1, d) - 1, 2 * RoundHalfEven(n2, d) + 1);
    }
  }
}
