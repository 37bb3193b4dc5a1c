/** JavaScript's `Math.round` of a quotient, on integers. */
module JsMath {

  /**
   * `Math.round(a / b)` for a positive divisor: the nearest integer, with
   * halves rounded up (towards positive infinity, also for negative quotients).
   */
  function RoundDiv(a: int, b: int): (r: int)
    requires b > 0
    ensures 2 * b * r <= 2 * a + b < 2 * b * r + 2 * b
  {
    (2 * a + b) / (2 * b)
  }

  /** A rounded mean of values between `lo` and `hi` is itself between them. */
  lemma RoundDivBetween(a: int, b: int, lo: int, hi: int)
    requires b > 0 && b * lo <= a <= b * hi
    ensures lo <= RoundDiv(a, b) <= hi
  {
    var r := RoundDiv(a, b);
    var m := 2 * b * r;
    assert m <= 2 * a + b < m + 2 * b;
    assert b * (2 * lo + 1) == 2 * (b * lo) + b;
    assert m + 2 * b == b * (2 * r + 2);
    CancelFactor(b, 2 * lo + 1, 2 * r + 2);
    assert m == b * (2 * r);
    assert b * (2 * hi + 1) == 2 * (b * hi) + b;
    CancelFactorAtMost(b, 2 * r, 2 * hi + 1);
  }

  lemma CancelFactor(b: int, x: int, y: int)
    requires b > 0 && b * x < b * y
    ensures x < y
  {
    assert b * (y - x) > 0;
  }

  lemma CancelFactorAtMost(b: int, x: int, y: int)
    requires b > 0 && b * x <= b * y
    ensures x <= y
  {
    assert b * (y - x) >= 0;
  }
}
