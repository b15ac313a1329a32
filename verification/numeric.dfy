/** Integer helpers shared by the pages: the clamp used for every displayed score and the
    half-up rounding of `Math.round`. */
module Numeric {

  function Min(a: int, b: int): int { if a <= b then a else b }

  function Max(a: int, b: int): int { if a >= b then a else b }

  /** `clamp(n, a, b) = Math.max(a, Math.min(b, n))`. When the range is empty the lower
      bound wins, because the outer call is the `max`. */
  function Clamp(n: int, lo: int, hi: int): (r: int)
    ensures lo <= hi ==> lo <= r <= hi
    ensures lo <= n <= hi ==> r == n
    ensures n < lo ==> r == lo
    ensures lo <= hi < n ==> r == hi
    ensures hi < lo ==> r == lo
  {
    Max(lo, Min(hi, n))
  }

  /** Clamping never reverses the order of two inputs. */
  lemma ClampMonotone(n: int, m: int, lo: int, hi: int)
    requires n <= m
    ensures Clamp(n, lo, hi) <= Clamp(m, lo, hi)
  {
  }

  /** `Math.round(num / den)` for a positive integer denominator: the nearest integer, with
      halves rounded towards positive infinity. The contract pins the result down uniquely:
      `r - 1/2 <= num/den < r + 1/2`. */
  function RoundHalfUp(num: int, den: int): (r: int)
    requires den > 0
    ensures 2 * den * r - den <= 2 * num < 2 * den * r + den
  {
    var q := (2 * num + den) / (2 * den);
    assert 2 * den * q <= 2 * num + den < 2 * den * q + 2 * den;
    q
  }

  /** A mean of values that all lie in `[lo, hi]` rounds to a value in `[lo, hi]`. */
  lemma RoundedMeanBounds(sum: int, n: int, lo: int, hi: int)
    requires n > 0
    requires n * lo <= sum <= n * hi
    ensures lo <= RoundHalfUp(sum, n) <= hi
  {
    var r := RoundHalfUp(sum, n);
    if r < lo {
      MulMonotone(n, r, lo - 1);
      assert false;
    }
    if r > hi {
      MulMonotone(n, hi + 1, r);
      assert false;
    }
  }

  lemma MulMonotone(n: int, a: int, b: int)
    requires n > 0 && a <= b
    ensures n * a <= n * b
  {
    assert n * b == n * a + n * (b - a);
  }
}
