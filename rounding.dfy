/** `Math.round` of a quotient of non-negative integers, in integer
    arithmetic: the weighted averages and ratios of the analyzers are all
    of the form `Math.round(num / den)`. */
module Rounding {

  /** `Math.round(num / den)`: the nearest integer, halves rounded up. */
  function Round(num: int, den: int): (r: int)
    requires den > 0
    ensures 2 * den * r - den <= 2 * num < 2 * den * r + den
  {
    (2 * num + den) / (2 * den)
  }

  lemma MulAtLeast(n: int, a: int, b: int)
    requires n > 0 && a >= b
    ensures n * a >= n * b
  {
    var d := a - b;
    assert n * a == n * b + n * d;
  }

  /** `Math.round(20 * k / n)` for a part `k` of a whole `n` is a score
      out of 20. */
  lemma RoundShareOfTwenty(k: int, n: int)
    requires 0 <= k <= n && n > 0
    ensures 0 <= Round(20 * k, n) <= 20
    ensures k == n ==> Round(20 * k, n) == 20
    ensures k == 0 ==> Round(20 * k, n) == 0
  {
    var r := Round(20 * k, n);
    if r > 20 {
      MulAtLeast(2 * n, r, 21);
    }
    if r < 0 {
      MulAtLeast(2 * n, 0, r + 1);
    }
    if k == n && r < 20 {
      MulAtLeast(2 * n, 19, r);
    }
    if k == 0 && r > 0 {
      MulAtLeast(2 * n, r, 1);
    }
  }
}
