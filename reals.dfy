/** Exact-real helpers shared by the fuzzy-logic modules: Python's two- and
    three-argument `min`/`max`, `numpy.linspace` sample points, and Python's
    `round` (ties to even) taken over exact reals instead of floats. */
module Reals {

  /** Python `min(x, y)`: the first argument unless the second is smaller. */
  function Min(x: real, y: real): (r: real)
    ensures r <= x && r <= y
    ensures r == x || r == y
  {
    if y < x then y else x
  }

  /** Python `max(x, y)`: the first argument unless the second is larger. */
  function Max(x: real, y: real): (r: real)
    ensures r >= x && r >= y
    ensures r == x || r == y
  {
    if y > x then y else x
  }

  /** Python `min(x, y, z)`, scanning left to right. */
  function Min3(x: real, y: real, z: real): (r: real)
    ensures r <= x && r <= y && r <= z
    ensures r == x || r == y || r == z
  {
    Min(Min(x, y), z)
  }

  /** Python `max(x, y, z)`, scanning left to right. */
  function Max3(x: real, y: real, z: real): (r: real)
    ensures r >= x && r >= y && r >= z
    ensures r == x || r == y || r == z
  {
    Max(Max(x, y), z)
  }

  /** The i-th of the n points of `numpy.linspace(lo, hi, n)`: evenly spaced,
      both end points included; a single point is `lo`. */
  function Linspace(lo: real, hi: real, n: nat, i: nat): (x: real)
    requires i < n
    ensures i == 0 ==> x == lo
    ensures n > 1 && i == n - 1 ==> x == hi
    ensures lo <= hi ==> lo <= x <= hi
  {
    if n == 1 then lo
    else
      var step := (hi - lo) / (n - 1) as real;
      StepBounds(lo, hi, n, i);
      lo + i as real * step
  }

  lemma StepBounds(lo: real, hi: real, n: nat, i: nat)
    requires 1 < n && i < n
    ensures lo <= hi ==> lo <= lo + i as real * ((hi - lo) / (n - 1) as real) <= hi
    ensures i == n - 1 ==> lo + i as real * ((hi - lo) / (n - 1) as real) == hi
  {
    var step := (hi - lo) / (n - 1) as real;
    assert step * (n - 1) as real == hi - lo;
    if lo <= hi {
      assert step >= 0.0;
      assert i as real * step <= (n - 1) as real * step by {
        MulLeftMonotone(step, i as real, (n - 1) as real);
      }
    }
  }

  /** y · k ≤ z · k for k ≥ 0 and y ≤ z. */
  lemma MulLeftMonotone(k: real, y: real, z: real)
    requires k >= 0.0 && y <= z
    ensures y * k <= z * k
  {
    assert (z - y) * k >= 0.0;
  }

  /** y · k < z · k for k > 0 and y < z. */
  lemma MulLeftStrict(k: real, y: real, z: real)
    requires k > 0.0 && y < z
    ensures y * k < z * k
  {
    assert (z - y) * k > 0.0;
  }

  /** Python `round(x)` over exact reals: the nearest integer, a tie going to
      the even neighbour. */
  function RoundHalfEven(x: real): (r: int)
    ensures x - 0.5 <= r as real <= x + 0.5
    ensures (r as real == x - 0.5 || r as real == x + 0.5) ==> r % 2 == 0
  {
    var f := x.Floor;
    var frac := x - f as real;
    if frac < 0.5 then f
    else if frac > 0.5 then f + 1
    else if f % 2 == 0 then f
    else f + 1
  }

  /** Rounding never takes a value below an integer it was at or above. */
  lemma RoundAtLeast(x: real, k: int)
    requires x >= k as real
    ensures RoundHalfEven(x) >= k
  {
  }

  /** Rounding never takes a value above an integer it was at or below. */
  lemma RoundAtMost(x: real, k: int)
    requires x <= k as real
    ensures RoundHalfEven(x) <= k
  {
  }

  /** An integer rounds to itself. */
  lemma RoundOfInteger(k: int)
    ensures RoundHalfEven(k as real) == k
  {
  }

  /** Python `round(x, 1)` over exact reals: the nearest multiple of 0.1, a
      tie going to the even multiple. */
  function RoundTenths(x: real): (r: real)
    ensures x - 0.05 <= r <= x + 0.05
  {
    RoundHalfEven(x * 10.0) as real / 10.0
  }

  /** Python `round(x, 3)` over exact reals: the nearest multiple of 0.001, a
      tie going to the even multiple. */
  function RoundThousandths(x: real): (r: real)
    ensures x - 0.0005 <= r <= x + 0.0005
  {
    RoundHalfEven(x * 1000.0) as real / 1000.0
  }

  /** A value at or above a multiple k/10 of 0.1 still is after `round(x, 1)`. */
  lemma RoundTenthsAtLeast(x: real, k: int)
    requires x >= k as real / 10.0
    ensures RoundTenths(x) >= k as real / 10.0
  {
    RoundAtLeast(x * 10.0, k);
  }

  /** `round(x, 3)` keeps a value between two multiples of 0.001 that enclosed it. */
  lemma RoundThousandthsBetween(x: real, lo: int, hi: int)
    requires lo as real / 1000.0 <= x <= hi as real / 1000.0
    ensures lo as real / 1000.0 <= RoundThousandths(x) <= hi as real / 1000.0
  {
    RoundAtLeast(x * 1000.0, lo);
    RoundAtMost(x * 1000.0, hi);
  }

  /** p / d <= q / d for d > 0 and p <= q. */
  lemma DivMonotone(p: real, q: real, d: real)
    requires d > 0.0 && p <= q
    ensures p / d <= q / d
  {
    assert (q - p) / d >= 0.0;
  }

}
