/** Discrete centroid defuzzification, the loop shared by `defuzzify_speed`,
    `defuzzify_feed` and `defuzzify_cooling` of ml3/ml3.py. An output variable
    has three triangular terms, a sampled range and a fallback value; the
    three source routines are instances of `Defuzzify` (see module Machining). */
module Defuzzifier {
  import opened Reals

  /** A triangle with feet a and c and its peak at b. */
  datatype Triangle = Triangle(a: real, b: real, c: real)

  /** Every triangle of the source has a < b < c, so neither ramp divides by 0. */
  predicate ValidTriangle(t: Triangle) {
    t.a < t.b < t.c
  }

  /** `max(0, min(1, (x - a)/(b - a), (c - x)/(c - b))) if a <= x <= c else 0`. */
  function TriangleDegree(t: Triangle, x: real): (r: real)
    requires ValidTriangle(t)
    ensures 0.0 <= r <= 1.0
    ensures r > 0.0 <==> t.a < x < t.c
    ensures r == 1.0 <==> x == t.b
  {
    if t.a <= x <= t.c then
      RampFacts(x, t);
      Max(0.0, Min3(1.0, (x - t.a) / (t.b - t.a), (t.c - x) / (t.c - t.b)))
    else 0.0
  }

  lemma RampFacts(x: real, t: Triangle)
    requires ValidTriangle(t) && t.a <= x <= t.c
    ensures var up, down := (x - t.a) / (t.b - t.a), (t.c - x) / (t.c - t.b);
      (up > 0.0 <==> x > t.a) && (down > 0.0 <==> x < t.c) &&
      (up >= 1.0 <==> x >= t.b) && (down >= 1.0 <==> x <= t.b)
  {
    Ramp(x - t.a, t.b - t.a);
    Ramp(t.c - x, t.c - t.b);
  }

  /** A ramp num/den over a positive width is positive exactly when num is,
      and at least 1 exactly when num reaches the width. */
  lemma Ramp(num: real, den: real)
    requires den > 0.0
    ensures num / den > 0.0 <==> num > 0.0
    ensures num / den >= 1.0 <==> num >= den
  {
    var q := num / den;
    assert q * den == num;
    if q >= 1.0 {
      MulLeftMonotone(den, 1.0, q);
    } else {
      MulLeftStrict(den, q, 1.0);
      assert num < den;
    }
  }

  /** The aggregated activation of each of the three terms, in source order. */
  datatype Activations = Activations(first: real, second: real, third: real)

  predicate NonNegative(act: Activations) {
    act.first >= 0.0 && act.second >= 0.0 && act.third >= 0.0
  }

  /** Three terms, the sampled range [lo, hi] and the value returned when no
      sample has positive membership. */
  datatype OutputVariable = OutputVariable(
    first: Triangle, second: Triangle, third: Triangle,
    lo: real, hi: real, fallback: real)

  predicate ValidVariable(v: OutputVariable) {
    ValidTriangle(v.first) && ValidTriangle(v.second) && ValidTriangle(v.third)
  }

  /** The three terms lie inside the sampled range and leave no gap in it:
      every point strictly inside [lo, hi] has positive degree in some term. */
  ghost predicate CoversRange(v: OutputVariable)
    requires ValidVariable(v)
  {
    && v.lo == v.first.a && v.third.c == v.hi
    && v.lo <= v.second.a && v.second.c <= v.hi
    && forall x :: v.lo < x < v.hi ==>
         TriangleDegree(v.first, x) > 0.0 || TriangleDegree(v.second, x) > 0.0 || TriangleDegree(v.third, x) > 0.0
  }

  /** Term t with activation level h can contribute at x. */
  predicate Contributes(t: Triangle, h: real, x: real) {
    h > 0.0 && t.a < x < t.c
  }

  /** `mu_output`: each term clipped at its activation with `min`, the three
      combined with `max`. */
  function OutputDegree(v: OutputVariable, act: Activations, x: real): (mu: real)
    requires ValidVariable(v)
    ensures NonNegative(act) ==> mu >= 0.0
    ensures mu > 0.0 ==> Contributes(v.first, act.first, x) || Contributes(v.second, act.second, x) ||
                         Contributes(v.third, act.third, x)
    ensures mu <= Max3(act.first, act.second, act.third)
  {
    Max3(Min(TriangleDegree(v.first, x), act.first),
         Min(TriangleDegree(v.second, x), act.second),
         Min(TriangleDegree(v.third, x), act.third))
  }

  /** The i-th of the n sample points `numpy.linspace(lo, hi, n)`. */
  function Sample(v: OutputVariable, n: nat, i: nat): real
    requires i < n
  {
    Linspace(v.lo, v.hi, n, i)
  }

  /** `numerator` after the first k samples: the sum of x · mu_output(x).
      Every sample lies in [lo, hi], so for non-negative activations the
      numerator is a weighted sum of points of [lo, hi] whose weights add up
      to the denominator. */
  function Numerator(v: OutputVariable, act: Activations, n: nat, k: nat): (r: real)
    requires ValidVariable(v) && k <= n
    ensures NonNegative(act) && v.lo <= v.hi ==> Within(v.lo, v.hi, r, Denominator(v, act, n, k))
  {
    if k == 0 then 0.0
    else
      var x := Sample(v, n, k - 1);
      var mu := OutputDegree(v, act, x);
      var prev, den := Numerator(v, act, n, k - 1), Denominator(v, act, n, k - 1);
      assert Denominator(v, act, n, k) == den + mu;
      assert NonNegative(act) && v.lo <= v.hi ==> Within(v.lo, v.hi, prev + Moment(x, mu), den + mu) by {
        if NonNegative(act) && v.lo <= v.hi {
          BoundsStep(v.lo, v.hi, prev, den, x, mu);
        }
      }
      prev + Moment(x, mu)
  }

  /** The contribution x · mu of one sample to the numerator. */
  function Moment(x: real, mu: real): real {
    x * mu
  }

  /** `denominator` after the first k samples: the sum of mu_output(x),
      never negative when no activation is. */
  function Denominator(v: OutputVariable, act: Activations, n: nat, k: nat): (d: real)
    requires ValidVariable(v) && k <= n
    ensures NonNegative(act) ==> d >= 0.0
  {
    if k == 0 then 0.0
    else Denominator(v, act, n, k - 1) + OutputDegree(v, act, Sample(v, n, k - 1))
  }

  /** The crisp value: numerator / denominator when the denominator is
      positive, the variable's fallback otherwise. For non-negative
      activations it is a point of [lo, hi] or the fallback. */
  function Centroid(v: OutputVariable, act: Activations, n: nat): (r: real)
    requires ValidVariable(v)
    ensures NonNegative(act) && v.lo <= v.hi ==> v.lo <= r <= v.hi || r == v.fallback
  {
    var num, den := Numerator(v, act, n, n), Denominator(v, act, n, n);
    if den > 0.0 then
      assert NonNegative(act) && v.lo <= v.hi ==> v.lo <= num / den <= v.hi by {
        if NonNegative(act) && v.lo <= v.hi {
          QuotientWithin(num, den, v.lo, v.hi);
        }
      }
      num / den
    else v.fallback
  }

  /** The centroid loop over n samples (the source uses n = 100). */
  method Defuzzify(v: OutputVariable, act: Activations, n: nat) returns (r: real)
    requires ValidVariable(v)
    ensures r == Centroid(v, act, n)
  {
    var numerator := 0.0;
    var denominator := 0.0;
    for i := 0 to n
      invariant numerator == Numerator(v, act, n, i)
      invariant denominator == Denominator(v, act, n, i)
    {
      var x := Linspace(v.lo, v.hi, n, i);
      var mu := OutputDegree(v, act, x);
      numerator := numerator + Moment(x, mu);
      denominator := denominator + mu;
    }
    r := if denominator > 0.0 then numerator / denominator else v.fallback;
  }

  /** With every activation 0 no sample has positive membership. */
  lemma {:induction false} DenominatorZero(v: OutputVariable, n: nat, k: nat)
    requires ValidVariable(v) && k <= n
    ensures Denominator(v, Activations(0.0, 0.0, 0.0), n, k) == 0.0
  {
    if k > 0 {
      DenominatorZero(v, n, k - 1);
    }
  }

  /** All activations 0: the result is exactly the variable's fallback. */
  lemma ZeroActivationFallback(v: OutputVariable, n: nat)
    requires ValidVariable(v)
    ensures Centroid(v, Activations(0.0, 0.0, 0.0), n) == v.fallback
  {
    DenominatorZero(v, n, n);
  }

  /** If every sample with positive membership among the first k lies in
      [low, high], the weighted sum is bounded by low and high times the total
      weight. */
  lemma {:induction false} WeightedSumBounds(v: OutputVariable, act: Activations, n: nat, k: nat, low: real, high: real)
    requires ValidVariable(v) && NonNegative(act) && k <= n
    requires forall i :: 0 <= i < k && OutputDegree(v, act, Sample(v, n, i)) > 0.0 ==>
      low <= Sample(v, n, i) <= high
    ensures Denominator(v, act, n, k) >= 0.0
    ensures Within(low, high, Numerator(v, act, n, k), Denominator(v, act, n, k))
  {
    if k > 0 {
      WeightedSumBounds(v, act, n, k - 1, low, high);
      var x := Sample(v, n, k - 1);
      var mu := OutputDegree(v, act, x);
      var num, den := Numerator(v, act, n, k - 1), Denominator(v, act, n, k - 1);
      BoundsStep(low, high, num, den, x, mu);
      SumsStep(v, act, n, k);
    }
  }

  /** One more sample adds its moment to the numerator and its degree to the
      denominator. */
  lemma SumsStep(v: OutputVariable, act: Activations, n: nat, k: nat)
    requires ValidVariable(v) && 0 < k <= n
    ensures var x := Sample(v, n, k - 1);
      && Numerator(v, act, n, k) == Numerator(v, act, n, k - 1) + Moment(x, OutputDegree(v, act, x))
      && Denominator(v, act, n, k) == Denominator(v, act, n, k - 1) + OutputDegree(v, act, x)
  {
  }

  /** low · den <= num <= high · den. */
  predicate Within(low: real, high: real, num: real, den: real) {
    low * den <= num <= high * den
  }

  /** Adding one weighted sample keeps the weighted sum within the bounds. */
  lemma BoundsStep(low: real, high: real, num: real, den: real, x: real, mu: real)
    requires den >= 0.0 && Within(low, high, num, den)
    requires mu >= 0.0 && (mu > 0.0 ==> low <= x <= high)
    ensures den + mu >= 0.0
    ensures Within(low, high, num + Moment(x, mu), den + mu)
  {
    if mu > 0.0 {
      MulLeftMonotone(mu, low, x);
      MulLeftMonotone(mu, x, high);
    }
  }

  /** A weighted mean with positive total weight lies between the bounds. */
  lemma QuotientWithin(num: real, den: real, low: real, high: real)
    requires den > 0.0
    requires Within(low, high, num, den)
    ensures low <= num / den <= high
  {
    var q := num / den;
    assert q * den == num;
    if q < low { MulLeftMonotone(den, q, low); }
    if q > high { MulLeftMonotone(den, high, q); }
  }

  /** Whenever some sample has positive membership, the centroid lies in the
      sampled range [lo, hi]; if none has, the result is the fallback, so a
      fallback inside the range keeps every result inside it. */
  lemma CentroidInRange(v: OutputVariable, act: Activations, n: nat)
    requires ValidVariable(v) && NonNegative(act) && v.lo <= v.hi
    ensures Denominator(v, act, n, n) > 0.0 ==> v.lo <= Centroid(v, act, n) <= v.hi
    ensures v.lo <= v.fallback <= v.hi ==> v.lo <= Centroid(v, act, n) <= v.hi
  {
    WeightedSumBounds(v, act, n, n, v.lo, v.hi);
    var den := Denominator(v, act, n, n);
    if den > 0.0 {
      QuotientWithin(Numerator(v, act, n, n), den, v.lo, v.hi);
    }
  }

  /** A term whose activation is positive has its support inside [low, high]. */
  predicate SupportWithin(t: Triangle, h: real, low: real, high: real) {
    h > 0.0 ==> low <= t.a && t.c <= high
  }

  /** When the active terms all lie inside [low, high] and the denominator is
      positive, so does the centroid; for instance a single active term pulls
      the centroid inside that term's support. */
  lemma CentroidInSupport(v: OutputVariable, act: Activations, n: nat, low: real, high: real)
    requires ValidVariable(v) && NonNegative(act)
    requires SupportWithin(v.first, act.first, low, high)
    requires SupportWithin(v.second, act.second, low, high)
    requires SupportWithin(v.third, act.third, low, high)
    requires Denominator(v, act, n, n) > 0.0
    ensures low <= Centroid(v, act, n) <= high
  {
    WeightedSumBounds(v, act, n, n, low, high);
    QuotientWithin(Numerator(v, act, n, n), Denominator(v, act, n, n), low, high);
  }

  /** One sample with positive membership makes the total weight positive. */
  lemma {:induction false} DenominatorPositive(v: OutputVariable, act: Activations, n: nat, k: nat, i: nat)
    requires ValidVariable(v) && NonNegative(act)
    requires i < k <= n
    requires OutputDegree(v, act, Sample(v, n, i)) > 0.0
    ensures Denominator(v, act, n, k) > 0.0
  {
    assert Denominator(v, act, n, k) ==
      Denominator(v, act, n, k - 1) + OutputDegree(v, act, Sample(v, n, k - 1));
    if i < k - 1 {
      DenominatorPositive(v, act, n, k - 1, i);
    }
  }
}
