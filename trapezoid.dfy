/** The fuzzy-implication demo of ml2/main.py: a trapezoidal membership
    function, implication by minimum, the two term tables of the sport
    example, and the membership curves sampled over their universes. */
module Trapezoid {
  import opened Reals

  /** `trapezoid_membership(x, a, b, c, d)`. The breakpoints are not required
      to be ordered; every division is guarded by the branch that reaches it,
      and the last fall-through `return 0.0` of the source is unreachable. */
  function Membership(x: real, a: real, b: real, c: real, d: real): (r: real)
    ensures 0.0 <= r <= 1.0
    ensures x <= a || x >= d ==> r == 0.0
    ensures r == 1.0 <==> b <= x <= c && a < x < d
    ensures r > 0.0 <==> a < x < d
  {
    if x <= a || x >= d then 0.0
    else if a < x < b then RampBelowOne(x - a, b - a); (x - a) / (b - a)
    else if b <= x <= c then 1.0
    else if c < x < d then RampBelowOne(d - x, d - c); (d - x) / (d - c)
    else assert false; 0.0
  }

  /** A ramp value num/den with 0 < num < den lies strictly between 0 and 1. */
  lemma RampBelowOne(num: real, den: real)
    requires 0.0 < num < den
    ensures 0.0 < num / den < 1.0
  {
    var q := num / den;
    assert q * den == num;
    if q >= 1.0 {
      MulLeftMonotone(den, 1.0, q);
    }
  }

  /** For a ≤ b ≤ c ≤ d the membership does not decrease along [a, b], as long
      as the right end stays below d (at x = d the value drops to 0). */
  lemma RisingEdgeMonotone(a: real, b: real, c: real, d: real, x: real, y: real)
    requires a <= b <= c <= d
    requires a <= x <= y <= b && y < d
    ensures Membership(x, a, b, c, d) <= Membership(y, a, b, c, d)
  {
    if a < x && y < b {
      DivMonotone(x - a, y - a, b - a);
    }
  }

  /** For a ≤ b ≤ c ≤ d the membership does not increase along [c, d], as long
      as the left end stays above a (at x = a the value is 0). */
  lemma FallingEdgeMonotone(a: real, b: real, c: real, d: real, x: real, y: real)
    requires a <= b <= c <= d
    requires c <= x <= y <= d && a < x
    ensures Membership(x, a, b, c, d) >= Membership(y, a, b, c, d)
  {
    if c < x && y < d {
      DivMonotone(d - y, d - x, d - c);
    }
  }

  /** `fuzzy_implication(mu_A, mu_B)`: the element-wise minimum over the
      common prefix, as `zip` stops at the shorter list. */
  function Implication(muA: seq<real>, muB: seq<real>): (r: seq<real>)
    ensures |r| == if |muA| <= |muB| then |muA| else |muB|
    ensures forall i :: 0 <= i < |r| ==> r[i] <= muA[i] && r[i] <= muB[i]
    ensures forall i :: 0 <= i < |r| ==> r[i] == muA[i] || r[i] == muB[i]
  {
    var n := if |muA| <= |muB| then |muA| else |muB|;
    seq(n, i requires 0 <= i < n => Min(muA[i], muB[i]))
  }

  /** Implication by minimum does not depend on the order of its arguments. */
  lemma ImplicationCommutative(muA: seq<real>, muB: seq<real>)
    ensures Implication(muA, muB) == Implication(muB, muA)
  {
    var l, r := Implication(muA, muB), Implication(muB, muA);
    assert |l| == |r|;
    forall i | 0 <= i < |l| ensures l[i] == r[i] {
      MinUnique(muA[i], muB[i], l[i], r[i]);
    }
  }

  lemma MinUnique(x: real, y: real, u: real, v: real)
    requires u <= x && u <= y && (u == x || u == y)
    requires v <= x && v <= y && (v == x || v == y)
    ensures u == v
  {
  }

  /** Breakpoints (a, b, c, d) of one trapezoid. */
  datatype Params = Params(a: real, b: real, c: real, d: real)

  predicate Ordered(p: Params) {
    p.a <= p.b <= p.c <= p.d
  }

  function MembershipOf(p: Params, x: real): real {
    Membership(x, p.a, p.b, p.c, p.d)
  }

  /** Keys of `state_params`: "Устал" (tired), "Нормально" (normal),
      "В форме" (fit). */
  datatype StateTerm = Tired | Normal | Fit

  /** Keys of `intensity_params`: "Легкая" (light), "Средняя" (medium),
      "Тяжелая" (heavy). */
  datatype IntensityTerm = Light | Moderate | Heavy

  /** The `state_params` table; every entry has ordered breakpoints. */
  function StateParams(t: StateTerm): (p: Params)
    ensures Ordered(p)
  {
    match t
    case Tired => Params(0.0, 2.0, 3.0, 4.0)
    case Normal => Params(3.0, 6.0, 6.5, 8.0)
    case Fit => Params(6.5, 8.0, 10.0, 10.0)
  }

  /** The `intensity_params` table; every entry has ordered breakpoints. */
  function IntensityParams(t: IntensityTerm): (p: Params)
    ensures Ordered(p)
  {
    match t
    case Light => Params(0.0, 1.0, 2.0, 4.0)
    case Moderate => Params(1.0, 4.0, 6.5, 8.0)
    case Heavy => Params(5.5, 7.0, 8.0, 10.0)
  }

  /** "В форме" has c = d = 10, so at the top of the universe it is 0, not 1. */
  lemma FitIsZeroAtTop()
    ensures MembershipOf(StateParams(Fit), 10.0) == 0.0
    ensures MembershipOf(StateParams(Fit), 9.0) == 1.0
  {
  }

  /** Both universes are `numpy.linspace(0, 10, 200)`. */
  const Samples: nat := 200

  function UniversePoint(i: nat): (x: real)
    requires i < Samples
    ensures 0.0 <= x <= 10.0
  {
    Linspace(0.0, 10.0, Samples, i)
  }

  /** `mu_state[t]`: the membership of term t at every sample point. Every
      degree lies in [0, 1], and every term vanishes at both ends of the
      universe, since every entry of the table has a >= 0 and d <= 10 (for
      "В форме" at 10 because d = 10 itself). */
  function MuState(t: StateTerm): (mu: seq<real>)
    ensures |mu| == Samples
    ensures forall i :: 0 <= i < Samples ==> mu[i] == MembershipOf(StateParams(t), UniversePoint(i))
    ensures forall i :: 0 <= i < Samples ==> 0.0 <= mu[i] <= 1.0
    ensures mu[0] == 0.0 && mu[Samples - 1] == 0.0
  {
    seq(Samples, i requires 0 <= i < Samples => MembershipOf(StateParams(t), UniversePoint(i)))
  }

  /** `mu_intensity[t]`: the membership of term t at every sample point.
      Every degree lies in [0, 1], and every term vanishes at both ends of
      the universe. */
  function MuIntensity(t: IntensityTerm): (mu: seq<real>)
    ensures |mu| == Samples
    ensures forall i :: 0 <= i < Samples ==> mu[i] == MembershipOf(IntensityParams(t), UniversePoint(i))
    ensures forall i :: 0 <= i < Samples ==> 0.0 <= mu[i] <= 1.0
    ensures mu[0] == 0.0 && mu[Samples - 1] == 0.0
  {
    seq(Samples, i requires 0 <= i < Samples => MembershipOf(IntensityParams(t), UniversePoint(i)))
  }

  /** The rule pairs of `imp1` .. `imp7`, in the order listed. */
  const ImplicationPairs: seq<(StateTerm, IntensityTerm)> :=
    [(Tired, Light), (Normal, Moderate), (Fit, Heavy), (Tired, Moderate),
     (Normal, Heavy), (Normal, Light), (Fit, Moderate)]

  /** `fuzzy_implication(mu_state[s], mu_intensity[t])`: one degree per
      sample point, each in [0, 1] and at most the degree of either term
      there; like both terms it vanishes at both ends of the universe. */
  function ImplicationCurve(s: StateTerm, t: IntensityTerm): (curve: seq<real>)
    ensures |curve| == Samples
    ensures forall i :: 0 <= i < Samples ==>
      && 0.0 <= curve[i] <= 1.0
      && curve[i] <= MembershipOf(StateParams(s), UniversePoint(i))
      && curve[i] <= MembershipOf(IntensityParams(t), UniversePoint(i))
    ensures curve[0] == 0.0 && curve[Samples - 1] == 0.0
  {
    var ms, mi := MuState(s), MuIntensity(t);
    var curve := Implication(ms, mi);
    assert forall i :: 0 <= i < Samples ==> curve[i] == ms[i] || curve[i] == mi[i];
    curve
  }

  /** `imp1` .. `imp7`: seven curves, the k-th the implication of the k-th
      rule pair. */
  function Implications(): (curves: seq<seq<real>>)
    ensures |curves| == |ImplicationPairs| == 7
    ensures forall k :: 0 <= k < |curves| ==>
      curves[k] == ImplicationCurve(ImplicationPairs[k].0, ImplicationPairs[k].1)
    ensures forall k, i :: 0 <= k < |curves| && 0 <= i < |curves[k]| ==> 0.0 <= curves[k][i] <= 1.0
  {
    seq(|ImplicationPairs|, k requires 0 <= k < |ImplicationPairs| =>
      ImplicationCurve(ImplicationPairs[k].0, ImplicationPairs[k].1))
  }
}
