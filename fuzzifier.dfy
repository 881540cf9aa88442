/** Fuzzification of the three crisp material measurements of ml3/ml3.py
    (`FuzzySystem.fuzzify_hardness`, `fuzzify_strength` and
    `fuzzify_thermal_conductivity`). Each term is a clipped piecewise-linear
    expression guarded by the interval on which the source evaluates it. */
module Fuzzifier {
  import opened Reals
  import Trapezoid

  /** The record {'soft', 'medium', 'hard'} returned for hardness. */
  datatype HardnessDegrees = HardnessDegrees(soft: real, medium: real, hard: real)

  /** The record {'low', 'medium', 'high'} returned for strength and thermal
      conductivity (and used for the coolant output). */
  datatype LevelDegrees = LevelDegrees(low: real, medium: real, high: real)

  predicate IsDegree(v: real) {
    0.0 <= v <= 1.0
  }

  predicate HardnessInUnit(h: HardnessDegrees) {
    IsDegree(h.soft) && IsDegree(h.medium) && IsDegree(h.hard)
  }

  predicate LevelInUnit(l: LevelDegrees) {
    IsDegree(l.low) && IsDegree(l.medium) && IsDegree(l.high)
  }

  /** `max(0, min(1, v))`. */
  function Clip(v: real): (r: real)
    ensures IsDegree(r)
  {
    Max(0.0, Min(1.0, v))
  }

  /** `max(0, min(1, u, v))`. */
  function Clip2(u: real, v: real): (r: real)
    ensures IsDegree(r)
  {
    Max(0.0, Min3(1.0, u, v))
  }

  /** `fuzzify_hardness(hardness)`. */
  function FuzzifyHardness(h: real): (r: HardnessDegrees)
    ensures HardnessInUnit(r)
  {
    HardnessDegrees(
      if h <= 4.0 then Clip((4.0 - h) / 2.0) else 0.0,
      if 2.0 <= h <= 8.0 then Clip2((h - 2.0) / 2.0, (8.0 - h) / 2.0) else 0.0,
      if h >= 6.0 then Clip((h - 6.0) / 2.0) else 0.0)
  }

  /** `fuzzify_strength(strength)`. */
  function FuzzifyStrength(s: real): (r: LevelDegrees)
    ensures LevelInUnit(r)
  {
    LevelDegrees(
      if s <= 200.0 then Clip((200.0 - s) / 150.0) else 0.0,
      if 100.0 <= s <= 400.0 then Clip2((s - 100.0) / 150.0, (400.0 - s) / 150.0) else 0.0,
      if s >= 300.0 then Clip((s - 300.0) / 200.0) else 0.0)
  }

  /** `fuzzify_thermal_conductivity(thermal)`. */
  function FuzzifyThermal(t: real): (r: LevelDegrees)
    ensures LevelInUnit(r)
  {
    LevelDegrees(
      if t <= 50.0 then Clip((50.0 - t) / 40.0) else 0.0,
      if 30.0 <= t <= 150.0 then Clip2((t - 30.0) / 40.0, (150.0 - t) / 100.0) else 0.0,
      if t >= 100.0 then Clip((t - 100.0) / 150.0) else 0.0)
  }

  /** The hardness terms reach their plateaus and zeros at the breakpoints
      2, 4, 6 and 8. */
  lemma HardnessBreakpoints(h: real)
    ensures h <= 2.0 ==> FuzzifyHardness(h).soft == 1.0
    ensures h >= 4.0 ==> FuzzifyHardness(h).soft == 0.0
    ensures 4.0 <= h <= 6.0 ==> FuzzifyHardness(h).medium == 1.0
    ensures h <= 2.0 || h >= 8.0 ==> FuzzifyHardness(h).medium == 0.0
    ensures h <= 6.0 ==> FuzzifyHardness(h).hard == 0.0
    ensures h >= 8.0 ==> FuzzifyHardness(h).hard == 1.0
  {
  }

  /** The inline min-of-two-ramps for medium hardness agrees everywhere,
      boundaries included, with the trapezoid (2, 4, 6, 8) of the shared
      trapezoid evaluator. */
  lemma HardnessMediumIsTrapezoid(h: real)
    ensures FuzzifyHardness(h).medium == Trapezoid.Membership(h, 2.0, 4.0, 6.0, 8.0)
  {
  }

  /** The thermal "medium" term never reaches 1: its two ramps cross at
      t = 450/7, where it peaks at 6/7. */
  lemma ThermalMediumPeak(t: real)
    ensures FuzzifyThermal(t).medium <= 6.0 / 7.0
    ensures FuzzifyThermal(450.0 / 7.0).medium == 6.0 / 7.0
  {
  }

  /** The aluminium inputs (hardness 2.5, tensile strength 90, thermal
      conductivity 237) fuzzify to these exact degrees. */
  lemma AluminumFuzzified()
    ensures FuzzifyHardness(2.5) == HardnessDegrees(0.75, 0.25, 0.0)
    ensures FuzzifyStrength(90.0) == LevelDegrees(11.0 / 15.0, 0.0, 0.0)
    ensures FuzzifyThermal(237.0) == LevelDegrees(0.0, 0.0, 137.0 / 150.0)
  {
  }
}
