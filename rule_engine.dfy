/** The rule base of ml3/ml3.py (`FuzzySystem.apply_rules`): seven
    single-antecedent rules whose activations are aggregated per output term
    by maximum, every output term starting at 0. `Infer` is the generic
    Mamdani aggregation over any list of such rules; `ApplyRules` is the
    source's step-by-step update of the three output records. */
module RuleEngine {
  import opened Reals
  import opened Fuzzifier

  /** The records {'slow', 'medium', 'fast'} for cutting speed and feed. */
  datatype PaceDegrees = PaceDegrees(slow: real, medium: real, fast: real)

  /** The fuzzified inputs, in the order `apply_rules` takes them. */
  datatype FuzzyInputs = FuzzyInputs(hardness: HardnessDegrees, strength: LevelDegrees, thermal: LevelDegrees)

  /** The three aggregated output records `apply_rules` returns. */
  datatype FuzzyOutputs = FuzzyOutputs(speed: PaceDegrees, feed: PaceDegrees, cooling: LevelDegrees)

  /** An input variable paired with one of its terms. */
  datatype InputTerm =
    | HardnessSoft | HardnessMedium | HardnessHard
    | StrengthLow | StrengthMedium | StrengthHigh
    | ThermalLow | ThermalMedium | ThermalHigh

  /** An output variable paired with one of its terms. */
  datatype OutputTerm =
    | SpeedSlow | SpeedMedium | SpeedFast
    | FeedSlow | FeedMedium | FeedFast
    | CoolingLow | CoolingMedium | CoolingHigh

  /** IF antecedent THEN consequent. */
  datatype Rule = Rule(antecedent: InputTerm, consequent: OutputTerm)

  /** Rules 1 to 7, in the order `apply_rules` evaluates them. */
  const RuleBase: seq<Rule> := [
    Rule(HardnessHard, SpeedSlow),
    Rule(HardnessSoft, SpeedFast),
    Rule(HardnessMedium, SpeedMedium),
    Rule(StrengthHigh, FeedSlow),
    Rule(StrengthLow, FeedFast),
    Rule(ThermalLow, CoolingHigh),
    Rule(ThermalHigh, CoolingLow)
  ]

  /** The rule base has seven rules, no output term is concluded by two of
      them, and the medium terms of feed and coolant by none. */
  lemma RuleBaseShape()
    ensures |RuleBase| == 7
    ensures forall k, l :: 0 <= k < l < |RuleBase| ==> RuleBase[k].consequent != RuleBase[l].consequent
    ensures forall k :: 0 <= k < |RuleBase| ==>
      RuleBase[k].consequent != FeedMedium && RuleBase[k].consequent != CoolingMedium
  {
  }

  function DegreeOf(inputs: FuzzyInputs, t: InputTerm): real {
    match t
    case HardnessSoft => inputs.hardness.soft
    case HardnessMedium => inputs.hardness.medium
    case HardnessHard => inputs.hardness.hard
    case StrengthLow => inputs.strength.low
    case StrengthMedium => inputs.strength.medium
    case StrengthHigh => inputs.strength.high
    case ThermalLow => inputs.thermal.low
    case ThermalMedium => inputs.thermal.medium
    case ThermalHigh => inputs.thermal.high
  }

  /** The activation of output term `out`: the maximum of 0 and the degrees of
      the antecedents of every rule concluding `out`, folded in rule order. */
  function Activation(rules: seq<Rule>, inputs: FuzzyInputs, out: OutputTerm): (r: real)
    ensures r >= 0.0
    decreases |rules|
  {
    if rules == [] then 0.0
    else
      var earlier := Activation(rules[..|rules| - 1], inputs, out);
      var last := rules[|rules| - 1];
      if last.consequent == out then Max(earlier, DegreeOf(inputs, last.antecedent)) else earlier
  }

  /** The activation is the least upper bound of 0 and the antecedent degrees
      of the rules concluding `out`: it bounds each of them and is 0 or one of
      them. */
  lemma {:induction false} ActivationIsMaximum(rules: seq<Rule>, inputs: FuzzyInputs, out: OutputTerm)
    ensures forall k :: 0 <= k < |rules| && rules[k].consequent == out ==>
      DegreeOf(inputs, rules[k].antecedent) <= Activation(rules, inputs, out)
    ensures Activation(rules, inputs, out) == 0.0 ||
      exists k :: 0 <= k < |rules| && rules[k].consequent == out &&
        Activation(rules, inputs, out) == DegreeOf(inputs, rules[k].antecedent)
    decreases |rules|
  {
    if rules != [] {
      var prefix := rules[..|rules| - 1];
      ActivationIsMaximum(prefix, inputs, out);
      assert forall k :: 0 <= k < |prefix| ==> prefix[k] == rules[k];
    }
  }

  /** The entry of output term `out` in the three output records. */
  function OutputOf(outputs: FuzzyOutputs, out: OutputTerm): real {
    match out
    case SpeedSlow => outputs.speed.slow
    case SpeedMedium => outputs.speed.medium
    case SpeedFast => outputs.speed.fast
    case FeedSlow => outputs.feed.slow
    case FeedMedium => outputs.feed.medium
    case FeedFast => outputs.feed.fast
    case CoolingLow => outputs.cooling.low
    case CoolingMedium => outputs.cooling.medium
    case CoolingHigh => outputs.cooling.high
  }

  /** Mamdani inference: every output term's aggregated activation. Every
      entry is non-negative, every rule's antecedent degree reaches its
      consequent's entry, and an entry above 0 comes from some rule. */
  function Infer(rules: seq<Rule>, inputs: FuzzyInputs): (r: FuzzyOutputs)
    ensures forall out :: OutputOf(r, out) >= 0.0
    ensures forall k :: 0 <= k < |rules| ==>
      DegreeOf(inputs, rules[k].antecedent) <= OutputOf(r, rules[k].consequent)
    ensures forall out :: OutputOf(r, out) > 0.0 ==>
      exists k :: 0 <= k < |rules| && rules[k].consequent == out &&
        OutputOf(r, out) == DegreeOf(inputs, rules[k].antecedent)
  {
    var r := InferRecords(rules, inputs);
    forall out
      ensures OutputOf(r, out) == Activation(rules, inputs, out)
      ensures forall k :: 0 <= k < |rules| && rules[k].consequent == out ==>
        DegreeOf(inputs, rules[k].antecedent) <= OutputOf(r, out)
      ensures OutputOf(r, out) == 0.0 ||
        exists k :: 0 <= k < |rules| && rules[k].consequent == out &&
          OutputOf(r, out) == DegreeOf(inputs, rules[k].antecedent)
    {
      ActivationIsMaximum(rules, inputs, out);
    }
    assert forall k :: 0 <= k < |rules| ==>
      DegreeOf(inputs, rules[k].antecedent) <= OutputOf(r, rules[k].consequent);
    r
  }

  function InferRecords(rules: seq<Rule>, inputs: FuzzyInputs): FuzzyOutputs {
    FuzzyOutputs(
      PaceDegrees(Activation(rules, inputs, SpeedSlow), Activation(rules, inputs, SpeedMedium),
                  Activation(rules, inputs, SpeedFast)),
      PaceDegrees(Activation(rules, inputs, FeedSlow), Activation(rules, inputs, FeedMedium),
                  Activation(rules, inputs, FeedFast)),
      LevelDegrees(Activation(rules, inputs, CoolingLow), Activation(rules, inputs, CoolingMedium),
                   Activation(rules, inputs, CoolingHigh)))
  }

  /** Aggregation does not depend on the order in which the rules are
      evaluated: any permutation of a rule list gives the same activation. */
  lemma ActivationOrderIndependent(rules: seq<Rule>, permuted: seq<Rule>, inputs: FuzzyInputs, out: OutputTerm)
    requires multiset(rules) == multiset(permuted)
    ensures Activation(rules, inputs, out) == Activation(permuted, inputs, out)
  {
    ActivationDominates(rules, permuted, inputs, out);
    ActivationDominates(permuted, rules, inputs, out);
  }

  lemma ActivationDominates(rules: seq<Rule>, other: seq<Rule>, inputs: FuzzyInputs, out: OutputTerm)
    requires multiset(rules) == multiset(other)
    ensures Activation(other, inputs, out) <= Activation(rules, inputs, out)
  {
    ActivationIsMaximum(rules, inputs, out);
    ActivationIsMaximum(other, inputs, out);
    var a := Activation(other, inputs, out);
    if a != 0.0 {
      var k :| 0 <= k < |other| && other[k].consequent == out && a == DegreeOf(inputs, other[k].antecedent);
      assert other[k] in multiset(rules);
      var j :| 0 <= j < |rules| && rules[j] == other[k];
    }
  }

  /** Inference over any permutation of the rule base gives the same outputs. */
  lemma InferOrderIndependent(rules: seq<Rule>, permuted: seq<Rule>, inputs: FuzzyInputs)
    requires multiset(rules) == multiset(permuted)
    ensures Infer(rules, inputs) == Infer(permuted, inputs)
  {
    forall out: OutputTerm ensures Activation(rules, inputs, out) == Activation(permuted, inputs, out) {
      ActivationOrderIndependent(rules, permuted, inputs, out);
    }
  }

  predicate NonNegativeInputs(inputs: FuzzyInputs) {
    var h, s, t := inputs.hardness, inputs.strength, inputs.thermal;
    h.soft >= 0.0 && h.medium >= 0.0 && h.hard >= 0.0 &&
    s.low >= 0.0 && s.medium >= 0.0 && s.high >= 0.0 &&
    t.low >= 0.0 && t.medium >= 0.0 && t.high >= 0.0
  }

  /** The activation the fixed rule base gives output term `out`: the degree
      of the one antecedent concluding it, floored at the initial 0, or 0 for
      the medium terms of feed and coolant, which no rule concludes. */
  function RuleBaseActivation(inputs: FuzzyInputs, out: OutputTerm): real {
    var h, s, t := inputs.hardness, inputs.strength, inputs.thermal;
    match out
    case SpeedSlow => Max(0.0, h.hard)
    case SpeedMedium => Max(0.0, h.medium)
    case SpeedFast => Max(0.0, h.soft)
    case FeedSlow => Max(0.0, s.high)
    case FeedMedium => 0.0
    case FeedFast => Max(0.0, s.low)
    case CoolingLow => Max(0.0, t.high)
    case CoolingMedium => 0.0
    case CoolingHigh => Max(0.0, t.low)
  }

  /** An output term concluded by exactly one rule gets that rule's
      antecedent degree, floored at the initial 0. */
  lemma SoleRuleActivation(rules: seq<Rule>, inputs: FuzzyInputs, out: OutputTerm, i: nat)
    requires i < |rules| && rules[i].consequent == out
    requires forall j :: 0 <= j < |rules| && j != i ==> rules[j].consequent != out
    ensures Activation(rules, inputs, out) == Max(0.0, DegreeOf(inputs, rules[i].antecedent))
  {
    ActivationIsMaximum(rules, inputs, out);
  }

  /** An output term no rule concludes keeps its initial 0. */
  lemma NoRuleActivation(rules: seq<Rule>, inputs: FuzzyInputs, out: OutputTerm)
    requires forall j :: 0 <= j < |rules| ==> rules[j].consequent != out
    ensures Activation(rules, inputs, out) == 0.0
  {
    ActivationIsMaximum(rules, inputs, out);
  }

  /** Each output term of the fixed rule base is concluded by at most one
      rule, which gives it its `RuleBaseActivation`. */
  lemma RuleBaseActivationOf(inputs: FuzzyInputs, out: OutputTerm)
    ensures Activation(RuleBase, inputs, out) == RuleBaseActivation(inputs, out)
  {
    match out
    case SpeedSlow => SoleRuleActivation(RuleBase, inputs, out, 0);
    case SpeedFast => SoleRuleActivation(RuleBase, inputs, out, 1);
    case SpeedMedium => SoleRuleActivation(RuleBase, inputs, out, 2);
    case FeedSlow => SoleRuleActivation(RuleBase, inputs, out, 3);
    case FeedMedium => NoRuleActivation(RuleBase, inputs, out);
    case FeedFast => SoleRuleActivation(RuleBase, inputs, out, 4);
    case CoolingHigh => SoleRuleActivation(RuleBase, inputs, out, 5);
    case CoolingMedium => NoRuleActivation(RuleBase, inputs, out);
    case CoolingLow => SoleRuleActivation(RuleBase, inputs, out, 6);
  }

  /** The fixed rule base sends each antecedent degree, floored at the
      initial 0, to its consequent; the two medium terms of feed and coolant,
      which no rule concludes, stay at 0. */
  lemma RuleBaseActivations(inputs: FuzzyInputs)
    ensures var h, s, t := inputs.hardness, inputs.strength, inputs.thermal;
      Infer(RuleBase, inputs) == FuzzyOutputs(
        PaceDegrees(Max(0.0, h.hard), Max(0.0, h.medium), Max(0.0, h.soft)),
        PaceDegrees(Max(0.0, s.high), 0.0, Max(0.0, s.low)),
        LevelDegrees(Max(0.0, t.high), 0.0, Max(0.0, t.low)))
  {
    RuleBaseActivationOf(inputs, SpeedSlow);
    RuleBaseActivationOf(inputs, SpeedMedium);
    RuleBaseActivationOf(inputs, SpeedFast);
    RuleBaseActivationOf(inputs, FeedSlow);
    RuleBaseActivationOf(inputs, FeedMedium);
    RuleBaseActivationOf(inputs, FeedFast);
    RuleBaseActivationOf(inputs, CoolingLow);
    RuleBaseActivationOf(inputs, CoolingMedium);
    RuleBaseActivationOf(inputs, CoolingHigh);
  }

  /** On non-negative degrees (as the fuzzifiers produce) the rule base copies
      each antecedent degree to its consequent. */
  lemma RuleBaseOutputs(inputs: FuzzyInputs)
    requires NonNegativeInputs(inputs)
    ensures var h, s, t := inputs.hardness, inputs.strength, inputs.thermal;
      Infer(RuleBase, inputs) == FuzzyOutputs(
        PaceDegrees(h.hard, h.medium, h.soft),
        PaceDegrees(s.high, 0.0, s.low),
        LevelDegrees(t.high, 0.0, t.low))
  {
    RuleBaseActivations(inputs);
  }

  /** `apply_rules(hardness_fuzzy, strength_fuzzy, thermal_fuzzy)`: three
      output records start at 0 and each rule raises its consequent's entry to
      the maximum of the entry and the rule's activation. The input records are
      values and are not changed. */
  method ApplyRules(hardness: HardnessDegrees, strength: LevelDegrees, thermal: LevelDegrees)
    returns (speed: PaceDegrees, feed: PaceDegrees, cooling: LevelDegrees)
    ensures FuzzyOutputs(speed, feed, cooling) == Infer(RuleBase, FuzzyInputs(hardness, strength, thermal))
  {
    speed := PaceDegrees(0.0, 0.0, 0.0);
    feed := PaceDegrees(0.0, 0.0, 0.0);
    cooling := LevelDegrees(0.0, 0.0, 0.0);

    var rule1 := hardness.hard;
    speed := speed.(slow := Max(speed.slow, rule1));
    var rule2 := hardness.soft;
    speed := speed.(fast := Max(speed.fast, rule2));
    var rule3 := hardness.medium;
    speed := speed.(medium := Max(speed.medium, rule3));
    var rule4 := strength.high;
    feed := feed.(slow := Max(feed.slow, rule4));
    var rule5 := strength.low;
    feed := feed.(fast := Max(feed.fast, rule5));
    var rule6 := thermal.low;
    cooling := cooling.(high := Max(cooling.high, rule6));
    var rule7 := thermal.high;
    cooling := cooling.(low := Max(cooling.low, rule7));
    RuleBaseActivations(FuzzyInputs(hardness, strength, thermal));
  }

  /** With the aluminium degrees the rules activate speed {0, 1/4, 3/4}, feed
      {0, 0, 11/15} and coolant {137/150, 0, 0}. */
  lemma AluminumInference()
    ensures Infer(RuleBase, FuzzyInputs(FuzzifyHardness(2.5), FuzzifyStrength(90.0), FuzzifyThermal(237.0)))
      == FuzzyOutputs(PaceDegrees(0.0, 0.25, 0.75), PaceDegrees(0.0, 0.0, 11.0 / 15.0),
                      LevelDegrees(137.0 / 150.0, 0.0, 0.0))
  {
    AluminumFuzzified();
    RuleBaseOutputs(FuzzyInputs(FuzzifyHardness(2.5), FuzzifyStrength(90.0), FuzzifyThermal(237.0)));
  }
}
