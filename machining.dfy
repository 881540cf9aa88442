/** The machining-parameter pipeline of ml3/ml3.py: the material table
    (`MachineParameters.MATERIAL_PROPERTIES`), the three output variables of
    `defuzzify_speed`, `defuzzify_feed` and `defuzzify_cooling`, spindle power
    (`_calculate_power`) and the composition in `calculate_parameters`. */
module Machining {
  import opened Reals
  import opened Fuzzifier
  import opened RuleEngine
  import opened Defuzzifier

  /** The `MaterialProperty` enumeration (its display names are not modelled). */
  datatype Material = Aluminum | Steel | Titanium | Copper | Plastic

  datatype MaterialProperties = MaterialProperties(
    hardness: real, density: real, thermalConductivity: real,
    tensileStrength: real, machinability: real)

  /** `MATERIAL_PROPERTIES[material]`: every entry is physical, with a
      hardness on the 0-10 scale the hardness terms cover and a
      machinability rating in (0, 1]. */
  function Properties(m: Material): (p: MaterialProperties)
    ensures 0.0 < p.hardness <= 10.0 && p.density > 0.0
    ensures p.thermalConductivity > 0.0 && p.tensileStrength > 0.0
    ensures 0.0 < p.machinability <= 1.0
  {
    match m
    case Aluminum => MaterialProperties(2.5, 2.7, 237.0, 90.0, 0.8)
    case Steel => MaterialProperties(6.0, 7.8, 50.0, 500.0, 0.5)
    case Titanium => MaterialProperties(8.5, 4.5, 22.0, 900.0, 0.3)
    case Copper => MaterialProperties(3.0, 8.9, 401.0, 210.0, 0.7)
    case Plastic => MaterialProperties(1.5, 1.2, 0.2, 50.0, 0.9)
  }

  /** Every defuzzifier samples 100 points. */
  const Resolution: nat := 100

  /** Cutting speed (rpm): slow, medium, fast over [500, 5000], default 2000. */
  const SpeedVariable := OutputVariable(
    Triangle(500.0, 1000.0, 1500.0), Triangle(1000.0, 2000.0, 3000.0), Triangle(2000.0, 3500.0, 5000.0),
    500.0, 5000.0, 2000.0)

  /** Feed (mm/rev): slow, medium, fast over [0.05, 1.0], default 0.2. */
  const FeedVariable := OutputVariable(
    Triangle(0.05, 0.1, 0.2), Triangle(0.1, 0.3, 0.5), Triangle(0.3, 0.6, 1.0),
    0.05, 1.0, 0.2)

  /** Coolant flow (%): low, medium, high over [0, 100], default 50. */
  const CoolingVariable := OutputVariable(
    Triangle(0.0, 20.0, 40.0), Triangle(30.0, 50.0, 70.0), Triangle(60.0, 80.0, 100.0),
    0.0, 100.0, 50.0)

  /** The speed terms are well formed, cover [500, 5000] without a gap and
      the default 2000 lies inside it. */
  lemma SpeedTerms()
    ensures ValidVariable(SpeedVariable) && CoversRange(SpeedVariable)
    ensures SpeedVariable.lo <= SpeedVariable.fallback <= SpeedVariable.hi
  {
  }

  /** The feed terms are well formed, cover [0.05, 1.0] without a gap and
      the default 0.2 lies inside it. */
  lemma FeedTerms()
    ensures ValidVariable(FeedVariable) && CoversRange(FeedVariable)
    ensures FeedVariable.lo <= FeedVariable.fallback <= FeedVariable.hi
  {
  }

  /** The coolant terms are well formed, cover [0, 100] without a gap and
      the default 50 lies inside it. */
  lemma CoolingTerms()
    ensures ValidVariable(CoolingVariable) && CoversRange(CoolingVariable)
    ensures CoolingVariable.lo <= CoolingVariable.fallback <= CoolingVariable.hi
  {
  }

  function PaceActivations(d: PaceDegrees): Activations {
    Activations(d.slow, d.medium, d.fast)
  }

  function LevelActivations(d: LevelDegrees): Activations {
    Activations(d.low, d.medium, d.high)
  }

  /** The crisp cutting speed for the aggregated speed degrees: the centroid
      over the speed terms, rounded to an integer. With non-negative
      activations it lies in [500, 5000]; with none it is the default 2000. */
  function CrispSpeed(speed: PaceDegrees): (rpm: int)
    ensures NonNegative(PaceActivations(speed)) ==> 500 <= rpm <= 5000
    ensures speed == PaceDegrees(0.0, 0.0, 0.0) ==> rpm == 2000
  {
    var crisp := Centroid(SpeedVariable, PaceActivations(speed), Resolution);
    if speed == PaceDegrees(0.0, 0.0, 0.0) then
      ZeroActivationFallback(SpeedVariable, Resolution);
      RoundOfInteger(2000);
      RoundHalfEven(crisp)
    else if NonNegative(PaceActivations(speed)) then
      CentroidInRange(SpeedVariable, PaceActivations(speed), Resolution);
      RoundAtLeast(crisp, 500);
      RoundAtMost(crisp, 5000);
      RoundHalfEven(crisp)
    else RoundHalfEven(crisp)
  }

  /** `defuzzify_speed(speed_fuzzy)`: the sampling loop, then `round`. */
  method DefuzzifySpeed(speed: PaceDegrees) returns (rpm: int)
    ensures rpm == CrispSpeed(speed)
  {
    var crisp := Defuzzify(SpeedVariable, PaceActivations(speed), Resolution);
    rpm := RoundHalfEven(crisp);
  }

  /** The crisp feed for the aggregated feed degrees: the centroid over the
      feed terms, rounded to three decimals. With non-negative activations it
      lies in [0.05, 1.0]; with none it is the default 0.2. */
  function CrispFeed(feed: PaceDegrees): (rate: real)
    ensures NonNegative(PaceActivations(feed)) ==> 0.05 <= rate <= 1.0
    ensures feed == PaceDegrees(0.0, 0.0, 0.0) ==> rate == 0.2
  {
    var crisp := Centroid(FeedVariable, PaceActivations(feed), Resolution);
    if feed == PaceDegrees(0.0, 0.0, 0.0) then
      ZeroActivationFallback(FeedVariable, Resolution);
      assert crisp == 0.2;
      RoundThousandths(crisp)
    else if NonNegative(PaceActivations(feed)) then
      CentroidInRange(FeedVariable, PaceActivations(feed), Resolution);
      RoundThousandthsBetween(crisp, 50, 1000);
      RoundThousandths(crisp)
    else RoundThousandths(crisp)
  }

  /** `defuzzify_feed(feed_fuzzy)`: the sampling loop, then `round(_, 3)`. */
  method DefuzzifyFeed(feed: PaceDegrees) returns (rate: real)
    ensures rate == CrispFeed(feed)
  {
    var crisp := Defuzzify(FeedVariable, PaceActivations(feed), Resolution);
    rate := RoundThousandths(crisp);
  }

  /** The crisp coolant flow for the aggregated coolant degrees: the centroid
      over the coolant terms, rounded to an integer. With non-negative
      activations it lies in [0, 100]; with none it is the default 50. */
  function CrispCooling(cooling: LevelDegrees): (flow: int)
    ensures NonNegative(LevelActivations(cooling)) ==> 0 <= flow <= 100
    ensures cooling == LevelDegrees(0.0, 0.0, 0.0) ==> flow == 50
  {
    var crisp := Centroid(CoolingVariable, LevelActivations(cooling), Resolution);
    if cooling == LevelDegrees(0.0, 0.0, 0.0) then
      ZeroActivationFallback(CoolingVariable, Resolution);
      RoundOfInteger(50);
      RoundHalfEven(crisp)
    else if NonNegative(LevelActivations(cooling)) then
      CentroidInRange(CoolingVariable, LevelActivations(cooling), Resolution);
      RoundAtLeast(crisp, 0);
      RoundAtMost(crisp, 100);
      RoundHalfEven(crisp)
    else RoundHalfEven(crisp)
  }

  /** `defuzzify_cooling(cooling_fuzzy)`: the sampling loop, then `round`. */
  method DefuzzifyCooling(cooling: LevelDegrees) returns (flow: int)
    ensures flow == CrispCooling(cooling)
  {
    var crisp := Defuzzify(CoolingVariable, LevelActivations(cooling), Resolution);
    flow := RoundHalfEven(crisp);
  }

  /** `_calculate_power(props, speed, feed)`: hardness · speed · feed / 1000,
      raised to at least 1.0 and rounded to one decimal. The result is never
      below 1.0 (and see `SpindlePowerNearRaw`). */
  function SpindlePower(hardness: real, speed: int, feed: real): (p: real)
    ensures p >= 1.0
  {
    var raw := Max(1.0, hardness * speed as real * feed / 1000.0);
    RoundTenthsAtLeast(raw, 10);
    RoundTenths(raw)
  }

  /** The spindle power is within 0.05 of the unrounded value
      max(1, hardness · speed · feed / 1000). */
  lemma SpindlePowerNearRaw(hardness: real, speed: int, feed: real)
    ensures var raw := Max(1.0, hardness * speed as real * feed / 1000.0);
      raw - 0.05 <= SpindlePower(hardness, speed, feed) <= raw + 0.05
  {
  }

  /** The record `calculate_parameters` returns (the material is kept as the
      enumeration value, not its display name). */
  datatype MachiningParameters = MachiningParameters(
    material: Material, cuttingSpeed: int, feedRate: real, coolingFlow: int, spindlePower: real)

  /** The fuzzified properties of a material. */
  function Fuzzified(props: MaterialProperties): (inputs: FuzzyInputs)
    ensures NonNegativeInputs(inputs)
  {
    FuzzyInputs(FuzzifyHardness(props.hardness), FuzzifyStrength(props.tensileStrength),
                FuzzifyThermal(props.thermalConductivity))
  }

  /** The parameters for a material with properties props: the properties
      fuzzified, the rule base applied, the three outputs defuzzified and the
      spindle power derived from the crisp speed and feed. Every output lies
      in its variable's range and the power is at least 1.0, whatever the
      properties are. */
  function ParametersFrom(m: Material, props: MaterialProperties): (p: MachiningParameters)
    ensures p.material == m
    ensures 500 <= p.cuttingSpeed <= 5000 && 0.05 <= p.feedRate <= 1.0
    ensures 0 <= p.coolingFlow <= 100 && p.spindlePower >= 1.0
  {
    var inputs := Fuzzified(props);
    var outputs := Infer(RuleBase, inputs);
    RuleBaseOutputs(inputs);
    assert NonNegative(PaceActivations(outputs.speed)) && NonNegative(PaceActivations(outputs.feed));
    assert NonNegative(LevelActivations(outputs.cooling));
    var speed := CrispSpeed(outputs.speed);
    var feed := CrispFeed(outputs.feed);
    MachiningParameters(m, speed, feed, CrispCooling(outputs.cooling), SpindlePower(props.hardness, speed, feed))
  }

  /** `calculate_parameters(material_type)`: look up the material's
      properties, fuzzify, apply the rules, defuzzify, compute the power. */
  method CalculateParameters(m: Material) returns (p: MachiningParameters)
    ensures p == ParametersFrom(m, Properties(m))
  {
    var props := Properties(m);
    var hardnessFuzzy := FuzzifyHardness(props.hardness);
    var strengthFuzzy := FuzzifyStrength(props.tensileStrength);
    var thermalFuzzy := FuzzifyThermal(props.thermalConductivity);
    var speedFuzzy, feedFuzzy, coolingFuzzy := ApplyRules(hardnessFuzzy, strengthFuzzy, thermalFuzzy);
    var cuttingSpeed := DefuzzifySpeed(speedFuzzy);
    var feedRate := DefuzzifyFeed(feedFuzzy);
    var coolingFlow := DefuzzifyCooling(coolingFuzzy);
    var spindlePower := SpindlePower(props.hardness, cuttingSpeed, feedRate);
    p := MachiningParameters(m, cuttingSpeed, feedRate, coolingFlow, spindlePower);
  }

  /** The aggregated activations the defuzzifiers receive for aluminium. */
  lemma AluminumActivations()
    ensures var outputs := Infer(RuleBase, Fuzzified(Properties(Aluminum)));
      && PaceActivations(outputs.speed) == Activations(0.0, 0.25, 0.75)
      && PaceActivations(outputs.feed) == Activations(0.0, 0.0, 11.0 / 15.0)
      && LevelActivations(outputs.cooling) == Activations(137.0 / 150.0, 0.0, 0.0)
  {
    assert Fuzzified(Properties(Aluminum)) ==
      FuzzyInputs(FuzzifyHardness(2.5), FuzzifyStrength(90.0), FuzzifyThermal(237.0));
    AluminumInference();
  }

  /** With the slow term inactive and the fast term active, the speed
      centroid lies in [1000, 5000], the span of the medium and fast terms. */
  lemma SpeedCentroidWithoutSlow(act: Activations)
    requires NonNegative(act) && act.first == 0.0 && act.third > 0.0
    ensures 1000.0 <= Centroid(SpeedVariable, act, Resolution) <= 5000.0
  {
    assert 2000.0 < Sample(SpeedVariable, Resolution, 50) < 5000.0;
    DenominatorPositive(SpeedVariable, act, Resolution, Resolution, 50);
    CentroidInSupport(SpeedVariable, act, Resolution, 1000.0, 5000.0);
  }

  /** With only the fast feed term active, the feed centroid lies in its
      support [0.3, 1.0]. */
  lemma FeedCentroidOnlyFast(act: Activations)
    requires NonNegative(act) && act.first == 0.0 && act.second == 0.0 && act.third > 0.0
    ensures 0.3 <= Centroid(FeedVariable, act, Resolution) <= 1.0
  {
    assert 0.3 < Sample(FeedVariable, Resolution, 50) < 1.0;
    DenominatorPositive(FeedVariable, act, Resolution, Resolution, 50);
    CentroidInSupport(FeedVariable, act, Resolution, 0.3, 1.0);
  }

  /** With only the low coolant term active, the coolant centroid lies in its
      support [0, 40]. */
  lemma CoolingCentroidOnlyLow(act: Activations)
    requires NonNegative(act) && act.first > 0.0 && act.second == 0.0 && act.third == 0.0
    ensures 0.0 <= Centroid(CoolingVariable, act, Resolution) <= 40.0
  {
    assert 0.0 < Sample(CoolingVariable, Resolution, 10) < 40.0;
    DenominatorPositive(CoolingVariable, act, Resolution, Resolution, 10);
    CentroidInSupport(CoolingVariable, act, Resolution, 0.0, 40.0);
  }

  /** The aluminium scenario, speed: with slow inactive the centroid is
      pulled into the union [1000, 5000] of the medium and fast triangles. */
  lemma AluminumSpeedRange()
    ensures var outputs := Infer(RuleBase, Fuzzified(Properties(Aluminum)));
      1000.0 <= Centroid(SpeedVariable, PaceActivations(outputs.speed), Resolution) <= 5000.0
  {
    AluminumActivations();
    SpeedCentroidWithoutSlow(Activations(0.0, 0.25, 0.75));
  }

  /** The aluminium scenario, feed: only fast is active, so the centroid lies
      in the fast triangle [0.3, 1.0]. */
  lemma AluminumFeedRange()
    ensures var outputs := Infer(RuleBase, Fuzzified(Properties(Aluminum)));
      0.3 <= Centroid(FeedVariable, PaceActivations(outputs.feed), Resolution) <= 1.0
  {
    AluminumActivations();
    FeedCentroidOnlyFast(Activations(0.0, 0.0, 11.0 / 15.0));
  }

  /** The aluminium scenario, coolant: only low is active, so the centroid
      lies in the low triangle [0, 40]. */
  lemma AluminumCoolingRange()
    ensures var outputs := Infer(RuleBase, Fuzzified(Properties(Aluminum)));
      0.0 <= Centroid(CoolingVariable, LevelActivations(outputs.cooling), Resolution) <= 40.0
  {
    AluminumActivations();
    CoolingCentroidOnlyLow(Activations(137.0 / 150.0, 0.0, 0.0));
  }
}
