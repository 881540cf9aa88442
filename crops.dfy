/** The field-to-crop assignment problem of ml1/main.py: the crop list, the
    cost and yield tables, genomes (one crop index per field), the weighted
    fitness of `Individual.calculate_fitness` and the `Individual` record. */
module Crops {
  import opened Reals

  /** `CROPS`. */
  const CropNames: seq<string> := ["Wheat", "Corn", "Barley", "Soybean", "Sunflower", "Beet"]

  /** `K = len(CROPS)`. */
  const CropCount: nat := |CropNames|

  /** One field's yield for each crop, in `CROPS` order; every yield is positive. */
  type Row = r: seq<real> | |r| == 6 && forall j :: 0 <= j < |r| ==> r[j] > 0.0
    witness [1.0, 1.0, 1.0, 1.0, 1.0, 1.0]

  /** `crop_costs`. */
  const CropCosts: seq<nat> := [30, 45, 25, 50, 40, 35]

  /** `field_yields`: one row per field. */
  const FieldYields: seq<Row> := [
    [1.72, 4.13, 2.95, 3.47, 1.59, 4.88],
    [2.34, 3.21, 1.87, 4.45, 2.76, 3.99],
    [4.67, 1.98, 2.43, 3.88, 4.12, 1.34],
    [3.56, 2.67, 4.21, 1.76, 2.91, 3.44],
    [1.88, 4.55, 3.12, 2.34, 1.99, 4.01],
    [2.77, 3.89, 1.45, 4.67, 2.18, 3.22],
    [4.33, 2.12, 3.76, 1.54, 4.88, 2.65],
    [3.11, 1.67, 4.44, 2.23, 3.55, 1.88],
    [2.56, 4.22, 3.33, 1.99, 2.77, 4.66],
    [1.45, 3.88, 2.12, 4.55, 3.01, 2.34]
  ]

  /** `N_FIELDS = field_yields.shape[0]`. */
  const FieldCount: nat := |FieldYields|

  const Alpha: real := 0.6
  const Beta: real := 0.4
  const MutationProbability: real := 0.5
  const CrossoverProbability: real := 0.7

  /** There are ten fields, six crops and one cost per crop. */
  lemma TableShapes()
    ensures FieldCount == 10 && CropCount == 6 && |CropCosts| == CropCount
  {
  }

  /** A genome assigns one crop index in [0, K) to each of the N fields. */
  predicate ValidGenome(g: seq<int>) {
    |g| == FieldCount && forall i :: 0 <= i < |g| ==> 0 <= g[i] < CropCount
  }

  /** The yield of the first k fields: `field_yields[i, genome[i]]` summed.
      Every yield in the table is positive, so any field planted adds to it. */
  function YieldSum(g: seq<int>, k: nat): (r: real)
    requires ValidGenome(g) && k <= FieldCount
    ensures k > 0 ==> r > 0.0
    ensures k == 0 ==> r == 0.0
  {
    if k == 0 then 0.0 else YieldSum(g, k - 1) + FieldYields[k - 1][g[k - 1]]
  }

  /** The cost of the first k fields: `crop_costs[genome[i]]` summed. The
      cheapest crop costs 25 and the dearest 50, so every field adds between
      the two. */
  function CostSum(g: seq<int>, k: nat): (r: nat)
    requires ValidGenome(g) && k <= FieldCount
    ensures 25 * k <= r <= 50 * k
  {
    if k == 0 then 0 else CostSum(g, k - 1) + CropCosts[g[k - 1]]
  }

  /** `np.max` of a row of yields. */
  function RowMax(r: seq<real>): (m: real)
    requires |r| > 0
    ensures forall j :: 0 <= j < |r| ==> r[j] <= m
    ensures exists j :: 0 <= j < |r| && r[j] == m
  {
    if |r| == 1 then r[0] else Max(RowMax(r[..|r| - 1]), r[|r| - 1])
  }

  /** `np.max(crop_costs)`. */
  function CostMax(s: seq<nat>): (m: nat)
    requires |s| > 0
    ensures forall j :: 0 <= j < |s| ==> s[j] <= m
    ensures exists j :: 0 <= j < |s| && s[j] == m
  {
    if |s| == 1 then s[0]
    else
      var m := CostMax(s[..|s| - 1]);
      if s[|s| - 1] > m then s[|s| - 1] else m
  }

  /** The best yield of the first k fields: the row maxima summed. */
  function BestYieldSum(k: nat): real
    requires k <= FieldCount
  {
    if k == 0 then 0.0 else BestYieldSum(k - 1) + RowMax(FieldYields[k - 1])
  }

  /** `max_yield = np.sum(np.max(field_yields, axis=1))`: positive, and no
      genome yields more. */
  function MaxYield(): (m: real)
    ensures m > 0.0
    ensures forall g :: ValidGenome(g) ==> YieldSum(g, FieldCount) <= m
  {
    forall g | ValidGenome(g)
      ensures YieldSum(g, FieldCount) <= BestYieldSum(FieldCount)
    {
      YieldBounds(g, FieldCount);
    }
    YieldBounds(seq(FieldCount, _ => 0), FieldCount);
    BestYieldSum(FieldCount)
  }

  /** `max_cost = N_FIELDS * np.max(crop_costs)`: positive, and no genome
      costs more. */
  function MaxCost(): (m: nat)
    ensures m > 0
    ensures forall g :: ValidGenome(g) ==> CostSum(g, FieldCount) <= m
  {
    forall g | ValidGenome(g)
      ensures CostSum(g, FieldCount) <= FieldCount * CostMax(CropCosts)
    {
      CostBounds(g, FieldCount);
    }
    assert CropCosts[0] <= CostMax(CropCosts);
    FieldCount * CostMax(CropCosts)
  }

  /** No genome yields less than nothing or more than the best choice on
      every field, and the best choice yields something. */
  lemma {:induction false} YieldBounds(g: seq<int>, k: nat)
    requires ValidGenome(g) && k <= FieldCount
    ensures 0.0 <= YieldSum(g, k) <= BestYieldSum(k)
    ensures k > 0 ==> BestYieldSum(k) > 0.0
  {
    if k > 0 {
      YieldBounds(g, k - 1);
      var row := FieldYields[k - 1];
      assert row[g[k - 1]] <= RowMax(row);
      assert row[0] <= RowMax(row);
    }
  }

  /** No genome costs more than the dearest crop on every field. */
  lemma {:induction false} CostBounds(g: seq<int>, k: nat)
    requires ValidGenome(g) && k <= FieldCount
    ensures CostSum(g, k) <= k * CostMax(CropCosts)
  {
    if k > 0 {
      CostBounds(g, k - 1);
      var m := CostMax(CropCosts);
      assert CropCosts[g[k - 1]] <= m;
      assert k * m == (k - 1) * m + m;
    }
  }

  /** `calculate_fitness`: (score, total_yield, total_cost) with
      score = ALPHA · yield / max_yield − BETA · cost / max_cost. The
      normalised yield and cost each lie in [0, 1], so the score lies in
      [−BETA, ALPHA]. */
  function CalculateFitness(g: seq<int>): (r: (real, real, nat))
    requires ValidGenome(g)
    ensures 0.0 <= r.1 <= MaxYield() && r.2 <= MaxCost()
    ensures -Beta <= r.0 <= Alpha
  {
    TableShapes();
    var totalYield := YieldSum(g, FieldCount);
    var totalCost := CostSum(g, FieldCount);
    YieldBounds(g, FieldCount);
    CostBounds(g, FieldCount);
    assert CropCosts[0] <= CostMax(CropCosts);
    var normYield := totalYield / MaxYield();
    var normCost := totalCost as real / MaxCost() as real;
    UnitQuotient(totalYield, MaxYield());
    UnitQuotient(totalCost as real, MaxCost() as real);
    (Alpha * normYield - Beta * normCost, totalYield, totalCost)
  }

  /** 0 ≤ p ≤ q with q > 0 gives p / q in [0, 1]. */
  lemma UnitQuotient(p: real, q: real)
    requires 0.0 <= p <= q && q > 0.0
    ensures 0.0 <= p / q <= 1.0
  {
    DivMonotone(p, q, q);
  }

  /** An `Individual`: its genome and the three values `__init__` stores from
      `calculate_fitness`. */
  datatype Individual = Individual(genome: seq<int>, fitness: real, totalYield: real, totalCost: nat)

  /** `Individual(genome)`. */
  function NewIndividual(g: seq<int>): (ind: Individual)
    requires ValidGenome(g)
    ensures ind.genome == g && ValidGenome(ind.genome)
    ensures -Beta <= ind.fitness <= Alpha
  {
    var r := CalculateFitness(g);
    Individual(g, r.0, r.1, r.2)
  }

  /** An individual built by `Individual(genome)` from a valid genome. */
  predicate WellFormed(ind: Individual) {
    ValidGenome(ind.genome) && ind == NewIndividual(ind.genome)
  }

  /** Python's `sorted` of two draws: the smaller first. */
  function SortedPair(d1: int, d2: int): (p: (int, int))
    ensures p.0 <= p.1
    ensures (p.0 == d1 && p.1 == d2) || (p.0 == d2 && p.1 == d1)
  {
    if d2 < d1 then (d2, d1) else (d1, d2)
  }

  /** `numpy.ndarray.copy()` of a genome into a fresh array. */
  method CopyGenome(g: seq<int>) returns (a: array<int>)
    ensures fresh(a) && a[..] == g
  {
    a := new int[|g|](i requires 0 <= i < |g| => g[i]);
  }
}
