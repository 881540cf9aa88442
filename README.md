# Fuzzy machining, fuzzy implication and crop-assignment GA in Dafny

This project models three small programs and proves properties of the models.

- **ml3/ml3.py** is a Mamdani fuzzy controller for a machine tool.
  - It looks up the properties of a material: aluminium, steel, titanium, copper or plastic.
  - It fuzzifies hardness, tensile strength and thermal conductivity into degrees for three terms each.
  - It runs a seven-rule base that aggregates activations by maximum.
  - It defuzzifies cutting speed, feed and coolant flow by a discrete centroid over 100 evenly spaced samples. When no sample has positive membership, it falls back to a default: 2000 rpm, 0.2 mm/rev or 50 %.
  - It derives the spindle power from the crisp speed and feed.
- **ml2/main.py** defines trapezoidal membership and implication by minimum, applied to two term tables of a sports example.
- **ml1/main.py** is a genetic algorithm that assigns one of six crops to each of ten fields.
  - Fitness weighs the normalised yield against the normalised cost.
  - Parents are chosen by a tournament of five.
  - There are three crossovers (single-point, two-point, uniform) and three mutations (random reset, swap, inversion).
  - One generation repeats select, cross over and mutate until the new population is as large as the old one.

Modules follow the programs:

- `Reals`: Python's `min`, `max`, `round` and `numpy.linspace` over exact reals.
- `Trapezoid`: ml2.
- `Fuzzifier`, `RuleEngine`, `Defuzzifier` and `Machining`: ml3.
- `Crops`, `Selection`, `Crossover`, `Mutation` and `Evolution`: ml1.

What is modelled as an imperative method:

- The loops of the source are methods with loop invariants: the centroid loop (`Defuzzifier.Defuzzify`) and the generation loop (`Evolution.EvolvePopulation`).
- The in-place genome edits are methods over an `array` copy: the slice overwrite of two-point crossover, the single assignment of random reset, the swap, and the reversed slice of inversion.
- The dictionary updates of `apply_rules` are record updates in `RuleEngine.ApplyRules`.

Each method is proved equal to a specification function. The properties are then proved about that function. Every random draw is an explicit parameter whose range precondition is the range the generator draws from. These draws are the tournament sample, the cut points, the mask, the positions, the gene and the coin flips.

## Model

| member | source | states |
|---|---|---|
| Reals.Linspace | ml3/ml3.py:136 | the i-th sample of `np.linspace(lo, hi, n)`: the first is lo, the last is hi, all lie in [lo, hi] |
| Reals.RoundHalfEven | ml3/ml3.py:166 | Python `round`: within 1/2 of the argument, and on a tie the even neighbour |
| Reals.RoundThousandths | ml3/ml3.py:209 | `round(x, 3)`: within 0.0005 of x |
| Reals.RoundTenths | ml3/ml3.py:318 | `round(x, 1)`: within 0.05 of x |
| Trapezoid.Membership | ml2/main.py:5-18 | lies in [0, 1] for any breakpoints; is 0 when x <= a or x >= d; is 1 exactly when b <= x <= c and a < x < d; is positive exactly when a < x < d; no branch divides by zero and the last `return 0.0` is unreachable |
| Trapezoid.RisingEdgeMonotone | ml2/main.py:12-13 | for a <= b <= c <= d the membership does not decrease on [a, b] while below d |
| Trapezoid.FallingEdgeMonotone | ml2/main.py:16-17 | for a <= b <= c <= d the membership does not increase on [c, d] while above a |
| Trapezoid.Implication | ml2/main.py:22-27 | length min(\|A\|, \|B\|); element i is A[i] or B[i] and at most both |
| Trapezoid.ImplicationCommutative | ml2/main.py:27 | implication by minimum does not depend on the argument order |
| Trapezoid.StateParams | ml2/main.py:35-39 | the `state_params` table; every entry has a <= b <= c <= d |
| Trapezoid.IntensityParams | ml2/main.py:41-45 | the `intensity_params` table; every entry has a <= b <= c <= d |
| Trapezoid.FitIsZeroAtTop | ml2/main.py:38 | "fit" (6.5, 8, 10, 10) is 0 at x = 10, where c = d, and 1 at x = 9 |
| Trapezoid.UniversePoint | ml2/main.py:31-32 | every sample of `np.linspace(0, 10, 200)` lies in [0, 10] |
| Trapezoid.MuState | ml2/main.py:48-49 | 200 degrees, each in [0, 1]; every state term is 0 at both ends of the universe, "fit" included, whose d = 10 puts x = 10 on the `x >= d` branch |
| Trapezoid.MuIntensity | ml2/main.py:50-51 | 200 degrees, each in [0, 1]; every intensity term is 0 at both ends of the universe |
| Trapezoid.ImplicationCurve | ml2/main.py:54 | one implication curve: 200 degrees in [0, 1], each at most both term degrees at that sample, and 0 at both ends of the universe |
| Trapezoid.Implications | ml2/main.py:54-62 | `imp1` .. `imp7`: seven curves, the k-th the implication of the k-th state/intensity pair in source order, every degree in [0, 1] |
| Fuzzifier.FuzzifyHardness | ml3/ml3.py:16-29 | each of the three degrees lies in [0, 1] |
| Fuzzifier.FuzzifyStrength | ml3/ml3.py:32-44 | each of the three degrees lies in [0, 1] |
| Fuzzifier.FuzzifyThermal | ml3/ml3.py:47-59 | each of the three degrees lies in [0, 1] |
| Fuzzifier.HardnessBreakpoints | ml3/ml3.py:21-23 | soft is 1 for h <= 2 and 0 for h >= 4; medium is 1 on [4, 6] and 0 for h <= 2 or h >= 8; hard is 0 for h <= 6 and 1 for h >= 8 |
| Fuzzifier.HardnessMediumIsTrapezoid | ml3/ml3.py:22 | medium hardness equals the trapezoid (2, 4, 6, 8) everywhere |
| Fuzzifier.ThermalMediumPeak | ml3/ml3.py:52 | medium thermal conductivity never exceeds 6/7 and reaches it at t = 450/7 |
| Fuzzifier.AluminumFuzzified | ml3/ml3.py:21-53 | aluminium (2.5, 90, 237) fuzzifies to {3/4, 1/4, 0}, {11/15, 0, 0} and {0, 0, 137/150} |
| RuleEngine.Activation | ml3/ml3.py:68-110 | the aggregated activation of an output term is never negative |
| RuleEngine.Infer | ml3/ml3.py:68-110 | max-aggregation over any rule list: every output entry is non-negative, every rule's antecedent degree is at most its consequent's entry, and a positive entry equals the degree of some rule that concludes it |
| RuleEngine.RuleBaseShape | ml3/ml3.py:72-110 | the rule base has seven rules, no two conclude the same output term, and none concludes feed or coolant medium |
| RuleEngine.ActivationIsMaximum | ml3/ml3.py:72-110 | the activation bounds the antecedent degree of every rule concluding the term, and is 0 or one of those degrees |
| RuleEngine.ActivationOrderIndependent | ml3/ml3.py:72-110 | any permutation of a rule list gives the same activation |
| RuleEngine.InferOrderIndependent | ml3/ml3.py:72-110 | any permutation of a rule list gives the same three output records |
| RuleEngine.SoleRuleActivation | ml3/ml3.py:72-110 | a term concluded by exactly one rule gets max(0, that rule's antecedent degree) |
| RuleEngine.NoRuleActivation | ml3/ml3.py:68-70 | a term no rule concludes keeps its initial 0 |
| RuleEngine.RuleBaseActivationOf | ml3/ml3.py:72-110 | each output term of the seven-rule base gets its one antecedent degree floored at 0, or 0 for the two medium terms no rule concludes |
| RuleEngine.RuleBaseActivations | ml3/ml3.py:68-119 | the rule base sends hard/medium/soft to speed slow/medium/fast, high/low strength to feed slow/fast, and low/high conductivity to coolant high/low, each floored at 0; feed and coolant medium are 0 |
| RuleEngine.RuleBaseOutputs | ml3/ml3.py:68-119 | on non-negative degrees those outputs are exactly the antecedent degrees |
| RuleEngine.ApplyRules | ml3/ml3.py:62-119 | the three records after the seven in-place max updates equal the max-aggregation over the rule base; the inputs are values and stay unchanged |
| RuleEngine.AluminumInference | ml3/ml3.py:72-110 | for aluminium the rules give speed {0, 1/4, 3/4}, feed {0, 0, 11/15} and coolant {137/150, 0, 0} |
| Defuzzifier.TriangleDegree | ml3/ml3.py:140-147 | a triangle degree lies in [0, 1], is positive exactly strictly inside the feet, and is 1 exactly at the peak |
| Defuzzifier.OutputDegree | ml3/ml3.py:150-154 | the clipped and combined degree is non-negative for non-negative activations, positive only where an active term's triangle is, and at most the largest activation |
| Defuzzifier.Numerator | ml3/ml3.py:156 | for non-negative activations the numerator after k samples lies between lo and hi times the denominator: a weighted sum of points of [lo, hi] |
| Defuzzifier.Denominator | ml3/ml3.py:157 | the denominator after k samples is never negative for non-negative activations |
| Defuzzifier.Centroid | ml3/ml3.py:159 | for non-negative activations the crisp value is a point of [lo, hi] or the fallback |
| Defuzzifier.Defuzzify | ml3/ml3.py:132-159 | the accumulating loop returns the centroid: numerator over denominator when the denominator is positive, the default otherwise |
| Defuzzifier.DenominatorZero | ml3/ml3.py:156-157 | with every activation 0 the denominator stays 0 |
| Defuzzifier.ZeroActivationFallback | ml3/ml3.py:159 | with every activation 0 the result is exactly the variable's default |
| Defuzzifier.WeightedSumBounds | ml3/ml3.py:156-157 | when every sample with positive membership lies in [low, high], the numerator lies between low and high times the denominator, which is non-negative |
| Defuzzifier.QuotientWithin | ml3/ml3.py:159 | a weighted mean with positive weight lies between the bounds |
| Defuzzifier.CentroidInRange | ml3/ml3.py:136-159 | a positive denominator puts the centroid in the sampled range; a default inside the range keeps every result there |
| Defuzzifier.CentroidInSupport | ml3/ml3.py:136-159 | when every active term's support lies in [low, high] and the denominator is positive, the centroid lies in [low, high] |
| Defuzzifier.DenominatorPositive | ml3/ml3.py:157 | one sample with positive membership makes the denominator positive |
| Machining.Properties | ml3/ml3.py:257-278 | the material table: every hardness lies in (0, 10], every density, conductivity and strength is positive, every machinability lies in (0, 1] |
| Machining.SpeedTerms | ml3/ml3.py:127-129 | the speed triangles are well formed, lie in [500, 5000] and cover it without a gap, and the default 2000 lies inside |
| Machining.FeedTerms | ml3/ml3.py:174-176 | the feed triangles are well formed, lie in [0.05, 1.0] and cover it without a gap, and the default 0.2 lies inside |
| Machining.CoolingTerms | ml3/ml3.py:217-219 | the coolant triangles are well formed, lie in [0, 100] and cover it without a gap, and the default 50 lies inside |
| Machining.CrispSpeed | ml3/ml3.py:122-166 | the cutting speed lies in [500, 5000] for non-negative activations and is 2000 when all are 0 |
| Machining.DefuzzifySpeed | ml3/ml3.py:122-166 | the sampling loop followed by `round` gives `CrispSpeed` |
| Machining.CrispFeed | ml3/ml3.py:169-209 | the feed lies in [0.05, 1.0] for non-negative activations and is 0.2 when all are 0 |
| Machining.DefuzzifyFeed | ml3/ml3.py:169-209 | the sampling loop followed by `round(_, 3)` gives `CrispFeed` |
| Machining.CrispCooling | ml3/ml3.py:212-252 | the coolant flow lies in [0, 100] for non-negative activations and is 50 when all are 0 |
| Machining.DefuzzifyCooling | ml3/ml3.py:212-252 | the sampling loop followed by `round` gives `CrispCooling` |
| Machining.SpindlePower | ml3/ml3.py:315-318 | the spindle power is never below 1.0 |
| Machining.SpindlePowerNearRaw | ml3/ml3.py:317-318 | the spindle power is within 0.05 of max(1, hardness · speed · feed / 1000) |
| Machining.Fuzzified | ml3/ml3.py:289-291 | the fuzzified properties are non-negative degrees |
| Machining.ParametersFrom | ml3/ml3.py:283-312 | for any properties: speed in [500, 5000], feed in [0.05, 1.0], coolant in [0, 100], power at least 1.0, and the material kept |
| Machining.CalculateParameters | ml3/ml3.py:281-312 | the pipeline over the table entry of the material gives `ParametersFrom` of it |
| Machining.SpeedCentroidWithoutSlow | ml3/ml3.py:136-159 | with slow inactive and fast active, the speed centroid lies in [1000, 5000] |
| Machining.FeedCentroidOnlyFast | ml3/ml3.py:181-202 | with only fast active, the feed centroid lies in its support [0.3, 1.0] |
| Machining.CoolingCentroidOnlyLow | ml3/ml3.py:224-245 | with only low active, the coolant centroid lies in its support [0, 40] |
| Machining.AluminumActivations | ml3/ml3.py:258-261 | for aluminium the defuzzifiers receive speed (0, 1/4, 3/4), feed (0, 0, 11/15) and coolant (137/150, 0, 0) |
| Machining.AluminumSpeedRange | ml3/ml3.py:122-159 | for aluminium the speed centroid lies in [1000, 5000] |
| Machining.AluminumFeedRange | ml3/ml3.py:169-202 | for aluminium the feed centroid lies in the fast triangle [0.3, 1.0] |
| Machining.AluminumCoolingRange | ml3/ml3.py:212-245 | for aluminium the coolant centroid lies in the low triangle [0, 40] |
| Crops.TableShapes | ml1/main.py:6-21 | ten fields, six crops, one cost per crop |
| Crops.YieldSum | ml1/main.py:34 | the total yield of a genome is positive once any field is counted, since every table yield is |
| Crops.CostSum | ml1/main.py:35 | the total cost of k fields lies between 25 · k and 50 · k, the cheapest and dearest crop |
| Crops.MaxYield | ml1/main.py:36 | `max_yield` is positive and no genome yields more |
| Crops.MaxCost | ml1/main.py:37 | `max_cost` is positive and no genome costs more |
| Crops.RowMax | ml1/main.py:36 | `np.max` of a row bounds every entry and is one of them |
| Crops.CostMax | ml1/main.py:37 | `np.max(crop_costs)` bounds every cost and is one of them |
| Crops.YieldBounds | ml1/main.py:34-36 | a genome's yield lies between 0 and the sum of row maxima, and that sum is positive |
| Crops.CostBounds | ml1/main.py:35-37 | a genome's cost is at most N · max(crop_costs) |
| Crops.CalculateFitness | ml1/main.py:33-41 | total yield in [0, max_yield], total cost at most max_cost, score in [−BETA, ALPHA] |
| Crops.NewIndividual | ml1/main.py:28-31 | the individual keeps its genome and has fitness in [−BETA, ALPHA] |
| Crops.SortedPair | ml1/main.py:62 | `sorted` of two draws: the same two values, the smaller first |
| Crops.CopyGenome | ml1/main.py:63 | the copy is a fresh array holding the parent's genome |
| Selection.Candidates | ml1/main.py:50 | five candidates, the k-th the individual at the k-th drawn position, and as `random.sample` promises a sub-multiset of the population |
| Selection.PickWithin | ml1/main.py:50 | picking at distinct positions takes no individual more often than the population holds it |
| Selection.Insert | ml1/main.py:51 | inserting into a fitness-sorted list keeps it sorted and adds exactly the one element |
| Selection.SortByFitness | ml1/main.py:51 | `sort(key=fitness, reverse=True)`: sorted from fittest down, and a permutation |
| Selection.SelectParents | ml1/main.py:49-52 | the two returned are among the five candidates, the first at least as fit as the second, and every other candidate at most as fit as the second |
| Selection.TopTwo | ml1/main.py:52 | the first two of a sorted list are its two fittest |
| Selection.ParentsWellFormed | ml1/main.py:49-52 | parents from a population of well-formed individuals are well formed |
| Crossover.ExchangeConservesGenes | ml1/main.py:55-71 | children that exchange the parents' genes position by position carry exactly the parents' genes together |
| Crossover.ExchangeKeepsValid | ml1/main.py:55-71 | an exchange of valid genomes gives valid genomes |
| Crossover.TwoPointChild | ml1/main.py:64 | the child genome has its parent's length (the position facts are `TwoPointChildPositions`) |
| Crossover.SinglePointCrossover | ml1/main.py:55-59 | child 1 is parent 1 before the cut and parent 2 from it on; child 2 the mirror; both well formed |
| Crossover.OverwriteSlice | ml1/main.py:64 | the array afterwards is its old contents with [lo, hi) from the donor |
| Crossover.TwoPointOf | ml1/main.py:61-65 | both children well formed, exchanging the parents' genes, and copies of the parents when the two draws coincide |
| Crossover.TwoPointCrossover | ml1/main.py:61-65 | copying both genomes and overwriting the sorted slice gives `TwoPointOf`; the parents are values and stay unchanged |
| Crossover.TwoPointChildPositions | ml1/main.py:63-64 | a two-point child agrees with its own parent outside [lo, hi) and with the other parent inside |
| Crossover.TwoPointExchange | ml1/main.py:64 | the two two-point children exchange the parents' genes and are valid for valid parents |
| Crossover.TwoPointEmptySlice | ml1/main.py:62-64 | lo = hi leaves each child a copy of its parent |
| Crossover.UniformCrossover | ml1/main.py:67-71 | at each position the pair of children's genes is (p1, p2) where the mask is set and (p2, p1) where it is not; both well formed |
| Crossover.UniformComplement | ml1/main.py:68-70 | negating the mask swaps the children |
| Mutation.ResetOf | ml1/main.py:74-78 | the gene at pos becomes `gene`, every other position is unchanged, genes stay in [0, K) |
| Mutation.RandomReset | ml1/main.py:74-78 | copying the genome and assigning one position gives `ResetOf` |
| Mutation.Swapped | ml1/main.py:83 | the swapped genome has the same length (the position facts are `SwappedPositions`) |
| Mutation.SwappedKeepsGenes | ml1/main.py:83 | a swap keeps the multiset of genes |
| Mutation.SwappedPositions | ml1/main.py:83 | a swap exchanges positions i and j and moves nothing else |
| Mutation.SwapTwice | ml1/main.py:83 | swapping the same positions twice restores the genome |
| Mutation.SwapOf | ml1/main.py:80-84 | the swapped individual is well formed and has the same genes |
| Mutation.SwapMutation | ml1/main.py:80-84 | the in-place swap of two distinct positions of a copy gives `SwapOf` |
| Mutation.Reversed | ml1/main.py:89 | `s[::-1]`: same length, element k is element \|s\| − 1 − k |
| Mutation.ReversedKeepsElements | ml1/main.py:89 | reversing keeps the multiset |
| Mutation.Inverted | ml1/main.py:89 | the inverted genome has the same length (the position facts are `InvertedPositions`) |
| Mutation.InvertedPositions | ml1/main.py:89 | inversion reverses positions i..j inclusive and leaves the others alone |
| Mutation.InvertedKeepsGenes | ml1/main.py:89 | inversion keeps the multiset of genes |
| Mutation.InvertTwice | ml1/main.py:89 | inverting the same slice twice restores the genome |
| Mutation.InvertSlice | ml1/main.py:89 | the in-place write-back of the reversed slice gives the inversion of the old array |
| Mutation.InversionOf | ml1/main.py:86-90 | the inverted individual is well formed and has the same genes |
| Mutation.InversionMutation | ml1/main.py:86-90 | sorting the two draws, copying and reversing the slice in place gives `InversionOf` |
| Evolution.CrossoverOf | ml1/main.py:98 | every crossover operator gives well-formed children exchanging the parents' genes |
| Evolution.MutationOf | ml1/main.py:102-104 | every mutation operator gives a well-formed individual; swap and inversion keep the genes |
| Evolution.CrossoverStep | ml1/main.py:97-100 | with or without crossover the pair is well formed and carries exactly the parents' genes |
| Evolution.MutationStep | ml1/main.py:101-104 | with or without mutation the child is well formed; swap and inversion keep its genes |
| Evolution.Offspring | ml1/main.py:96-104 | the two children of a round are well formed |
| Evolution.Generation | ml1/main.py:94-105 | k rounds give 2k children |
| Evolution.GenerationStep | ml1/main.py:105 | round k appends its two children after those of the earlier rounds |
| Evolution.GenerationWellFormed | ml1/main.py:94-105 | every child of every round is well formed |
| Evolution.Cross | ml1/main.py:97-100 | the crossover branch of the loop body gives `CrossoverStep` |
| Evolution.Mutate | ml1/main.py:101-104 | the mutation branch of the loop body gives `MutationStep` |
| Evolution.Breed | ml1/main.py:96-105 | one pass of the loop body extends the children of k rounds to those of k + 1 |
| Evolution.Rounds | ml1/main.py:95 | the loop runs ceil(n / 2) rounds: n <= 2 · rounds <= n + 1 |
| Evolution.Evolved | ml1/main.py:93-106 | the new population has exactly len(population) individuals, all well formed |
| Evolution.EvolvePopulation | ml1/main.py:93-106 | the `while` loop with `extend`, followed by the cut to len(population), gives `Evolved` |
| Evolution.OffspringKeepsParentGenes | ml1/main.py:96-104 | with swap or inversion mutation the two children together carry exactly the genes of the two selected parents |

## Left out

- All `print` output in ml3/ml3.py and ml1/main.py is left out. It is a side channel and does not affect any result.
- `MachineController`, `main` and its blocking `input` in ml3/ml3.py are left out as interactive presentation. So are the display strings of `MaterialProperty`: the enumeration keeps its five values, and `Machining.MachiningParameters` keeps the material value instead of its display name.
- The unused `sqlite3` import is left out.
- The matplotlib plotting in ml1/main.py and ml2/main.py is left out. So are `run_experiment`, the experiment calls and `create_random_individual`: they only feed random genomes and plot results.
- The random generators (`np.random.*`, `random.sample`, `random.random`) are not modelled. Every draw is a parameter constrained to the range the generator draws from. `random.sample(population, 5)` raises on populations of fewer than five. The model instead requires five distinct indices (`Selection.ValidSample`), so it has no raising path.
- Arithmetic is over exact reals, not IEEE-754 doubles.
  - The numbers the source prints at resolution 100 are not reproduced.
  - Sample points are computed exactly, not with float rounding.
  - Python's `round` is modelled exactly as round-half-to-even on the exact value.
- Machining.SpindlePower: its own contract states only the lower bound 1.0. The 0.05 closeness to the unrounded power is proved separately, in `Machining.SpindlePowerNearRaw`.
- Machining.CalculateParameters: the centroid values themselves are not computed. Only their ranges, the defaults and the aluminium enclosures are proved.
- The tables `crop_costs` and `field_yields` are constants (`Crops.CropCosts`, `Crops.FieldYields`). Their shape is `Crops.TableShapes`. The positivity of every yield is the `Crops.Row` type. What the fitness uses of them is in `Crops.CostSum`, `Crops.MaxYield` and `Crops.MaxCost`.
- Selection.SortByFitness: Python's sort is stable. The model inserts each element in front of the equally fit elements that follow it, which keeps the same order. The model proves sortedness and permutation, not stability.
- `Individual` is a value (`Crops.Individual`) whose fields are fixed by `Individual(genome)`. The source never updates them after `__init__`.

## Findings

No discrepancy between the source and its evident intent was found. Two behaviours are worth noting; both are intended as written:

- the medium thermal term never reaches 1 (`Fuzzifier.ThermalMediumPeak`);
- the "fit" trapezoid is 0 at the top of its universe (`Trapezoid.FitIsZeroAtTop`).
