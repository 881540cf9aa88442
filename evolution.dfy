/** One generation of the genetic algorithm, `evolve_population` of
    ml1/main.py: pairs of parents are selected, crossed over with probability
    0.7 and each child mutated with probability 0.5, until the new population
    is at least as large as the old one; the surplus child is dropped. The
    operators are chosen by name, and every draw a round makes is supplied in
    a `RoundDraws` record. */
module Evolution {
  import opened Crops
  import opened Selection
  import opened Crossover
  import opened Mutation

  /** The crossover function passed to `evolve_population`. */
  datatype CrossoverKind = SinglePoint | TwoPoint | Uniform

  /** The mutation function passed to `evolve_population`. */
  datatype MutationKind = Reset | Swap | Inversion

  /** The draws of a crossover call: the single cut point, the two cut
      draws, or the mask, whichever the operator uses. */
  datatype CrossoverDraw = CrossoverDraw(point: int, cut1: int, cut2: int, mask: seq<bool>)

  /** The draws of a mutation call: position and gene for a reset, two
      distinct positions for a swap or an inversion. */
  datatype MutationDraw = MutationDraw(position: int, gene: int, first: int, second: int)

  /** Everything one round of the loop draws: the tournament sample, the
      crossover coin and draws, and a coin and draws per child. */
  datatype RoundDraws = RoundDraws(
    sample: seq<nat>,
    crossoverCoin: real, crossover: CrossoverDraw,
    mutationCoin1: real, mutation1: MutationDraw,
    mutationCoin2: real, mutation2: MutationDraw)

  /** `random.random()` lies in [0, 1). */
  predicate ValidCoin(c: real) {
    0.0 <= c < 1.0
  }

  predicate ValidCrossoverDraw(kind: CrossoverKind, d: CrossoverDraw) {
    match kind
    case SinglePoint => 1 <= d.point < FieldCount
    case TwoPoint => 1 <= d.cut1 < FieldCount && 1 <= d.cut2 < FieldCount
    case Uniform => |d.mask| == FieldCount
  }

  predicate ValidMutationDraw(kind: MutationKind, d: MutationDraw) {
    match kind
    case Reset => 0 <= d.position < FieldCount && 0 <= d.gene < CropCount
    case Swap => 0 <= d.first < FieldCount && 0 <= d.second < FieldCount && d.first != d.second
    case Inversion => 0 <= d.first < FieldCount && 0 <= d.second < FieldCount && d.first != d.second
  }

  predicate ValidRound(size: nat, ck: CrossoverKind, mk: MutationKind, d: RoundDraws) {
    && ValidSample(d.sample, size)
    && ValidCoin(d.crossoverCoin) && ValidCrossoverDraw(ck, d.crossover)
    && ValidCoin(d.mutationCoin1) && ValidMutationDraw(mk, d.mutation1)
    && ValidCoin(d.mutationCoin2) && ValidMutationDraw(mk, d.mutation2)
  }

  predicate AllWellFormed(population: seq<Individual>) {
    forall k :: 0 <= k < |population| ==> WellFormed(population[k])
  }

  /** What the chosen crossover returns: both children are well formed and
      exchange the parents' genes position by position. */
  function CrossoverOf(kind: CrossoverKind, p1: Individual, p2: Individual, d: CrossoverDraw)
    : (children: (Individual, Individual))
    requires WellFormed(p1) && WellFormed(p2) && ValidCrossoverDraw(kind, d)
    ensures WellFormed(children.0) && WellFormed(children.1)
    ensures Exchange(p1.genome, p2.genome, children.0.genome, children.1.genome)
  {
    match kind
    case SinglePoint => SinglePointCrossover(p1, p2, d.point)
    case TwoPoint => TwoPointOf(p1, p2, d.cut1, d.cut2)
    case Uniform => UniformCrossover(p1, p2, d.mask)
  }

  /** What the chosen mutation returns: a well-formed individual; a swap or
      an inversion keeps the genes. */
  function MutationOf(kind: MutationKind, ind: Individual, d: MutationDraw): (r: Individual)
    requires WellFormed(ind) && ValidMutationDraw(kind, d)
    ensures WellFormed(r)
    ensures kind != Reset ==> multiset(r.genome) == multiset(ind.genome)
  {
    match kind
    case Reset => ResetOf(ind, d.position, d.gene)
    case Swap => SwapOf(ind, d.first, d.second)
    case Inversion => InversionOf(ind, d.first, d.second)
  }

  /** The crossover step of a round: the chosen crossover when the coin is
      below `CROSSOVER_PROBABILITY`, the parents themselves otherwise. Either
      way the pair carries the parents' genes. */
  function CrossoverStep(kind: CrossoverKind, parents: (Individual, Individual), coin: real, d: CrossoverDraw)
    : (children: (Individual, Individual))
    requires WellFormed(parents.0) && WellFormed(parents.1) && ValidCrossoverDraw(kind, d)
    ensures WellFormed(children.0) && WellFormed(children.1)
    ensures multiset(children.0.genome) + multiset(children.1.genome) ==
            multiset(parents.0.genome) + multiset(parents.1.genome)
  {
    if coin < CrossoverProbability then
      var crossed := CrossoverOf(kind, parents.0, parents.1, d);
      ExchangeConservesGenes(parents.0.genome, parents.1.genome, crossed.0.genome, crossed.1.genome);
      crossed
    else parents
  }

  /** The mutation step for one child: the chosen mutation when the coin is
      below `MUTATION_PROBABILITY`, the child itself otherwise. */
  function MutationStep(kind: MutationKind, ind: Individual, coin: real, d: MutationDraw): (r: Individual)
    requires WellFormed(ind) && ValidMutationDraw(kind, d)
    ensures WellFormed(r)
    ensures kind != Reset ==> multiset(r.genome) == multiset(ind.genome)
  {
    if coin < MutationProbability then MutationOf(kind, ind, d) else ind
  }

  /** The two children one round of the loop appends. */
  function Offspring(population: seq<Individual>, ck: CrossoverKind, mk: MutationKind, d: RoundDraws)
    : (children: (Individual, Individual))
    requires AllWellFormed(population) && ValidRound(|population|, ck, mk, d)
    ensures WellFormed(children.0) && WellFormed(children.1)
  {
    var parents := SelectParents(population, d.sample);
    ParentsWellFormed(population, d.sample);
    var crossed := CrossoverStep(ck, parents, d.crossoverCoin, d.crossover);
    (MutationStep(mk, crossed.0, d.mutationCoin1, d.mutation1),
     MutationStep(mk, crossed.1, d.mutationCoin2, d.mutation2))
  }

  /** The children of the first k rounds, two per round, in order. */
  function Generation(population: seq<Individual>, ck: CrossoverKind, mk: MutationKind, draws: seq<RoundDraws>,
                      k: nat): (children: seq<Individual>)
    requires AllWellFormed(population) && k <= |draws|
    requires forall r :: 0 <= r < |draws| ==> ValidRound(|population|, ck, mk, draws[r])
    ensures |children| == 2 * k
  {
    if k == 0 then []
    else
      var children := Offspring(population, ck, mk, draws[k - 1]);
      Generation(population, ck, mk, draws, k - 1) + [children.0, children.1]
  }

  /** Round k appends its two children to those of the rounds before it. */
  lemma GenerationStep(population: seq<Individual>, ck: CrossoverKind, mk: MutationKind, draws: seq<RoundDraws>,
                       k: nat)
    requires AllWellFormed(population) && k < |draws|
    requires forall r :: 0 <= r < |draws| ==> ValidRound(|population|, ck, mk, draws[r])
    ensures var children := Offspring(population, ck, mk, draws[k]);
      Generation(population, ck, mk, draws, k + 1) == Generation(population, ck, mk, draws, k) + [children.0, children.1]
  {
  }

  /** Every child of every round is well formed. */
  lemma {:induction false} GenerationWellFormed(population: seq<Individual>, ck: CrossoverKind, mk: MutationKind,
                                                draws: seq<RoundDraws>, k: nat)
    requires AllWellFormed(population) && k <= |draws|
    requires forall r :: 0 <= r < |draws| ==> ValidRound(|population|, ck, mk, draws[r])
    ensures AllWellFormed(Generation(population, ck, mk, draws, k))
  {
    if k > 0 {
      GenerationWellFormed(population, ck, mk, draws, k - 1);
      var children := Offspring(population, ck, mk, draws[k - 1]);
      AppendWellFormed(Generation(population, ck, mk, draws, k - 1), children.0, children.1);
    }
  }

  lemma AppendWellFormed(s: seq<Individual>, x: Individual, y: Individual)
    requires AllWellFormed(s) && WellFormed(x) && WellFormed(y)
    ensures AllWellFormed(s + [x, y])
  {
  }

  /** The crossover step of the loop body. */
  method Cross(kind: CrossoverKind, parents: (Individual, Individual), coin: real, d: CrossoverDraw)
    returns (c1: Individual, c2: Individual)
    requires WellFormed(parents.0) && WellFormed(parents.1) && ValidCrossoverDraw(kind, d)
    ensures (c1, c2) == CrossoverStep(kind, parents, coin, d)
  {
    c1, c2 := parents.0, parents.1;
    if coin < CrossoverProbability {
      match kind
      case SinglePoint =>
        var children := SinglePointCrossover(parents.0, parents.1, d.point);
        c1, c2 := children.0, children.1;
      case TwoPoint =>
        c1, c2 := TwoPointCrossover(parents.0, parents.1, d.cut1, d.cut2);
      case Uniform =>
        var children := UniformCrossover(parents.0, parents.1, d.mask);
        c1, c2 := children.0, children.1;
    }
  }

  /** The mutation step of the loop body for one child. */
  method Mutate(kind: MutationKind, ind: Individual, coin: real, d: MutationDraw) returns (r: Individual)
    requires WellFormed(ind) && ValidMutationDraw(kind, d)
    ensures r == MutationStep(kind, ind, coin, d)
  {
    r := ind;
    if coin < MutationProbability {
      match kind
      case Reset => r := RandomReset(ind, d.position, d.gene);
      case Swap => r := SwapMutation(ind, d.first, d.second);
      case Inversion => r := InversionMutation(ind, d.first, d.second);
    }
  }

  /** Round k of the loop body: select, maybe cross over, maybe mutate each
      child, and append the two children to those of the earlier rounds. */
  method Breed(population: seq<Individual>, ck: CrossoverKind, mk: MutationKind, draws: seq<RoundDraws>,
               newPop: seq<Individual>, k: nat)
    returns (extended: seq<Individual>)
    requires AllWellFormed(population) && k < |draws|
    requires forall r :: 0 <= r < |draws| ==> ValidRound(|population|, ck, mk, draws[r])
    requires newPop == Generation(population, ck, mk, draws, k)
    ensures extended == Generation(population, ck, mk, draws, k + 1)
  {
    var d := draws[k];
    var parents := SelectParents(population, d.sample);
    ParentsWellFormed(population, d.sample);
    var c1, c2 := Cross(ck, parents, d.crossoverCoin, d.crossover);
    c1 := Mutate(mk, c1, d.mutationCoin1, d.mutation1);
    c2 := Mutate(mk, c2, d.mutationCoin2, d.mutation2);
    GenerationStep(population, ck, mk, draws, k);
    extended := newPop + [c1, c2];
  }

  /** The number of rounds the loop runs for a population of n, two
      children per round: ceil(n / 2). */
  function Rounds(n: nat): (r: nat)
    ensures n <= 2 * r <= n + 1
  {
    if n <= 1 then n else 1 + Rounds(n - 2)
  }

  /** The population `evolve_population` returns: the first |population|
      children of `Rounds(|population|)` rounds, so as many individuals as
      before, all well formed. */
  function Evolved(population: seq<Individual>, ck: CrossoverKind, mk: MutationKind, draws: seq<RoundDraws>)
    : (next: seq<Individual>)
    requires AllWellFormed(population)
    requires Rounds(|population|) <= |draws|
    requires forall r :: 0 <= r < |draws| ==> ValidRound(|population|, ck, mk, draws[r])
    ensures |next| == |population|
    ensures AllWellFormed(next)
  {
    var children := Generation(population, ck, mk, draws, Rounds(|population|));
    GenerationWellFormed(population, ck, mk, draws, Rounds(|population|));
    PrefixWellFormed(children, |population|);
    children[..|population|]
  }

  lemma PrefixWellFormed(s: seq<Individual>, n: nat)
    requires AllWellFormed(s) && n <= |s|
    ensures AllWellFormed(s[..n])
  {
  }

  /** `evolve_population(population, crossover, mutation)`: the loop runs
      `Rounds(|population|)` rounds, so `draws` must hold at least that many,
      and the result is `Evolved`. */
  method EvolvePopulation(population: seq<Individual>, ck: CrossoverKind, mk: MutationKind, draws: seq<RoundDraws>)
    returns (next: seq<Individual>)
    requires AllWellFormed(population)
    requires Rounds(|population|) <= |draws|
    requires forall r :: 0 <= r < |draws| ==> ValidRound(|population|, ck, mk, draws[r])
    ensures next == Evolved(population, ck, mk, draws)
  {
    var newPop: seq<Individual> := [];
    var round := 0;
    while |newPop| < |population|
      invariant |newPop| == 2 * round && round <= Rounds(|population|)
      invariant newPop == Generation(population, ck, mk, draws, round)
      decreases |population| - |newPop|
    {
      newPop := Breed(population, ck, mk, draws, newPop, round);
      round := round + 1;
    }
    assert round == Rounds(|population|);
    next := newPop[..|population|];
  }

  /** With swap or inversion mutation, the two children of a round together
      carry exactly the genes of the two selected parents. */
  lemma OffspringKeepsParentGenes(population: seq<Individual>, ck: CrossoverKind, mk: MutationKind, d: RoundDraws)
    requires AllWellFormed(population) && ValidRound(|population|, ck, mk, d) && mk != Reset
    ensures var parents := SelectParents(population, d.sample);
      var children := Offspring(population, ck, mk, d);
      multiset(children.0.genome) + multiset(children.1.genome) ==
        multiset(parents.0.genome) + multiset(parents.1.genome)
  {
    ParentsWellFormed(population, d.sample);
  }
}
