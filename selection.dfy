/** Tournament parent selection, `select_parents` of ml1/main.py: five
    distinct individuals are sampled, sorted by fitness from best to worst
    (Python's sort is stable) and the first two are returned. The sample
    that `random.sample` would draw is a parameter. */
module Selection {
  import opened Crops

  /** `random.sample(population, 5)` draws five distinct positions. */
  const TournamentSize: nat := 5

  predicate ValidSample(sample: seq<nat>, size: nat) {
    && |sample| == TournamentSize
    && InRange(sample, size)
    && Distinct(sample)
  }

  /** The sampled individuals, in draw order. As `random.sample` promises,
      they are five of the population's individuals, none drawn twice: the
      candidates form a sub-multiset of the population. */
  function Candidates(population: seq<Individual>, sample: seq<nat>): (c: seq<Individual>)
    requires ValidSample(sample, |population|)
    ensures |c| == TournamentSize
    ensures forall k :: 0 <= k < |c| ==> c[k] == population[sample[k]]
    ensures multiset(c) <= multiset(population)
  {
    PickWithin(population, sample);
    PickAt(population, sample);
    Pick(population, sample)
  }

  predicate InRange(sample: seq<nat>, size: nat) {
    forall k :: 0 <= k < |sample| ==> sample[k] < size
  }

  predicate Distinct(sample: seq<nat>) {
    forall k, l :: 0 <= k < l < |sample| ==> sample[k] != sample[l]
  }

  /** The individuals at the given positions, in order. */
  function Pick(population: seq<Individual>, sample: seq<nat>): (c: seq<Individual>)
    requires InRange(sample, |population|)
    ensures |c| == |sample|
  {
    if sample == [] then [] else [population[sample[0]]] + Pick(population, sample[1..])
  }

  /** The k-th pick is the individual at the k-th position. */
  lemma {:induction false} PickAt(population: seq<Individual>, sample: seq<nat>)
    requires InRange(sample, |population|)
    ensures forall k :: 0 <= k < |sample| ==> Pick(population, sample)[k] == population[sample[k]]
  {
    if sample != [] {
      PickAt(population, sample[1..]);
    }
  }

  /** Picking at distinct positions takes each individual at most as often
      as the population holds it. */
  lemma {:induction false} PickWithin(population: seq<Individual>, sample: seq<nat>)
    requires InRange(sample, |population|) && Distinct(sample)
    ensures multiset(Pick(population, sample)) <= multiset(population)
    decreases |population|
  {
    if |population| > 0 {
      var last := |population| - 1;
      var init := population[..last];
      assert population == init + [population[last]];
      if j :| 0 <= j < |sample| && sample[j] == last {
        var rest := RemoveAt(sample, j);
        RemoveAtKeeps(sample, j, |population|);
        PickWithin(init, rest);
        RemoveAtInRange(sample, j, |population|);
        PickRemoveAt(population, sample, j);
        PickPrefix(population, rest, last);
      } else {
        PickPrefix(population, sample, last);
        PickWithin(init, sample);
      }
    }
  }

  function RemoveAt(sample: seq<nat>, j: nat): seq<nat>
    requires j < |sample|
  {
    sample[..j] + sample[j + 1..]
  }

  /** Dropping the position drawn as the last index leaves distinct positions
      below it. */
  lemma RemoveAtKeeps(sample: seq<nat>, j: nat, size: nat)
    requires InRange(sample, size) && Distinct(sample) && j < |sample| && sample[j] == size - 1
    ensures InRange(RemoveAt(sample, j), size - 1) && Distinct(RemoveAt(sample, j))
  {
    var rest := RemoveAt(sample, j);
    forall k | 0 <= k < |rest|
      ensures rest[k] == sample[if k < j then k else k + 1]
    {
    }
  }

  /** Picking without position j takes one copy fewer of the individual there. */
  lemma {:induction false} PickRemoveAt(population: seq<Individual>, sample: seq<nat>, j: nat)
    requires InRange(sample, |population|) && j < |sample|
    requires InRange(RemoveAt(sample, j), |population|)
    ensures multiset(Pick(population, sample)) ==
      multiset(Pick(population, RemoveAt(sample, j))) + multiset{population[sample[j]]}
  {
    var head, tail := population[sample[0]], sample[1..];
    assert Pick(population, sample) == [head] + Pick(population, tail);
    if j == 0 {
      assert RemoveAt(sample, 0) == tail;
    } else {
      RemoveAtCons(sample, j, |population|);
      PickRemoveAt(population, tail, j - 1);
    }
  }

  /** Removing a later position keeps the head. */
  lemma RemoveAtCons(sample: seq<nat>, j: nat, size: nat)
    requires InRange(sample, size) && 0 < j < |sample|
    ensures RemoveAt(sample, j) == [sample[0]] + RemoveAt(sample[1..], j - 1)
    ensures InRange(RemoveAt(sample[1..], j - 1), size)
  {
    assert sample[1..][..j - 1] == sample[1..j];
    assert sample[1..][j..] == sample[j + 1..];
  }

  /** Removing a position keeps the others in range. */
  lemma RemoveAtInRange(sample: seq<nat>, j: nat, size: nat)
    requires InRange(sample, size) && j < |sample|
    ensures InRange(RemoveAt(sample, j), size)
  {
    var rest := RemoveAt(sample, j);
    forall k | 0 <= k < |rest|
      ensures rest[k] == sample[if k < j then k else k + 1]
    {
    }
  }

  /** Positions below `cut` pick the same individuals from the prefix. */
  lemma {:induction false} PickPrefix(population: seq<Individual>, sample: seq<nat>, cut: nat)
    requires cut <= |population| && InRange(sample, cut)
    ensures Pick(population, sample) == Pick(population[..cut], sample)
    decreases |sample|
  {
    if sample != [] {
      PickPrefix(population, sample[1..], cut);
    }
  }

  predicate SortedByFitness(s: seq<Individual>) {
    forall k, l :: 0 <= k < l < |s| ==> s[k].fitness >= s[l].fitness
  }

  /** Inserts x in front of the first element that is not fitter than it,
      so that x stays ahead of the equally fit elements that followed it. */
  function Insert(x: Individual, s: seq<Individual>): (r: seq<Individual>)
    requires SortedByFitness(s)
    ensures SortedByFitness(r)
    ensures multiset(r) == multiset(s) + multiset{x}
    ensures |r| == |s| + 1
    ensures r[0] == x || (|s| > 0 && r[0] == s[0])
  {
    if s == [] || s[0].fitness <= x.fitness then
      PrependSorted(x, s);
      [x] + s
    else
      var rest := Insert(x, s[1..]);
      assert s == [s[0]] + s[1..];
      assert multiset([s[0]] + rest) == multiset{s[0]} + multiset(rest);
      PrependSorted(s[0], rest);
      [s[0]] + rest
  }

  /** An element at least as fit as the head of a sorted sequence can go in front. */
  lemma PrependSorted(y: Individual, s: seq<Individual>)
    requires SortedByFitness(s)
    requires |s| > 0 ==> y.fitness >= s[0].fitness
    ensures SortedByFitness([y] + s)
  {
    var r := [y] + s;
    forall k, l | 0 <= k < l < |r|
      ensures r[k].fitness >= r[l].fitness
    {
      assert r[l] == s[l - 1];
      if k > 0 {
        assert r[k] == s[k - 1];
      } else if l > 1 {
        assert s[0].fitness >= s[l - 1].fitness;
      }
    }
  }

  /** `candidates.sort(key=lambda x: x.fitness, reverse=True)`. */
  function SortByFitness(s: seq<Individual>): (r: seq<Individual>)
    ensures SortedByFitness(r)
    ensures multiset(r) == multiset(s)
    ensures |r| == |s|
  {
    if s == [] then []
    else
      assert s == [s[0]] + s[1..];
      Insert(s[0], SortByFitness(s[1..]))
  }

  /** `select_parents(population)`: the two fittest candidates, fitter first;
      every other candidate is at most as fit as the second. */
  function SelectParents(population: seq<Individual>, sample: seq<nat>): (parents: (Individual, Individual))
    requires ValidSample(sample, |population|)
    ensures parents.0.fitness >= parents.1.fitness
    ensures multiset{parents.0, parents.1} <= multiset(Candidates(population, sample))
    ensures forall c :: c in multiset(Candidates(population, sample)) - multiset{parents.0, parents.1} ==>
                          c.fitness <= parents.1.fitness
  {
    var sorted := SortByFitness(Candidates(population, sample));
    TopTwo(sorted);
    (sorted[0], sorted[1])
  }

  /** The head of a sorted sequence of at least two is its two fittest. */
  lemma TopTwo(s: seq<Individual>)
    requires SortedByFitness(s) && |s| >= 2
    ensures multiset{s[0], s[1]} <= multiset(s)
    ensures forall c :: c in multiset(s) - multiset{s[0], s[1]} ==> c.fitness <= s[1].fitness
  {
    assert s == [s[0], s[1]] + s[2..];
    assert multiset(s) == multiset{s[0], s[1]} + multiset(s[2..]);
    forall c | c in multiset(s) - multiset{s[0], s[1]}
      ensures c.fitness <= s[1].fitness
    {
      assert c in multiset(s[2..]);
      var k :| 2 <= k < |s| && s[k] == c;
    }
  }

  /** Parents drawn from a population of well-formed individuals are well formed. */
  lemma ParentsWellFormed(population: seq<Individual>, sample: seq<nat>)
    requires ValidSample(sample, |population|)
    requires forall k :: 0 <= k < |population| ==> WellFormed(population[k])
    ensures WellFormed(SelectParents(population, sample).0)
    ensures WellFormed(SelectParents(population, sample).1)
  {
    var candidates := Candidates(population, sample);
    var parents := SelectParents(population, sample);
    assert parents.0 in multiset(candidates) && parents.1 in multiset(candidates);
    assert parents.0 in candidates && parents.1 in candidates;
  }
}
