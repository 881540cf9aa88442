/** The three crossover operators of ml1/main.py. Each takes two parents and
    returns two children whose genes, position by position, are the parents'
    genes either kept or exchanged; the cut points and the mask that numpy
    would draw are parameters. */
module Crossover {
  import opened Crops

  /** At every position the children hold the parents' two genes, either in
      the parents' order or exchanged. */
  predicate Exchange(g1: seq<int>, g2: seq<int>, c1: seq<int>, c2: seq<int>) {
    && |g1| == |g2| == |c1| == |c2|
    && forall i :: 0 <= i < |g1| ==>
         (c1[i] == g1[i] && c2[i] == g2[i]) || (c1[i] == g2[i] && c2[i] == g1[i])
  }

  /** An exchange keeps the pair's genes: the children together carry exactly
      the parents' genes. */
  lemma {:induction false} ExchangeConservesGenes(g1: seq<int>, g2: seq<int>, c1: seq<int>, c2: seq<int>)
    requires Exchange(g1, g2, c1, c2)
    ensures multiset(c1) + multiset(c2) == multiset(g1) + multiset(g2)
  {
    if |g1| > 0 {
      var n := |g1| - 1;
      assert Exchange(g1[..n], g2[..n], c1[..n], c2[..n]);
      ExchangeConservesGenes(g1[..n], g2[..n], c1[..n], c2[..n]);
      SnocMultiset(g1);
      SnocMultiset(g2);
      SnocMultiset(c1);
      SnocMultiset(c2);
      var tail := multiset{c1[n]} + multiset{c2[n]};
      assert tail == multiset{g1[n]} + multiset{g2[n]};
      calc {
        multiset(c1) + multiset(c2);
        (multiset(c1[..n]) + multiset(c2[..n])) + tail;
        (multiset(g1[..n]) + multiset(g2[..n])) + (multiset{g1[n]} + multiset{g2[n]});
        multiset(g1) + multiset(g2);
      }
    }
  }

  lemma SnocMultiset(s: seq<int>)
    requires |s| > 0
    ensures multiset(s) == multiset(s[..|s| - 1]) + multiset{s[|s| - 1]}
  {
    assert s == s[..|s| - 1] + [s[|s| - 1]];
  }

  /** An exchange of valid genomes gives valid genomes. */
  lemma ExchangeKeepsValid(g1: seq<int>, g2: seq<int>, c1: seq<int>, c2: seq<int>)
    requires Exchange(g1, g2, c1, c2) && ValidGenome(g1) && ValidGenome(g2)
    ensures ValidGenome(c1) && ValidGenome(c2)
  {
  }

  /** `single_point_crossover` with cut `point` drawn from [1, N): child 1 is
      parent 1 before the cut and parent 2 from it on; child 2 the mirror. */
  function SinglePointCrossover(p1: Individual, p2: Individual, point: int): (children: (Individual, Individual))
    requires WellFormed(p1) && WellFormed(p2) && 1 <= point < FieldCount
    ensures WellFormed(children.0) && WellFormed(children.1)
    ensures forall i :: 0 <= i < FieldCount ==>
              && children.0.genome[i] == (if i < point then p1.genome[i] else p2.genome[i])
              && children.1.genome[i] == (if i < point then p2.genome[i] else p1.genome[i])
    ensures Exchange(p1.genome, p2.genome, children.0.genome, children.1.genome)
  {
    var g1 := p1.genome[..point] + p2.genome[point..];
    var g2 := p2.genome[..point] + p1.genome[point..];
    assert Exchange(p1.genome, p2.genome, g1, g2);
    ExchangeKeepsValid(p1.genome, p2.genome, g1, g2);
    (NewIndividual(g1), NewIndividual(g2))
  }

  /** The genome of a two-point child: `own` with positions [lo, hi) taken
      from `donor`. */
  function TwoPointChild(own: seq<int>, donor: seq<int>, lo: int, hi: int): (c: seq<int>)
    requires |own| == |donor|
    ensures |c| == |own|
  {
    seq(|own|, i requires 0 <= i < |own| => if lo <= i < hi then donor[i] else own[i])
  }

  /** `child[lo:hi] = donor[lo:hi]` on an array. */
  method OverwriteSlice(child: array<int>, donor: seq<int>, lo: int, hi: int)
    requires |donor| == child.Length && 0 <= lo <= hi <= child.Length
    modifies child
    ensures child[..] == TwoPointChild(old(child[..]), donor, lo, hi)
  {
    ghost var own := child[..];
    for k := lo to hi
      invariant forall i :: 0 <= i < child.Length ==> child[i] == (if lo <= i < k then donor[i] else own[i])
    {
      child[k] := donor[k];
    }
    assert child[..] == TwoPointChild(own, donor, lo, hi);
  }

  /** The children `two_point_crossover` returns for cut draws d1, d2: both
      well formed, exchanging the parents' genes, and copies of the parents
      when the draws coincide. */
  function TwoPointOf(p1: Individual, p2: Individual, draw1: int, draw2: int): (children: (Individual, Individual))
    requires WellFormed(p1) && WellFormed(p2)
    requires 1 <= draw1 < FieldCount && 1 <= draw2 < FieldCount
    ensures WellFormed(children.0) && WellFormed(children.1)
    ensures Exchange(p1.genome, p2.genome, children.0.genome, children.1.genome)
    ensures draw1 == draw2 ==> children == (p1, p2)
  {
    var (lo, hi) := SortedPair(draw1, draw2);
    TwoPointExchange(p1.genome, p2.genome, lo, hi);
    if draw1 == draw2 then
      TwoPointEmptySlice(p1.genome, p2.genome, lo);
      TwoPointEmptySlice(p2.genome, p1.genome, lo);
      (NewIndividual(TwoPointChild(p1.genome, p2.genome, lo, hi)),
       NewIndividual(TwoPointChild(p2.genome, p1.genome, lo, hi)))
    else
      (NewIndividual(TwoPointChild(p1.genome, p2.genome, lo, hi)),
       NewIndividual(TwoPointChild(p2.genome, p1.genome, lo, hi)))
  }

  /** `two_point_crossover` with both cut draws from [1, N), sorted into
      lo <= hi: each child is a copy of its own parent whose slice [lo, hi) is
      overwritten in place by the other parent's; the parents are unchanged. */
  method TwoPointCrossover(p1: Individual, p2: Individual, draw1: int, draw2: int)
    returns (c1: Individual, c2: Individual)
    requires WellFormed(p1) && WellFormed(p2)
    requires 1 <= draw1 < FieldCount && 1 <= draw2 < FieldCount
    ensures (c1, c2) == TwoPointOf(p1, p2, draw1, draw2)
  {
    var (lo, hi) := SortedPair(draw1, draw2);
    var child1 := CopyGenome(p1.genome);
    var child2 := CopyGenome(p2.genome);
    OverwriteSlice(child1, p2.genome, lo, hi);
    OverwriteSlice(child2, p1.genome, lo, hi);
    c1, c2 := NewIndividual(child1[..]), NewIndividual(child2[..]);
  }

  /** A two-point child agrees with its own parent outside [lo, hi) and with
      the donor inside it. */
  lemma TwoPointChildPositions(own: seq<int>, donor: seq<int>, lo: int, hi: int)
    requires |own| == |donor|
    ensures forall i :: 0 <= i < |own| && (i < lo || hi <= i) ==> TwoPointChild(own, donor, lo, hi)[i] == own[i]
    ensures forall i :: lo <= i < hi && 0 <= i < |own| ==> TwoPointChild(own, donor, lo, hi)[i] == donor[i]
  {
  }

  /** The two children of a two-point crossover exchange the parents' genes,
      and valid parents give valid children. */
  lemma TwoPointExchange(g1: seq<int>, g2: seq<int>, lo: int, hi: int)
    requires |g1| == |g2|
    ensures Exchange(g1, g2, TwoPointChild(g1, g2, lo, hi), TwoPointChild(g2, g1, lo, hi))
    ensures ValidGenome(g1) && ValidGenome(g2) ==>
              ValidGenome(TwoPointChild(g1, g2, lo, hi)) && ValidGenome(TwoPointChild(g2, g1, lo, hi))
  {
  }

  /** An empty slice leaves the child a copy of its own parent. */
  lemma TwoPointEmptySlice(own: seq<int>, donor: seq<int>, cut: int)
    requires |own| == |donor|
    ensures TwoPointChild(own, donor, cut, cut) == own
  {
  }

  /** `uniform_crossover` with the boolean `mask` numpy would draw: where the
      mask is set, child 1 takes parent 1's gene and child 2 parent 2's; where
      it is clear, the other way round. */
  function UniformCrossover(p1: Individual, p2: Individual, mask: seq<bool>): (children: (Individual, Individual))
    requires WellFormed(p1) && WellFormed(p2) && |mask| == FieldCount
    ensures WellFormed(children.0) && WellFormed(children.1)
    ensures forall i :: 0 <= i < FieldCount ==>
              (children.0.genome[i], children.1.genome[i]) ==
                (if mask[i] then (p1.genome[i], p2.genome[i]) else (p2.genome[i], p1.genome[i]))
    ensures Exchange(p1.genome, p2.genome, children.0.genome, children.1.genome)
  {
    var g1 := seq(FieldCount, i requires 0 <= i < FieldCount => if mask[i] then p1.genome[i] else p2.genome[i]);
    var g2 := seq(FieldCount, i requires 0 <= i < FieldCount => if mask[i] then p2.genome[i] else p1.genome[i]);
    ExchangeKeepsValid(p1.genome, p2.genome, g1, g2);
    (NewIndividual(g1), NewIndividual(g2))
  }

  /** Negating the mask swaps the two children. */
  lemma UniformComplement(p1: Individual, p2: Individual, mask: seq<bool>)
    requires WellFormed(p1) && WellFormed(p2) && |mask| == FieldCount
    ensures var flipped := seq(|mask|, i requires 0 <= i < |mask| => !mask[i]);
      && UniformCrossover(p1, p2, flipped).0 == UniformCrossover(p1, p2, mask).1
      && UniformCrossover(p1, p2, flipped).1 == UniformCrossover(p1, p2, mask).0
  {
    var flipped := seq(|mask|, i requires 0 <= i < |mask| => !mask[i]);
    assert UniformCrossover(p1, p2, flipped).0.genome == UniformCrossover(p1, p2, mask).1.genome;
    assert UniformCrossover(p1, p2, flipped).1.genome == UniformCrossover(p1, p2, mask).0.genome;
  }
}
