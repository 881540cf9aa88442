/** The three mutation operators of ml1/main.py. Each copies the genome,
    changes the copy in place and builds a new individual from it; the
    positions and the gene numpy would draw are parameters. */
module Mutation {
  import opened Crops

  /** The individual `random_reset` returns: gene `gene` at `pos`, every
      other position unchanged. */
  function ResetOf(ind: Individual, pos: int, gene: int): (r: Individual)
    requires WellFormed(ind) && 0 <= pos < FieldCount && 0 <= gene < CropCount
    ensures WellFormed(r)
    ensures r.genome[pos] == gene
    ensures forall i :: 0 <= i < FieldCount && i != pos ==> r.genome[i] == ind.genome[i]
  {
    NewIndividual(ind.genome[pos := gene])
  }

  /** `random_reset` with position `pos` from [0, N) and gene from [0, K): the
      copy gets `gene` at `pos`. */
  method RandomReset(ind: Individual, pos: int, gene: int) returns (r: Individual)
    requires WellFormed(ind) && 0 <= pos < FieldCount && 0 <= gene < CropCount
    ensures r == ResetOf(ind, pos, gene)
  {
    var genome := CopyGenome(ind.genome);
    genome[pos] := gene;
    r := NewIndividual(genome[..]);
  }

  /** The genome with the genes at i and j exchanged. */
  function Swapped(g: seq<int>, i: int, j: int): (s: seq<int>)
    requires 0 <= i < |g| && 0 <= j < |g|
    ensures |s| == |g|
  {
    g[i := g[j]][j := g[i]]
  }

  /** A swap keeps the genes. */
  lemma SwappedKeepsGenes(g: seq<int>, i: int, j: int)
    requires 0 <= i < |g| && 0 <= j < |g|
    ensures multiset(Swapped(g, i, j)) == multiset(g)
  {
    var s := g[i := g[j]];
    assert multiset(s) == multiset(g) - multiset{g[i]} + multiset{g[j]};
    assert multiset(s[j := g[i]]) == multiset(s) - multiset{s[j]} + multiset{g[i]};
  }

  /** A swap exchanges positions i and j and moves nothing else. */
  lemma SwappedPositions(g: seq<int>, i: int, j: int)
    requires 0 <= i < |g| && 0 <= j < |g|
    ensures Swapped(g, i, j)[i] == g[j] && Swapped(g, i, j)[j] == g[i]
    ensures forall k :: 0 <= k < |g| && k != i && k != j ==> Swapped(g, i, j)[k] == g[k]
  {
  }

  /** Swapping the same two positions again restores the genome. */
  lemma SwapTwice(g: seq<int>, i: int, j: int)
    requires 0 <= i < |g| && 0 <= j < |g|
    ensures Swapped(Swapped(g, i, j), i, j) == g
  {
    var s := Swapped(g, i, j);
    assert forall k :: 0 <= k < |g| ==> Swapped(s, i, j)[k] == g[k];
  }

  /** The individual `swap_mutation` returns; it has the same genes. */
  function SwapOf(ind: Individual, i: int, j: int): (r: Individual)
    requires WellFormed(ind) && 0 <= i < FieldCount && 0 <= j < FieldCount
    ensures WellFormed(r)
    ensures multiset(r.genome) == multiset(ind.genome)
  {
    SwappedKeepsGenes(ind.genome, i, j);
    SwappedPositions(ind.genome, i, j);
    NewIndividual(Swapped(ind.genome, i, j))
  }

  /** `swap_mutation` with two distinct positions from [0, N)
      (`np.random.choice(N_FIELDS, 2, replace=False)`): the copy's genes at
      i and j are exchanged in place (see `SwappedPositions`). */
  method SwapMutation(ind: Individual, i: int, j: int) returns (r: Individual)
    requires WellFormed(ind) && 0 <= i < FieldCount && 0 <= j < FieldCount && i != j
    ensures r == SwapOf(ind, i, j)
  {
    var genome := CopyGenome(ind.genome);
    genome[i], genome[j] := genome[j], genome[i];
    assert genome[..] == Swapped(ind.genome, i, j);
    r := NewIndividual(genome[..]);
  }

  /** `s[::-1]`. */
  function Reversed(s: seq<int>): (r: seq<int>)
    ensures |r| == |s|
    ensures forall k :: 0 <= k < |s| ==> r[k] == s[|s| - 1 - k]
  {
    if s == [] then [] else Reversed(s[1..]) + [s[0]]
  }

  /** Reversing keeps the elements. */
  lemma {:induction false} ReversedKeepsElements(s: seq<int>)
    ensures multiset(Reversed(s)) == multiset(s)
  {
    if s != [] {
      ReversedKeepsElements(s[1..]);
      assert s == [s[0]] + s[1..];
    }
  }

  /** `genome[i:j+1] = genome[i:j+1][::-1]`. */
  function Inverted(g: seq<int>, i: int, j: int): (s: seq<int>)
    requires 0 <= i <= j < |g|
    ensures |s| == |g|
  {
    g[..i] + Reversed(g[i..j + 1]) + g[j + 1..]
  }

  /** Inversion reverses positions i..j inclusive and leaves the rest alone. */
  lemma InvertedPositions(g: seq<int>, i: int, j: int)
    requires 0 <= i <= j < |g|
    ensures forall k :: i <= k <= j ==> Inverted(g, i, j)[k] == g[i + j - k]
    ensures forall k :: 0 <= k < |g| && (k < i || j < k) ==> Inverted(g, i, j)[k] == g[k]
  {
    var s := Inverted(g, i, j);
    forall k | i <= k <= j
      ensures s[k] == g[i + j - k]
    {
      assert s[k] == Reversed(g[i..j + 1])[k - i];
    }
  }

  /** A genome that matches the inversion position by position is the inversion. */
  lemma InvertedByPositions(g: seq<int>, s: seq<int>, i: int, j: int)
    requires 0 <= i <= j < |g| && |s| == |g|
    requires forall m :: i <= m <= j ==> s[m] == g[i + j - m]
    requires forall m :: 0 <= m < |s| && (m < i || j < m) ==> s[m] == g[m]
    ensures s == Inverted(g, i, j)
  {
    InvertedPositions(g, i, j);
  }

  /** Inversion keeps the genes. */
  lemma InvertedKeepsGenes(g: seq<int>, i: int, j: int)
    requires 0 <= i <= j < |g|
    ensures multiset(Inverted(g, i, j)) == multiset(g)
  {
    var front, middle, back := g[..i], g[i..j + 1], g[j + 1..];
    ReversedKeepsElements(middle);
    assert multiset(front + Reversed(middle) + back) == multiset(front) + multiset(Reversed(middle)) + multiset(back);
    assert g == front + middle + back;
  }

  /** Applying an inversion twice with the same positions restores the genome. */
  lemma InvertTwice(g: seq<int>, i: int, j: int)
    requires 0 <= i <= j < |g|
    ensures Inverted(Inverted(g, i, j), i, j) == g
  {
    var s := Inverted(g, i, j);
    InvertedPositions(g, i, j);
    InvertedPositions(s, i, j);
    assert forall k :: 0 <= k < |g| ==> Inverted(s, i, j)[k] == g[k];
  }

  /** `genome[i:j+1] = genome[i:j+1][::-1]` on an array: the slice is read
      first and then written back reversed. */
  method InvertSlice(genome: array<int>, i: int, j: int)
    requires 0 <= i <= j < genome.Length
    modifies genome
    ensures genome[..] == Inverted(old(genome[..]), i, j)
  {
    ghost var g := genome[..];
    var segment := genome[i..j + 1];
    for k := i to j + 1
      invariant forall m :: i <= m < k ==> genome[m] == g[i + j - m]
      invariant forall m :: 0 <= m < genome.Length && (m < i || k <= m) ==> genome[m] == g[m]
    {
      genome[k] := segment[j - k];
    }
    InvertedByPositions(g, genome[..], i, j);
  }

  /** The individual `inversion_mutation` returns for two distinct draws;
      it has the same genes. */
  function InversionOf(ind: Individual, draw1: int, draw2: int): (r: Individual)
    requires WellFormed(ind) && 0 <= draw1 < FieldCount && 0 <= draw2 < FieldCount && draw1 != draw2
    ensures WellFormed(r)
    ensures multiset(r.genome) == multiset(ind.genome)
  {
    var (i, j) := SortedPair(draw1, draw2);
    InvertedKeepsGenes(ind.genome, i, j);
    InvertedPositions(ind.genome, i, j);
    NewIndividual(Inverted(ind.genome, i, j))
  }

  /** `inversion_mutation` with two distinct positions from [0, N), sorted
      into i < j: the copy's slice i..j is overwritten by its own reversal
      (see `InvertedPositions` for what that does position by position). */
  method InversionMutation(ind: Individual, draw1: int, draw2: int) returns (r: Individual)
    requires WellFormed(ind) && 0 <= draw1 < FieldCount && 0 <= draw2 < FieldCount && draw1 != draw2
    ensures r == InversionOf(ind, draw1, draw2)
  {
    var (i, j) := SortedPair(draw1, draw2);
    var genome := CopyGenome(ind.genome);
    InvertSlice(genome, i, j);
    r := NewIndividual(genome[..]);
  }
}
