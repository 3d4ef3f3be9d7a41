/** What Analyze leaves out, and what the special shapes hide (internal/game/yaku/mentsu.go). */
module Coverage {
  import opened Basics
  import opened Tiles
  import opened Decomposition
  import opened Ordering
  import opened Search
  import opened Analysis

  // No set fits into thirteen orphans: a triplet needs three of a kind, a run needs a simple.
  lemma OrphansHaveNoSets(hand: seq<Tile>)
    requires AllCountable(hand) && |hand| == 14 && Orphans(Tally(hand))
    ensures !Standard(Tally(hand), 4) && !AllPairs(Tally(hand))
  {
    var c := Tally(hand);
    OrphanCounts(hand);
    assert TerminalKind(0) && TerminalKind(8) && (c[0] != 2 || c[8] != 2);
    if Standard(c, 4) {
      var p: nat :| PairAndSets(c, p, 4);
      var d := TakePair(c, p);
      var bs: seq<Block> :| |bs| == 4 && Partition(d, bs);
      TakeOut(d, bs, 0);
      NoBlockFits(d, bs[0]);
    }
  }

  lemma NoBlockFits(d: Counts, b: Block)
    requires forall i | 0 <= i < KINDS :: d[i] <= 2 && (!TerminalKind(i) ==> d[i] == 0)
    ensures !Fits(d, b)
  {
    if IsBlock(b) && b.Run? {
      assert !TerminalKind(b.low + 1);
    }
  }

  // Fourteen tiles over the thirteen orphan kinds: at most one kind is doubled.
  lemma OrphanCounts(hand: seq<Tile>)
    requires AllCountable(hand) && |hand| == 14 && Orphans(Tally(hand))
    ensures forall i | 0 <= i < KINDS :: Tally(hand)[i] <= 2
    ensures Tally(hand)[0] + Tally(hand)[8] <= 3
  {
    var c := Tally(hand);
    SumTally(hand);
    ThirteenTerminals();
    assert c[..KINDS] == c;
    forall i | 0 <= i < KINDS
      ensures c[i] <= 2
    {
      OrphansAtLeast(c, 0, i);
      OrphansAtLeast(c, i + 1, KINDS);
      assert c[..i + 1][..i] == c[..i];
    }
    OrphansAtLeast(c, 0, 0);
    OrphansAtLeast(c, 1, 8);
    OrphansAtLeast(c, 9, KINDS);
    assert c[..1][..0] == c[..0] && c[..9][..8] == c[..8];
  }

  // ---------- Seven pairs in standard form ----------

  // Two runs, each twice, and a pair.
  predicate DoubledRuns(c: Counts, p: nat, i: nat, j: nat)
  {
    && p < KINDS && RunStart(i) && RunStart(j)
    && forall k | 0 <= k < KINDS :: c[k] == 2 * Uses(Run(i), k) + 2 * Uses(Run(j), k) + if k == p then 2 else 0
  }

  // In counts of zeros and twos the lowest kind starts two copies of one run.
  lemma PairsStartDoubledRun(d: Counts, q: seq<Block>) returns (e: Counts)
    requires AllPairs(d) && OrderedPartition(d, q) && |q| >= 1
    ensures |q| >= 2 && q[0] == q[1] == Run(Lowest(d)) && RunStart(Lowest(d))
    ensures AllPairs(e) && OrderedPartition(e, q[2..])
    ensures forall k | 0 <= k < KINDS :: d[k] == e[k] + 2 * Uses(q[0], k)
  {
    OrderedHead(d, q);
    var i := Lowest(d);
    var d1 := Take(d, Run(i));
    assert d1[i] == 1;
    EmptyPartition(d1, q[1..]);
    OrderedHead(d1, q[1..]);
    assert Lowest(d1) == i;
    e := Take(d1, Run(i));
    assert q[1..][1..] == q[2..];
    assert forall k | 0 <= k < KINDS :: d[k] == e[k] + 2 * Uses(Run(i), k);
  }

  lemma DoubledRunsStandard(c: Counts, p: nat, i: nat, j: nat)
    requires DoubledRuns(c, p, i, j)
    ensures Standard(c, 4)
  {
    var bs := [Run(i), Run(i), Run(j), Run(j)];
    var d := TakePair(c, p);
    forall k | 0 <= k < KINDS
      ensures Covered(bs, k) == d[k]
    {
      assert bs == [Run(i)] + ([Run(i)] + ([Run(j)] + [Run(j)]));
      CoveredAppend([Run(i)], [Run(i)] + ([Run(j)] + [Run(j)]), k);
      CoveredAppend([Run(i)], [Run(j)] + [Run(j)], k);
      CoveredAppend([Run(j)], [Run(j)], k);
    }
    assert Partition(d, bs);
    assert PairAndSets(c, p, 4);
  }

  lemma StandardDoubledRuns(c: Counts) returns (p: nat, i: nat, j: nat)
    requires AllPairs(c) && Standard(c, 4)
    ensures DoubledRuns(c, p, i, j)
  {
    p :| PairAndSets(c, p, 4);
    var d := TakePair(c, p);
    var bs: seq<Block> :| |bs| == 4 && Partition(d, bs);
    var q := Arrange(d, bs);
    assert |multiset(q)| == |q| && |multiset(bs)| == |bs|;
    var e := PairsStartDoubledRun(d, q);
    var f := PairsStartDoubledRun(e, q[2..]);
    EmptyPartition(f, q[2..][2..]);
    i, j := q[0].low, q[2].low;
  }

  // Seven pairs split in standard form exactly when they are two doubled runs and a pair.
  lemma SevenPairsStandard(hand: seq<Tile>)
    requires AllCountable(hand) && AllPairs(Tally(hand))
    ensures Standard(Tally(hand), 4) <==> exists p, i, j :: DoubledRuns(Tally(hand), p, i, j)
  {
    var c := Tally(hand);
    if Standard(c, 4) {
      var p, i, j := StandardDoubledRuns(c);
    }
    if exists p, i, j :: DoubledRuns(c, p, i, j) {
      var p: nat, i: nat, j: nat :| DoubledRuns(c, p, i, j);
      DoubledRunsStandard(c, p, i, j);
    }
  }

  // ---------- Does Analyze list every decomposition? ----------

  // A decomposition of the hand, its sets listed in the search's order.
  ghost predicate Decomposes(hand: seq<Tile>, open: seq<Mentsu>, p: nat, bs: seq<Block>)
    requires AllCountable(hand)
  {
    && p < KINDS && Tally(hand)[p] >= 2
    && OrderedPartition(TakePair(Tally(hand), p), bs) && |bs| == 4 - |open|
  }

  ghost predicate ListsEvery(hand: seq<Tile>, open: seq<Mentsu>)
    requires AllCountable(hand)
  {
    forall p, bs | Decomposes(hand, open, p, bs) :: Result(TileAt(p), open + Melds(bs)) in Decompositions(hand, open)
  }

  // With some pair set aside, three copies of one run leave a remainder that still splits.
  ghost predicate Ambiguous(c: Counts, need: int)
  {
    exists p :: 0 <= p < KINDS && c[p] >= 2 && Swappable(TakePair(c, p), need)
  }

  lemma TileAtInjective(i: nat, j: nat)
    requires i < KINDS && j < KINDS && TileAt(i) == TileAt(j)
    ensures i == j
  {
    IndexOfTileAt(i);
    IndexOfTileAt(j);
  }

  lemma MeldsInjective(open: seq<Mentsu>, p: seq<Block>, q: seq<Block>)
    requires AreBlocks(p) && AreBlocks(q) && open + Melds(p) == open + Melds(q)
    ensures p == q
  {
    var ms, ns := open + Melds(p), open + Melds(q);
    assert |p| == |q| by {
      assert |ms| == |open| + |p| && |ns| == |open| + |q|;
    }
    forall n | 0 <= n < |p|
      ensures p[n] == q[n]
    {
      assert ms[|open| + n] == MeldOf(p[n]) && ns[|open| + n] == MeldOf(q[n]);
      TileAtInjective(p[n].low, q[n].low);
    }
  }

  // The one listed decomposition with a given pair is the search's.
  lemma ListedIsFirst(hand: seq<Tile>, open: seq<Mentsu>, p: nat, bs: seq<Block>)
    requires AllCountable(hand) && Decomposes(hand, open, p, bs)
    requires |hand| == 14 - 3 * |open| && !(open == [] && (Orphans(Tally(hand)) || AllPairs(Tally(hand))))
    ensures Result(TileAt(p), open + Melds(bs)) in Decompositions(hand, open) <==> FirstSplit(TakePair(Tally(hand), p), 4 - |open|) == Some(bs)
  {
    var c, need := Tally(hand), 4 - |open|;
    var r := Result(TileAt(p), open + Melds(bs));
    if r in Decompositions(hand, open) {
      var o := ListedOrigin(c, open, KINDS, r);
      TileAtInjective(o, p);
      AnswersAreBlocks(TakePair(c, p), need);
      MeldsInjective(open, bs, FirstSplit(TakePair(c, p), need).value);
    }
    if FirstSplit(TakePair(c, p), need) == Some(bs) {
      FeasibleListed(c, open, KINDS, p);
      assert r == ResultFor(c, p, open);
    }
  }

  lemma AmbiguousMisses(hand: seq<Tile>, open: seq<Mentsu>)
    requires AllCountable(hand) && Ambiguous(Tally(hand), 4 - |open|)
    requires |hand| == 14 - 3 * |open| && !(open == [] && (Orphans(Tally(hand)) || AllPairs(Tally(hand))))
    ensures !ListsEvery(hand, open)
  {
    var c, need := Tally(hand), 4 - |open|;
    var p :| 0 <= p < KINDS && c[p] >= 2 && Swappable(TakePair(c, p), need);
    var x, y := SwapGivesTwo(TakePair(c, p), need);
    assert Decomposes(hand, open, p, x) && Decomposes(hand, open, p, y);
    ListedIsFirst(hand, open, p, x);
    ListedIsFirst(hand, open, p, y);
  }

  lemma UnambiguousListed(hand: seq<Tile>, open: seq<Mentsu>, p: nat, bs: seq<Block>)
    requires AllCountable(hand) && Decomposes(hand, open, p, bs)
    requires !Swappable(TakePair(Tally(hand), p), 4 - |open|)
    requires |hand| == 14 - 3 * |open| && !(open == [] && (Orphans(Tally(hand)) || AllPairs(Tally(hand))))
    ensures Result(TileAt(p), open + Melds(bs)) in Decompositions(hand, open)
  {
    var d, need := TakePair(Tally(hand), p), 4 - |open|;
    FirstSplitComplete(d, bs);
    var first := FirstSplit(d, need).value;
    FirstSplitSound(d, need, first);
    FirstSplitOrdered(d, need, first);
    UniqueUnlessSwappable(d, need);
    ListedIsFirst(hand, open, p, bs);
  }

  lemma UnambiguousLists(hand: seq<Tile>, open: seq<Mentsu>)
    requires AllCountable(hand) && !Ambiguous(Tally(hand), 4 - |open|)
    requires |hand| == 14 - 3 * |open| && !(open == [] && (Orphans(Tally(hand)) || AllPairs(Tally(hand))))
    ensures ListsEvery(hand, open)
  {
    forall p, bs | Decomposes(hand, open, p, bs)
      ensures Result(TileAt(p), open + Melds(bs)) in Decompositions(hand, open)
    {
      UnambiguousListed(hand, open, p, bs);
    }
  }

  // The comment "enumerates every valid decomposition" holds exactly of the hands that are not
  // ambiguous and not seven pairs made of two doubled runs and a pair.
  lemma ListsEveryExactly(hand: seq<Tile>, open: seq<Mentsu>)
    requires AllCountable(hand) && |hand| == 14 - 3 * |open|
    ensures ListsEvery(hand, open) <==>
      && !Ambiguous(Tally(hand), 4 - |open|)
      && !(open == [] && AllPairs(Tally(hand)) && exists p, i, j :: DoubledRuns(Tally(hand), p, i, j))
  {
    var c, need := Tally(hand), 4 - |open|;
    if open == [] && (Orphans(c) || AllPairs(c)) {
      if Orphans(c) { OrphansHaveNoSets(hand); }
      if AllPairs(c) { SevenPairsStandard(hand); }
      SpecialHides(hand);
    } else if Ambiguous(c, need) {
      AmbiguousMisses(hand, open);
    } else {
      UnambiguousLists(hand, open);
      if AllPairs(c) && open == [] { assert false; }
    }
  }

  // A special result lists a decomposition only when there is none to list.
  lemma SpecialHides(hand: seq<Tile>)
    requires AllCountable(hand) && |hand| == 14 && (Orphans(Tally(hand)) || AllPairs(Tally(hand)))
    ensures ListsEvery(hand, []) <==> !Standard(Tally(hand), 4)
    ensures Ambiguous(Tally(hand), 4) ==> Standard(Tally(hand), 4)
  {
    var c := Tally(hand);
    if Standard(c, 4) {
      var p: nat :| PairAndSets(c, p, 4);
      var bs: seq<Block> :| |bs| == 4 && Partition(TakePair(c, p), bs);
      var q := Arrange(TakePair(c, p), bs);
      assert |multiset(q)| == |q| && |multiset(bs)| == |bs|;
      assert Decomposes(hand, [], p, q);
      assert TileAt(p) != "" && Decompositions(hand, []) == [SPECIAL];
    } else {
      forall p, bs
        ensures Decomposes(hand, [], p, bs) ==> Standard(c, 4)
      {
        if Decomposes(hand, [], p, bs) {
          assert PairAndSets(c, p, 4);
        }
      }
    }
    if Ambiguous(c, 4) {
      var p :| 0 <= p < KINDS && c[p] >= 2 && Swappable(TakePair(c, p), 4);
      var x, y := SwapGivesTwo(TakePair(c, p), 4);
      assert PairAndSets(c, p, 4);
    }
  }
}
