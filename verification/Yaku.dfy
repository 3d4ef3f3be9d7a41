/** Yaku that scan a decomposition (internal/game/yaku/yaku.go). */
module Yaku {
  import opened Basics
  import opened Tiles
  import opened Decomposition
  import opened Ordering
  import opened Search
  import opened Analysis
  import opened Coverage
  import opened Score

  predicate Tanyao(r: Result)
    requires HasTiles(r)
  {
    && !IsHonor(r.pair) && !IsTerminal(r.pair)
    && forall m | m in r.melds ::
         && !IsHonor(m.tile) && !IsTerminal(m.tile)
         && !(m.shuntsu && (Rank(m.tile) == 1 || Rank(m.tile) == 7))
  }

  predicate EdgeTile(t: Tile, jun: bool)
    requires |t| > 0
  {
    if jun then !IsHonor(t) && IsTerminal(t) else IsTerminal(t) || IsHonor(t)
  }

  predicate Chanta(r: Result, jun: bool)
    requires HasTiles(r)
  {
    && !(jun && IsHonor(r.pair))
    && EdgeTile(r.pair, jun)
    && forall m | m in r.melds :: if m.shuntsu then Rank(m.tile) == 1 || Rank(m.tile) == 7 else EdgeTile(m.tile, jun)
  }

  function DragonOf(m: Mentsu): seq<string>
    requires |m.tile| > 0
  {
    if m.shuntsu || !IsHonor(m.tile) then []
    else if m.tile == "5z" then ["haku"] else if m.tile == "6z" then ["hatsu"] else if m.tile == "7z" then ["chun"] else []
  }

  // Seat and round wind once each, so a double wind twice.
  function WindsOf(m: Mentsu, c: Ctx): seq<string>
    requires |m.tile| > 0 && c.seatWind < 9 && c.roundWind < 9
  {
    if m.shuntsu || !IsHonor(m.tile) then []
    else
      (if m.tile == WindTile(c.seatWind) then ["yakuhaiSeat"] else [])
      + (if m.tile == WindTile(c.roundWind) then ["yakuhaiRound"] else [])
  }

  predicate FourConcealedTriplets(r: Result)
  {
    |r.melds| == 4 && forall m | m in r.melds :: !m.shuntsu && !m.open
  }

  // ---------- All simples ----------

  // Every tile of a meld, read off the kinds it covers, is a simple.
  predicate SimpleKind(k: nat)
  {
    k < 27 && !TerminalKind(k)
  }

  predicate ShapedMeld(m: Mentsu)
  {
    Canonical(m.tile) && (m.shuntsu ==> RunStart(Index(m.tile)))
  }

  predicate AllSimple(m: Mentsu)
    requires ShapedMeld(m)
  {
    TileAtOfIndex(m.tile);
    var i: nat := Index(m.tile);
    if m.shuntsu then SimpleKind(i) && SimpleKind(i + 1) && SimpleKind(i + 2) else SimpleKind(i)
  }

  // The test tanyao applies to one meld.
  predicate PassesTanyao(m: Mentsu)
    requires |m.tile| > 0
  {
    !IsHonor(m.tile) && !IsTerminal(m.tile) && !(m.shuntsu && (Rank(m.tile) == 1 || Rank(m.tile) == 7))
  }

  lemma SimpleIndex(t: Tile)
    requires Canonical(t)
    ensures Countable(t) && Slot(t) == Index(t) && (IsSimple(t) <==> SimpleKind(Index(t)))
    ensures Index(t) < 27 ==> Rank(t) == Index(t) % 9 + 1
    ensures IsHonor(t) <==> Index(t) >= 27
  {
    TileAtOfIndex(t);
  }

  // Looking at a run's low tile only is enough: rank one or seven is where a terminal sits.
  lemma PassesIffAllSimple(m: Mentsu)
    requires ShapedMeld(m)
    ensures PassesTanyao(m) <==> AllSimple(m)
  {
    SimpleIndex(m.tile);
  }

  lemma {:induction false} HeldWitness(hand: seq<Tile>, k: nat) returns (n: nat)
    requires AllCountable(hand) && Held(hand, k) > 0
    ensures n < |hand| && Slot(hand[n]) == k
  {
    n := |hand| - 1;
    if Slot(hand[n]) != k {
      n := HeldWitness(hand[..n], k);
    }
  }

  lemma {:induction false} HeldPositive(hand: seq<Tile>, n: nat)
    requires AllCountable(hand) && n < |hand|
    ensures Slot(hand[n]) >= 0 && Held(hand, Slot(hand[n])) > 0
  {
    if n < |hand| - 1 {
      HeldPositive(hand[..|hand| - 1], n);
    }
  }

  predicate SimpleCounts(c: Counts)
  {
    forall k | 0 <= k < KINDS && c[k] > 0 :: SimpleKind(k)
  }

  predicate CanonicalHand(hand: seq<Tile>)
  {
    forall n | 0 <= n < |hand| :: Canonical(hand[n])
  }

  lemma CanonicalCountable(hand: seq<Tile>)
    requires CanonicalHand(hand)
    ensures AllCountable(hand)
  {
    forall n | 0 <= n < |hand| ensures Countable(hand[n]) { SimpleIndex(hand[n]); }
  }

  lemma SimpleHand(hand: seq<Tile>)
    requires CanonicalHand(hand)
    ensures AllCountable(hand)
    ensures SimpleCounts(Tally(hand)) <==> forall n | 0 <= n < |hand| :: IsSimple(hand[n])
  {
    CanonicalCountable(hand);
    if SimpleCounts(Tally(hand)) {
      forall n | 0 <= n < |hand|
        ensures IsSimple(hand[n])
      {
        SimpleIndex(hand[n]);
        HeldPositive(hand, n);
      }
    }
    if forall n | 0 <= n < |hand| :: IsSimple(hand[n]) {
      forall k | 0 <= k < KINDS && Tally(hand)[k] > 0
        ensures SimpleKind(k)
      {
        var n := HeldWitness(hand, k);
        SimpleIndex(hand[n]);
      }
    }
  }

  // A block of simples, told from its low tile.
  lemma BlockPasses(b: Block)
    requires IsBlock(b)
    ensures |MeldOf(b).tile| > 0
    ensures PassesTanyao(MeldOf(b)) <==> forall k | 0 <= k < KINDS && Uses(b, k) > 0 :: SimpleKind(k)
  {
    IndexOfTileAt(b.low);
    PassesIffAllSimple(MeldOf(b));
    assert Uses(b, b.low) > 0 && (b.Run? ==> Uses(b, b.low + 1) > 0 && Uses(b, b.low + 2) > 0);
  }

  lemma PartitionSimple(c: Counts, bs: seq<Block>)
    requires Partition(c, bs)
    ensures SimpleCounts(c) <==> forall n | 0 <= n < |bs| :: PassesTanyao(MeldOf(bs[n]))
  {
    forall n | 0 <= n < |bs|
      ensures SimpleCounts(c) ==> PassesTanyao(MeldOf(bs[n]))
    {
      TakeOut(c, bs, n);
      BlockPasses(bs[n]);
    }
    if forall n | 0 <= n < |bs| :: PassesTanyao(MeldOf(bs[n])) {
      forall k | 0 <= k < KINDS && c[k] > 0
        ensures SimpleKind(k)
      {
        var n := CoveredBy(bs, k);
        BlockPasses(bs[n]);
      }
    }
  }

  lemma ResultHasTiles(open: seq<Mentsu>, p: nat, bs: seq<Block>)
    requires p < KINDS && AreBlocks(bs) && forall m | m in open :: ShapedMeld(m)
    ensures HasTiles(Result(TileAt(p), open + Melds(bs)))
  {
    IndexOfTileAt(p);
    forall n | 0 <= n < |bs| ensures |MeldOf(bs[n]).tile| > 0 { IndexOfTileAt(bs[n].low); }
  }

  // Tanyao on any standard result of Analyze says that every tile of the hand and of the open
  // melds is a simple, so it cannot depend on the decomposition that was picked.
  lemma TanyaoMeansAllSimples(hand: seq<Tile>, open: seq<Mentsu>, r: Result)
    requires CanonicalHand(hand) && forall m | m in open :: ShapedMeld(m)
    requires AllCountable(hand) && r in Decompositions(hand, open) && r != SPECIAL
    ensures HasTiles(r)
    ensures Tanyao(r) <==> (forall n | 0 <= n < |hand| :: IsSimple(hand[n])) && forall m | m in open :: AllSimple(m)
  {
    var c := Tally(hand);
    var p, bs := AnalysisSound(hand, open, r);
    var d := TakePair(c, p);
    ResultHasTiles(open, p, bs);
    SimpleHand(hand);
    IndexOfTileAt(p);
    SimpleIndex(TileAt(p));
    PartitionSimple(d, bs);
    assert SimpleCounts(c) <==> SimpleKind(p) && SimpleCounts(d) by {
      assert c[p] > 0 && forall k | 0 <= k < KINDS && k != p :: c[k] == d[k];
    }
    forall m | m in open ensures PassesTanyao(m) <==> AllSimple(m) { PassesIffAllSimple(m); }
    MeldsPass(open, bs);
  }

  lemma MeldsPass(open: seq<Mentsu>, bs: seq<Block>)
    requires AreBlocks(bs) && forall m | m in open + Melds(bs) :: |m.tile| > 0
    ensures (forall m | m in open + Melds(bs) :: PassesTanyao(m)) <==>
      (forall m | m in open :: PassesTanyao(m)) && forall n | 0 <= n < |bs| :: |MeldOf(bs[n]).tile| > 0 && PassesTanyao(MeldOf(bs[n]))
  {
    assert forall m :: m in open + Melds(bs) <==> m in open || m in Melds(bs);
    forall n | 0 <= n < |bs| ensures MeldOf(bs[n]) in Melds(bs) { assert Melds(bs)[n] == MeldOf(bs[n]); }
    forall m | m in Melds(bs)
      ensures exists n :: 0 <= n < |bs| && m == MeldOf(bs[n])
    {
      var x :| 0 <= x < |bs| && Melds(bs)[x] == m;
    }
  }

  lemma TanyaoSameForAll(hand: seq<Tile>, open: seq<Mentsu>, r: Result, s: Result)
    requires CanonicalHand(hand) && forall m | m in open :: ShapedMeld(m)
    requires AllCountable(hand) && r in Decompositions(hand, open) && s in Decompositions(hand, open)
    requires r != SPECIAL && s != SPECIAL
    ensures HasTiles(r) && HasTiles(s) && (Tanyao(r) <==> Tanyao(s))
  {
    TanyaoMeansAllSimples(hand, open, r);
    TanyaoMeansAllSimples(hand, open, s);
  }

  // All simples excludes both edge yaku and every value tile.
  lemma TanyaoExcludes(r: Result, c: Ctx)
    requires HasTiles(r) && Tanyao(r) && c.seatWind < 9 && c.roundWind < 9
    ensures !Chanta(r, false) && !Chanta(r, true)
    ensures forall m | m in r.melds :: DragonOf(m) == WindsOf(m, c) == []
  {
  }

  // ---------- Four concealed triplets ----------

  predicate OnlyTriplets(bs: seq<Block>)
  {
    forall n | 0 <= n < |bs| :: bs[n].Triplet?
  }

  ghost predicate HasThreeRuns(d: Counts)
  {
    exists i :: ThreeRuns(d, i)
  }

  lemma DropTriplet(c: Counts, bs: seq<Block>, k: nat) returns (j: nat)
    requires Partition(c, bs) && OnlyTriplets(bs) && k < KINDS && c[k] > 0
    ensures j < |bs| && bs[j] == Triplet(k) && Fits(c, bs[j])
    ensures Partition(Take(c, bs[j]), Without(bs, j)) && OnlyTriplets(Without(bs, j))
  {
    j := CoveredBy(bs, k);
    TakeOut(c, bs, j);
  }

  lemma ThreeTripletsSwap(c: Counts, bs: seq<Block>, i: nat)
    requires Partition(c, bs) && OnlyTriplets(bs) && ThreeRuns(c, i)
    ensures Swappable(c, |bs|)
  {
    var j := DropTriplet(c, bs, i);
    var c1, b1 := Take(c, bs[j]), Without(bs, j);
    j := DropTriplet(c1, b1, i + 1);
    var c2, b2 := Take(c1, b1[j]), Without(b1, j);
    j := DropTriplet(c2, b2, i + 2);
    assert Take(c2, b2[j]) == TakeThreeRuns(c, i);
    assert Partition(TakeThreeRuns(c, i), Without(b2, j));
  }

  lemma TripletsNotSpecial(hand: seq<Tile>, p: nat, bs: seq<Block>)
    requires AllCountable(hand) && |hand| == 14 && Decomposes(hand, [], p, bs) && OnlyTriplets(bs)
    ensures !Orphans(Tally(hand)) && !AllPairs(Tally(hand))
  {
    TakeOut(TakePair(Tally(hand), p), bs, 0);
    assert Tally(hand)[bs[0].low] >= 3;
    if Orphans(Tally(hand)) { OrphanCounts(hand); }
  }

  lemma RunsWin(d: Counts, bs: seq<Block>)
    requires OrderedPartition(d, bs) && OnlyTriplets(bs) && Swappable(d, |bs|)
    ensures FirstSplit(d, |bs|) != Some(bs)
  {
    var x, y := SwapGivesTwo(d, |bs|);
    if FirstSplit(d, |bs|) == Some(bs) {
      FirstSplitRunsFirst(d, bs, if x == bs then y else x);
    }
  }

  lemma TripletsWin(d: Counts, bs: seq<Block>)
    requires OrderedPartition(d, bs) && !HasThreeRuns(d)
    ensures FirstSplit(d, |bs|) == Some(bs)
  {
    FirstSplitComplete(d, bs);
    var first := FirstSplit(d, |bs|).value;
    FirstSplitSound(d, |bs|, first);
    FirstSplitOrdered(d, |bs|, first);
    if first != bs {
      var i, rest := DistinctSwappable(d, first, bs);
    }
  }

  lemma SearchFindsTriplets(d: Counts, bs: seq<Block>)
    requires OrderedPartition(d, bs) && OnlyTriplets(bs)
    ensures FirstSplit(d, |bs|) == Some(bs) <==> !HasThreeRuns(d)
  {
    if HasThreeRuns(d) {
      var i: nat :| ThreeRuns(d, i);
      ThreeTripletsSwap(d, bs, i);
      RunsWin(d, bs);
    } else {
      TripletsWin(d, bs);
    }
  }

  lemma TripletsConcealed(hand: seq<Tile>, p: nat, bs: seq<Block>)
    requires AllCountable(hand) && Decomposes(hand, [], p, bs)
    ensures FourConcealedTriplets(Result(TileAt(p), Melds(bs))) <==> OnlyTriplets(bs)
  {
    var ms := Melds(bs);
    forall n | 0 <= n < |bs|
      ensures ms[n] == MeldOf(bs[n]) && ms[n] in ms
    {
    }
  }

  // A hand of concealed triplets and a pair is listed as such exactly when no three of the
  // triplets are consecutive in a suit: then the search answers with three equal runs instead.
  lemma TripletsListed(hand: seq<Tile>, open: seq<Mentsu>, p: nat, bs: seq<Block>)
    requires AllCountable(hand) && |hand| == 14 - 3 * |open|
    requires Decomposes(hand, open, p, bs) && OnlyTriplets(bs)
    ensures Result(TileAt(p), open + Melds(bs)) in Decompositions(hand, open) <==> !HasThreeRuns(TakePair(Tally(hand), p))
  {
    if open == [] {
      TripletsNotSpecial(hand, p, bs);
    }
    ListedIsFirst(hand, open, p, bs);
    SearchFindsTriplets(TakePair(Tally(hand), p), bs);
  }
}
