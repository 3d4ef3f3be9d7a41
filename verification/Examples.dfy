/** Hands on which the program falls short of what its comments promise. */
module Examples {
  import opened Basics
  import opened Tiles
  import opened Decomposition
  import opened Ordering
  import opened Search
  import opened Analysis
  import opened Coverage
  import opened Score
  import opened Table
  import opened Tenpai
  import opened Yaku
  import opened Flush
  import opened Fans
  import opened Dora
  import opened WinCheck
  import opened Suuankou
  import opened Pricing
  import TurnSpec
  import opened Bots

  // ---------- Hands by groups ----------

  // n copies of each kind from slot lo to slot hi: Each(0, 2, 3) is 111222333m, Each(33, 33, 2) 77z.
  function Each(lo: nat, hi: nat, n: nat): seq<Tile>
    requires hi < KINDS
    decreases hi + 1 - lo
  {
    if lo > hi then [] else Copies(TileAt(lo), n) + Each(lo + 1, hi, n)
  }

  lemma {:induction false} CopiesAre(t: Tile, n: nat)
    ensures |Copies(t, n)| == n && forall i | 0 <= i < n :: Copies(t, n)[i] == t
  {
    if n > 0 {
      CopiesAre(t, n - 1);
    }
  }

  predicate Proper(hand: seq<Tile>)
  {
    CanonicalHand(hand) && AllCountable(hand)
  }

  lemma ProperJoined(a: seq<Tile>, b: seq<Tile>)
    requires Proper(a) && Proper(b)
    ensures Proper(a + b)
  {
  }

  lemma {:induction false} EachProper(lo: nat, hi: nat, n: nat)
    requires hi < KINDS
    ensures Proper(Each(lo, hi, n))
    decreases hi + 1 - lo
  {
    if lo <= hi {
      EachProper(lo + 1, hi, n);
      CopiesAre(TileAt(lo), n);
      IndexOfTileAt(lo);
      ProperJoined(Copies(TileAt(lo), n), Each(lo + 1, hi, n));
    }
  }

  lemma {:induction false} EachHeld(lo: nat, hi: nat, n: nat, k: nat)
    requires hi < KINDS
    ensures Proper(Each(lo, hi, n)) && Held(Each(lo, hi, n), k) == if lo <= k <= hi then n else 0
    decreases hi + 1 - lo
  {
    EachProper(lo, hi, n);
    if lo <= hi {
      var rest := Each(lo + 1, hi, n);
      EachHeld(lo + 1, hi, n, k);
      CopiesThen(lo, n, rest, k);
    }
  }

  lemma CopiesThen(i: nat, n: nat, rest: seq<Tile>, k: nat)
    requires i < KINDS && AllCountable(rest)
    ensures AllCountable(Copies(TileAt(i), n) + rest)
    ensures Held(Copies(TileAt(i), n) + rest, k) == (if k == i then n else 0) + Held(rest, k)
  {
    HeldCopies(i, n, k);
    HeldAppend(Copies(TileAt(i), n), rest, k);
  }

  lemma {:induction false} EachLength(lo: nat, hi: nat, n: nat)
    requires lo <= hi < KINDS
    ensures |Each(lo, hi, n)| == n * (hi + 1 - lo)
    decreases hi + 1 - lo
  {
    CopiesAre(TileAt(lo), n);
    if lo < hi {
      EachLength(lo + 1, hi, n);
      assert n * (hi + 1 - lo) == n + n * (hi - lo);
    }
  }

  // From groups to a tally: each group adds its copies to the hand before it.
  lemma WithGroup(hand: seq<Tile>, lo: nat, hi: nat, n: nat)
    requires Proper(hand) && lo <= hi < KINDS
    ensures Proper(hand + Each(lo, hi, n)) && |hand + Each(lo, hi, n)| == |hand| + n * (hi + 1 - lo)
    ensures forall k | 0 <= k < KINDS :: Tally(hand + Each(lo, hi, n))[k] == Tally(hand)[k] + if lo <= k <= hi then n else 0
  {
    EachLength(lo, hi, n);
    EachHeld(lo, hi, n, 0);
    forall k | 0 <= k < KINDS
      ensures AllCountable(hand + Each(lo, hi, n))
      ensures Held(hand + Each(lo, hi, n), k) == Held(hand, k) + if lo <= k <= hi then n else 0
    {
      EachHeld(lo, hi, n, k);
      HeldAppend(hand, Each(lo, hi, n), k);
    }
  }

  lemma OneGroup(lo: nat, hi: nat, n: nat)
    requires lo <= hi < KINDS
    ensures Proper(Each(lo, hi, n)) && |Each(lo, hi, n)| == n * (hi + 1 - lo)
    ensures forall k | 0 <= k < KINDS :: Tally(Each(lo, hi, n))[k] == if lo <= k <= hi then n else 0
  {
    WithGroup([], lo, hi, n);
    assert [] + Each(lo, hi, n) == Each(lo, hi, n);
  }

  lemma FourCovered(bs: seq<Block>, k: nat)
    requires |bs| == 4
    ensures Covered(bs, k) == Uses(bs[0], k) + Uses(bs[1], k) + Uses(bs[2], k) + Uses(bs[3], k)
  {
    var b3, b2, b1 := bs[1..], bs[1..][1..], bs[1..][1..][1..];
    assert Covered(b1, k) == Uses(b1[0], k) + Covered(b1[1..], k);
    assert Covered(b2, k) == Uses(b2[0], k) + Covered(b1, k);
    assert Covered(b3, k) == Uses(b3[0], k) + Covered(b2, k);
  }

  // Four sets and a pair that use up the counts are a partition.
  lemma FourSets(c: Counts, p: nat, bs: seq<Block>)
    requires p < KINDS && c[p] >= 2 && |bs| == 4 && AreBlocks(bs)
    requires forall k | 0 <= k < KINDS ::
      c[k] == Uses(bs[0], k) + Uses(bs[1], k) + Uses(bs[2], k) + Uses(bs[3], k) + if k == p then 2 else 0
    ensures Partition(TakePair(c, p), bs)
  {
    forall k | 0 <= k < KINDS
      ensures Covered(bs, k) == TakePair(c, p)[k]
    {
      FourCovered(bs, k);
    }
  }

  // ---------- What Analyze leaves out ----------

  function ThreeRunsCount(k: nat): nat
  {
    if k <= 2 then 3 else if 9 <= k <= 11 then 1 else if k == 33 then 2 else 0
  }

  // 111222333m 123p 77z is three equal runs, a run and a pair, and is listed so; it is also three
  // triplets, a run and a pair, which is a decomposition and is not listed.
  lemma ThreeEqualRunsHideTriplets(hand: seq<Tile>, runs: seq<Block>, triplets: seq<Block>)
    requires hand == Each(0, 2, 3) + Each(9, 11, 1) + Each(33, 33, 2)
    requires runs == [Run(0), Run(0), Run(0), Run(9)] && triplets == [Triplet(0), Triplet(1), Triplet(2), Run(9)]
    ensures AllCountable(hand) && Decomposes(hand, [], 33, runs) && Decomposes(hand, [], 33, triplets)
    ensures Result(TileAt(33), [] + Melds(triplets)) !in Decompositions(hand, []) && !ListsEvery(hand, [])
  {
    ThreeRunsTally(hand);
    TwoSplits(hand, [], 33, runs, triplets);
    HiddenTriplets(hand, [], 33, runs, triplets);
  }

  lemma ThreeRunsTally(hand: seq<Tile>)
    requires hand == Each(0, 2, 3) + Each(9, 11, 1) + Each(33, 33, 2)
    ensures Proper(hand) && |hand| == 14 && forall k | 0 <= k < KINDS :: Tally(hand)[k] == ThreeRunsCount(k)
  {
    OneGroup(0, 2, 3);
    WithGroup(Each(0, 2, 3), 9, 11, 1);
    WithGroup(Each(0, 2, 3) + Each(9, 11, 1), 33, 33, 2);
  }

  lemma TwoSplits(hand: seq<Tile>, open: seq<Mentsu>, p: nat, runs: seq<Block>, triplets: seq<Block>)
    requires AllCountable(hand) && |hand| == 14 && open == [] && p == 33
    requires forall k | 0 <= k < KINDS :: Tally(hand)[k] == ThreeRunsCount(k)
    requires runs == [Run(0), Run(0), Run(0), Run(9)] && triplets == [Triplet(0), Triplet(1), Triplet(2), Run(9)]
    ensures Decomposes(hand, open, p, runs) && Decomposes(hand, open, p, triplets)
  {
    FourSets(Tally(hand), p, runs);
    FourSets(Tally(hand), p, triplets);
  }

  lemma HiddenTriplets(hand: seq<Tile>, open: seq<Mentsu>, p: nat, runs: seq<Block>, triplets: seq<Block>)
    requires AllCountable(hand) && |hand| == 14 && open == [] && Tally(hand)[1] == 3
    requires Decomposes(hand, open, p, runs) && Decomposes(hand, open, p, triplets) && runs[0].Run? && triplets[0].Triplet?
    ensures Result(TileAt(p), open + Melds(triplets)) !in Decompositions(hand, open)
  {
    RunsBeforeTriplets(TakePair(Tally(hand), p), runs, triplets);
    ListedIsFirst(hand, open, p, triplets);
  }

  lemma StartsWithTriplet(p: seq<Block>, q: seq<Block>)
    requires |p| == |q| > 0 && p[0].Run? && q[0].Triplet?
    ensures !RunsFirst(q, p)
  {
    assert forall n | 0 < n < |p| :: q[..n][0] == q[0] && p[..n][0] == p[0];
  }

  lemma RunsBeforeTriplets(d: Counts, p: seq<Block>, q: seq<Block>)
    requires OrderedPartition(d, p) && OrderedPartition(d, q) && |p| == |q| > 0 && p[0].Run? && q[0].Triplet?
    ensures FirstSplit(d, |q|) != Some(q)
  {
    StartsWithTriplet(p, q);
    if FirstSplit(d, |q|) == Some(q) {
      FirstSplitRunsFirst(d, q, p);
    }
  }

  lemma SevenPairsTally(hand: seq<Tile>)
    requires hand == Each(0, 5, 2) + Each(33, 33, 2)
    ensures Proper(hand) && |hand| == 14 && forall k | 0 <= k < KINDS :: Tally(hand)[k] == if k <= 5 || k == 33 then 2 else 0
  {
    OneGroup(0, 5, 2);
    WithGroup(Each(0, 5, 2), 33, 33, 2);
  }

  // 112233445566m 77z is seven pairs and is listed as that alone; it is also two doubled runs and
  // a pair. Checking it panics.
  lemma SevenPairsHideStandardForm(hand: seq<Tile>, bs: seq<Block>, seat: nat, tsumo: bool, dora: seq<Indicator>)
    requires hand == Each(0, 5, 2) + Each(33, 33, 2) && bs == [Run(0), Run(0), Run(3), Run(3)]
    ensures AllCountable(hand) && Decomposes(hand, [], 33, bs)
    ensures Decompositions(hand, []) == [SPECIAL] && !ListsEvery(hand, []) && Judge(seat, hand, [], tsumo, dora) == Crash
  {
    SevenPairsTally(hand);
    HiddenStandard(hand, [], 33, bs);
    CrashExactly(seat, hand, [], tsumo, dora);
  }

  lemma HiddenStandard(hand: seq<Tile>, open: seq<Mentsu>, p: nat, bs: seq<Block>)
    requires AllCountable(hand) && |hand| == 14 && open == [] && p == 33 && bs == [Run(0), Run(0), Run(3), Run(3)]
    requires forall k | 0 <= k < KINDS :: Tally(hand)[k] == if k <= 5 || k == 33 then 2 else 0
    ensures Decomposes(hand, open, p, bs) && AllPairs(Tally(hand))
    ensures Decompositions(hand, open) == [SPECIAL] && !ListsEvery(hand, open)
  {
    FourSets(Tally(hand), p, bs);
    assert Decomposes(hand, open, p, bs) && AllPairs(Tally(hand));
    assert TileAt(p) != "";
  }

  // Checking thirteen orphans, 19m 19p 19s 12345677z, panics.
  lemma OrphansPanic(hand: seq<Tile>, seat: nat, tsumo: bool, dora: seq<Indicator>)
    requires hand == Each(0, 0, 1) + Each(8, 9, 1) + Each(17, 18, 1) + Each(26, 32, 1) + Each(33, 33, 2)
    ensures Judge(seat, hand, [], tsumo, dora) == Crash
  {
    OrphansTally(hand);
    CrashExactly(seat, hand, [], tsumo, dora);
  }

  lemma OrphansTally(hand: seq<Tile>)
    requires hand == Each(0, 0, 1) + Each(8, 9, 1) + Each(17, 18, 1) + Each(26, 32, 1) + Each(33, 33, 2)
    ensures Proper(hand) && |hand| == 14 && Orphans(Tally(hand))
  {
    var edges := Each(0, 0, 1) + Each(8, 9, 1) + Each(17, 18, 1);
    EdgesTally(edges);
    EdgesAndHonors(edges, hand);
    OnlyOrphans(Tally(hand));
  }

  lemma EdgesAndHonors(edges: seq<Tile>, hand: seq<Tile>)
    requires Proper(edges) && |edges| == 5 && hand == edges + Each(26, 32, 1) + Each(33, 33, 2)
    requires forall k | 0 <= k < KINDS :: Tally(edges)[k] == if k in {0, 8, 9, 17, 18} then 1 else 0
    ensures Proper(hand) && |hand| == 14
    ensures forall k | 0 <= k < KINDS :: Tally(hand)[k] == if k == 33 then 2 else if TerminalKind(k) then 1 else 0
  {
    WithGroup(edges, 26, 32, 1);
    WithGroup(edges + Each(26, 32, 1), 33, 33, 2);
  }

  lemma OnlyOrphans(c: Counts)
    requires forall k | 0 <= k < KINDS :: c[k] == if k == 33 then 2 else if TerminalKind(k) then 1 else 0
    ensures Orphans(c)
  {
  }

  lemma EdgesTally(edges: seq<Tile>)
    requires edges == Each(0, 0, 1) + Each(8, 9, 1) + Each(17, 18, 1)
    ensures Proper(edges) && |edges| == 5
    ensures forall k | 0 <= k < KINDS :: Tally(edges)[k] == if k in {0, 8, 9, 17, 18} then 1 else 0
  {
    OneGroup(0, 0, 1);
    WithGroup(Each(0, 0, 1), 8, 9, 1);
    WithGroup(Each(0, 0, 1) + Each(8, 9, 1), 17, 18, 1);
  }

  // Thirteen tiles and a blank one: checking them panics too.
  lemma BlankPanics(seat: nat, hand: seq<Tile>, melds: seq<Meld>, tsumo: bool, dora: seq<Indicator>)
    requires |hand| == 13 && melds == []
    ensures Judge(seat, hand + [""], melds, tsumo, dora) == Crash
  {
    BlankAdded(seat, hand, melds, tsumo, dora);
  }

  lemma BlankAdded(seat: nat, hand: seq<Tile>, melds: seq<Meld>, tsumo: bool, dora: seq<Indicator>)
    requires |hand| + 1 == 14 - 3 * |melds|
    ensures Judge(seat, hand + [""], melds, tsumo, dora) == Crash
  {
    assert (hand + [""])[|hand|] == "";
    CrashExactly(seat, hand + [""], melds, tsumo, dora);
  }

  // ---------- Yaku that are missed or wrongly found ----------

  // 111222333m 555p 77z
  predicate IsFourTriplets(hand: seq<Tile>)
  {
    && Proper(hand) && |hand| == 14
    && forall k | 0 <= k < KINDS :: Tally(hand)[k] == if k <= 2 || k == 13 then 3 else if k == 33 then 2 else 0
  }

  // 123456789m 123p and a pair of slot p
  predicate IsFourRuns(hand: seq<Tile>, p: nat)
  {
    && Proper(hand) && |hand| == 14 && 12 <= p < KINDS
    && forall k | 0 <= k < KINDS :: Tally(hand)[k] == if k <= 11 then 1 else if k == p then 2 else 0
  }

  // Such hands there are.
  lemma FourTripletsAndRuns(p: nat)
    requires 12 <= p < KINDS
    ensures IsFourTriplets(Each(0, 2, 3) + Each(13, 13, 3) + Each(33, 33, 2))
    ensures IsFourRuns(Each(0, 8, 1) + Each(9, 11, 1) + Each(p, p, 2), p)
  {
    OneGroup(0, 2, 3);
    WithGroup(Each(0, 2, 3), 13, 13, 3);
    WithGroup(Each(0, 2, 3) + Each(13, 13, 3), 33, 33, 2);
    OneGroup(0, 8, 1);
    WithGroup(Each(0, 8, 1), 9, 11, 1);
    WithGroup(Each(0, 8, 1) + Each(9, 11, 1), p, p, 2);
  }

  // 111222333m 555p 77z, in any order, is four concealed triplets and a pair, and is not scored as
  // that.
  lemma SuuankouMissed(hand: seq<Tile>, bs: seq<Block>, seat: nat, tsumo: bool, dora: seq<Indicator>)
    requires IsFourTriplets(hand) && bs == [Triplet(0), Triplet(1), Triplet(2), Triplet(13)]
    ensures Decomposes(hand, [], 33, bs) && OnlyTriplets(bs)
    ensures var v := Judge(seat, hand, [], tsumo, dora); v.Wins? && !v.yakuman
  {
    TripletsWithRow(hand, 33, bs);
    SuuankouScored(seat, hand, tsumo, dora, 33, bs);
  }

  lemma TripletsWithRow(hand: seq<Tile>, p: nat, bs: seq<Block>)
    requires IsFourTriplets(hand) && p == 33 && bs == [Triplet(0), Triplet(1), Triplet(2), Triplet(13)]
    ensures Decomposes(hand, [], p, bs) && HasThreeRuns(TakePair(Tally(hand), p))
  {
    FourSets(Tally(hand), p, bs);
    assert ThreeRuns(TakePair(Tally(hand), p), 0);
  }

  // Single tiles and one pair: the priced result has that pair and runs only.
  lemma RunsOnly(hand: seq<Tile>, open: seq<Mentsu>, p: nat)
    requires IsFourRuns(hand, p) && open == []
    ensures Standard(Tally(hand), 4) && !AllPairs(Tally(hand)) && Decompositions(hand, open) != []
    ensures Decompositions(hand, open)[0].pair == TileAt(p) && FourRuns(Decompositions(hand, open)[0])
  {
    var c := Tally(hand);
    RunsSplit(c, p, 4 - |open|);
    assert c[0] == 1 && c[1] == 1;
    var q, x := FirstOrigin(hand, open, p);
    AllRuns(TakePair(c, q), x);
    assert open + Melds(x) == Melds(x);
  }

  lemma RunsSplit(c: Counts, p: nat, need: int)
    requires 12 <= p < KINDS && need == 4 && forall k | 0 <= k < KINDS :: c[k] == if k <= 11 then 1 else if k == p then 2 else 0
    ensures PairAndSets(c, p, need) && Feasible(c, p, need)
  {
    FourSets(c, p, [Run(0), Run(3), Run(6), Run(9)]);
    FeasibleDecides(c, p, need);
  }

  lemma AllRuns(d: Counts, x: seq<Block>)
    requires Partition(d, x) && forall k | 0 <= k < KINDS :: d[k] <= 2
    ensures forall n | 0 <= n < |x| :: Melds(x)[n].shuntsu
  {
    forall n | 0 <= n < |x|
      ensures Melds(x)[n].shuntsu
    {
      TakeOut(d, x, n);
    }
  }

  // A closed win with four runs is no yakuman, and its pair alone decides pinfu on a ron.
  lemma RunsPriced(seat: nat, hand: seq<Tile>, melds: seq<Meld>, tsumo: bool, dora: seq<Indicator>, r: Result)
    requires melds == [] && !tsumo && AllCountable(hand) && |hand| == 14 && Standard(Tally(hand), 4) && !AllPairs(Tally(hand))
    requires Decompositions(hand, OpenMelds(melds)) != [] && r == Decompositions(hand, OpenMelds(melds))[0] && FourRuns(r) && r.pair != ""
    ensures var v := Judge(seat, hand, melds, tsumo, dora); v.Wins? && !v.yakuman && ("pinfu" in v.yaku <==> !IsSimple(r.pair))
  {
    WinsExactly(seat, hand, melds, tsumo, dora);
    RunsOrdinary(seat, hand, melds, tsumo, dora, r);
    PinfuExactly(seat, hand, melds, tsumo, dora);
  }

  lemma RunsOrdinary(seat: nat, hand: seq<Tile>, melds: seq<Meld>, tsumo: bool, dora: seq<Indicator>, r: Result)
    requires Judge(seat, hand, melds, tsumo, dora).Wins?
    requires Decompositions(hand, OpenMelds(melds)) != [] && r == Decompositions(hand, OpenMelds(melds))[0] && FourRuns(r)
    ensures !Judge(seat, hand, melds, tsumo, dora).yakuman
  {
    var r' := PricedResult(seat, hand, melds, tsumo, dora);
    assert r.melds[0] in r.melds;
    if Kokushi(hand) { OrphansHaveNoSets(hand); WinsExactly(seat, hand, melds, tsumo, dora); }
  }

  // A closed ron on 123456789m 123p with a pair from 4p on is given pinfu exactly when the pair is
  // not of simples: with 77z it is, with 55s it is not.
  lemma PinfuInverted(hand: seq<Tile>, p: nat, melds: seq<Meld>, seat: nat, tsumo: bool, dora: seq<Indicator>)
    requires IsFourRuns(hand, p) && melds == [] && !tsumo
    ensures TileAt(p) != ""
    ensures var v := Judge(seat, hand, melds, tsumo, dora); v.Wins? && !v.yakuman && ("pinfu" in v.yaku <==> !IsSimple(TileAt(p)))
    ensures (p == 22 ==> TileAt(p) == "5s" && IsSimple(TileAt(p))) && (p == 33 ==> TileAt(p) == "7z" && IsHonor(TileAt(p)))
  {
    RunsOnly(hand, OpenMelds(melds), p);
    IndexOfTileAt(p);
    RunsPriced(seat, hand, melds, tsumo, dora, Decompositions(hand, OpenMelds(melds))[0]);
  }

  lemma ThreeSets(c: Counts, p: nat, bs: seq<Block>)
    requires p < KINDS && c[p] >= 2 && |bs| == 3 && AreBlocks(bs)
    requires forall k | 0 <= k < KINDS :: c[k] == Uses(bs[0], k) + Uses(bs[1], k) + Uses(bs[2], k) + if k == p then 2 else 0
    ensures PairAndSets(c, p, 3)
  {
    forall k | 0 <= k < KINDS
      ensures Covered(bs, k) == TakePair(c, p)[k]
    {
      var b2, b1 := bs[1..], bs[1..][1..];
      assert Covered(b1, k) == Uses(b1[0], k) + Covered(b1[1..], k);
      assert Covered(b2, k) == Uses(b2[0], k) + Covered(b1, k);
    }
  }

  lemma ManzuTally(hand: seq<Tile>)
    requires hand == Each(0, 8, 1) + Each(4, 4, 2)
    ensures Proper(hand) && |hand| == 11
    ensures forall k | 0 <= k < KINDS :: Tally(hand)[k] == if k == 4 then 3 else if k <= 8 then 1 else 0
  {
    OneGroup(0, 8, 1);
    WithGroup(Each(0, 8, 1), 4, 4, 2);
  }

  lemma ManzuWins(hand: seq<Tile>, c: Counts)
    requires AllCountable(hand) && c == Tally(hand)
    requires forall k | 0 <= k < KINDS :: c[k] == if k == 4 then 3 else if k <= 8 then 1 else 0
    ensures Standard(c, 3)
  {
    ThreeSets(c, 4, [Run(0), Run(3), Run(6)]);
  }

  // A win with a claimed set is never a yakuman.
  lemma OpenIsOrdinary(seat: nat, hand: seq<Tile>, melds: seq<Meld>, tsumo: bool, dora: seq<Indicator>)
    requires Judge(seat, hand, melds, tsumo, dora).Wins? && melds != []
    ensures !Judge(seat, hand, melds, tsumo, dora).yakuman
  {
    var r := PricedResult(seat, hand, melds, tsumo, dora);
    var n :| 0 <= n < |r.melds| && r.melds[n].open;
    assert r.melds[n] in r.melds;
  }

  lemma ClaimWins(seat: nat, hand: seq<Tile>, melds: seq<Meld>, tsumo: bool, dora: seq<Indicator>)
    requires AllCountable(hand) && |hand| == 11 && |melds| == 1 && NoBlankMeld(melds) && Standard(Tally(hand), 3)
    ensures Judge(seat, hand, melds, tsumo, dora).Wins? && !Judge(seat, hand, melds, tsumo, dora).yakuman
  {
    WinsExactly(seat, hand, melds, tsumo, dora);
    OpenIsOrdinary(seat, hand, melds, tsumo, dora);
  }

  lemma ManzuWinsWith(hand: seq<Tile>, melds: seq<Meld>, seat: nat, tsumo: bool, dora: seq<Indicator>)
    requires hand == Each(0, 8, 1) + Each(4, 4, 2) && |melds| == 1 && NoBlankMeld(melds)
    ensures Proper(hand) && |hand| == 11 && forall n | 0 <= n < |hand| :: hand[n] != "" && Suit(hand[n]) == 'm'
    ensures Judge(seat, hand, melds, tsumo, dora).Wins? && !Judge(seat, hand, melds, tsumo, dora).yakuman
  {
    ManzuTally(hand);
    ManzuWins(hand, Tally(hand));
    ClaimWins(seat, hand, melds, tsumo, dora);
    ManzuTiles(hand);
  }

  lemma SuitOfSlot(hand: seq<Tile>, n: nat)
    requires Proper(hand) && n < |hand|
    ensures hand[n] != "" && 0 <= Slot(hand[n]) < KINDS && Tally(hand)[Slot(hand[n])] > 0
    ensures (Slot(hand[n]) < 9 <==> Suit(hand[n]) == 'm') && (Slot(hand[n]) >= 27 <==> IsHonor(hand[n]))
  {
    HeldPositive(hand, n);
    SimpleIndex(hand[n]);
    assert Canonical(hand[n]);
  }

  lemma ManzuTiles(hand: seq<Tile>)
    requires Proper(hand) && forall k | 9 <= k < KINDS :: Tally(hand)[k] == 0
    ensures forall n | 0 <= n < |hand| :: hand[n] != "" && Suit(hand[n]) == 'm'
  {
    forall n | 0 <= n < |hand|
      ensures hand[n] != "" && Suit(hand[n]) == 'm'
    {
      SuitOfSlot(hand, n);
    }
  }

  // 12345678955m with a claimed triplet of 5p is not of one suit, and is paid for chinitsu.
  lemma ChinitsuTooMany(hand: seq<Tile>, melds: seq<Meld>, seat: nat, tsumo: bool, dora: seq<Indicator>)
    requires hand == Each(0, 8, 1) + Each(4, 4, 2) && melds == [TurnSpec.MeldOf(Pon, "5p")]
    ensures AllCountable(hand) && (forall n | 0 <= n < |hand| :: hand[n] != "") && !FullFlush(hand, OpenMelds(melds))
    ensures var v := Judge(seat, hand, melds, tsumo, dora); v.Wins? && "chinitsu" in v.yaku
  {
    ManzuWinsWith(hand, melds, seat, tsumo, dora);
    FivePinzu(hand, melds);
    OffSuitPaid(hand, melds, seat, tsumo, dora);
  }

  lemma OffSuitPaid(hand: seq<Tile>, melds: seq<Meld>, seat: nat, tsumo: bool, dora: seq<Indicator>)
    requires Proper(hand) && (forall n | 0 <= n < |hand| :: hand[n] != "") && (forall m | m in OpenMelds(melds) :: ShapedMeld(m) && m.tile != "")
    requires OffSuit(hand, OpenMelds(melds))
    requires Judge(seat, hand, melds, tsumo, dora).Wins? && !Judge(seat, hand, melds, tsumo, dora).yakuman
    ensures !FullFlush(hand, OpenMelds(melds)) && "chinitsu" in Judge(seat, hand, melds, tsumo, dora).yaku
  {
    var r := YakuExactly(PureFlush, seat, hand, melds, tsumo, dora);
    FirstIsStandard(hand, OpenMelds(melds), r);
    ChinitsuExactly(hand, OpenMelds(melds), r);
  }

  lemma FirstIsStandard(hand: seq<Tile>, open: seq<Mentsu>, r: Result)
    requires AllCountable(hand) && Decompositions(hand, open) != [] && r == Decompositions(hand, open)[0] && HasTiles(r)
    ensures r in Decompositions(hand, open) && r != SPECIAL
  {
  }

  lemma FivePinzu(hand: seq<Tile>, melds: seq<Meld>)
    requires hand != [] && (forall n | 0 <= n < |hand| :: hand[n] != "" && Suit(hand[n]) == 'm') && melds == [TurnSpec.MeldOf(Pon, "5p")]
    ensures (forall m | m in OpenMelds(melds) :: ShapedMeld(m) && m.tile != "") && OffSuit(hand, OpenMelds(melds))
  {
    assert OpenMelds(melds) == [Mentsu(false, "5p", 3, true)];
    assert OpenMelds(melds)[0] in OpenMelds(melds);
  }

  // 123456789m 11z with a claimed triplet of 5p has two suits, and is paid for honitsu.
  lemma HonitsuTooMany(hand: seq<Tile>, melds: seq<Meld>, open: seq<Mentsu>, seat: nat, tsumo: bool, dora: seq<Indicator>)
    requires hand == Each(0, 8, 1) + Each(27, 27, 2) && melds == [TurnSpec.MeldOf(Pon, "5p")] && open == OpenMelds(melds)
    ensures forall n | 0 <= n < |hand + NamesOf(open)| :: (hand + NamesOf(open))[n] != ""
    ensures !OneSuit(hand + NamesOf(open))
    ensures var v := Judge(seat, hand, melds, tsumo, dora); v.Wins? && "honitsu" in v.yaku
  {
    WindsTally(hand);
    WindsWin(hand, Tally(hand));
    ClaimWins(seat, hand, melds, tsumo, dora);
    HonitsuScored(seat, hand, melds, open, tsumo, dora);
    EachTiles();
    assert OneSuit(hand) && HasHonor(hand) by { OneSuitAndHonors(hand); }
    assert Clash(hand, open) by { assert hand[0] == "1m" && open[0].tile == "5p"; }
    WholeOneSuit(hand, open);
  }

  lemma EachTiles()
    ensures Each(0, 8, 1) != [] && Each(0, 8, 1)[0] == "1m"
  {
    EachLength(0, 8, 1);
    CopiesAre(TileAt(0), 1);
  }

  lemma WindsTally(hand: seq<Tile>)
    requires hand == Each(0, 8, 1) + Each(27, 27, 2)
    ensures Proper(hand) && |hand| == 11
    ensures forall k | 0 <= k < KINDS :: Tally(hand)[k] == if k == 27 then 2 else if k <= 8 then 1 else 0
  {
    OneGroup(0, 8, 1);
    WithGroup(Each(0, 8, 1), 27, 27, 2);
  }

  lemma WindsWin(hand: seq<Tile>, c: Counts)
    requires AllCountable(hand) && c == Tally(hand)
    requires forall k | 0 <= k < KINDS :: c[k] == if k == 27 then 2 else if k <= 8 then 1 else 0
    ensures Standard(c, 3)
  {
    ThreeSets(c, 27, [Run(0), Run(3), Run(6)]);
  }

  lemma OneSuitAndHonors(hand: seq<Tile>)
    requires Proper(hand) && Tally(hand)[27] > 0 && forall k | 9 <= k < 27 :: Tally(hand)[k] == 0
    ensures (forall n | 0 <= n < |hand| :: hand[n] != "") && OneSuit(hand) && HasHonor(hand)
  {
    forall n | 0 <= n < |hand|
      ensures hand[n] != "" && (IsHonor(hand[n]) || Suit(hand[n]) == 'm')
    {
      SuitOfSlot(hand, n);
    }
    var n := HeldWitness(hand, 27);
    SuitOfSlot(hand, n);
  }

  // 12345678955m with a claimed triplet of 1z is of one suit with honors, and is not paid for honitsu.
  lemma HonitsuTooFew(hand: seq<Tile>, melds: seq<Meld>, open: seq<Mentsu>, seat: nat, tsumo: bool, dora: seq<Indicator>)
    requires hand == Each(0, 8, 1) + Each(4, 4, 2) && melds == [TurnSpec.MeldOf(Pon, "1z")] && open == OpenMelds(melds)
    ensures forall n | 0 <= n < |hand + NamesOf(open)| :: (hand + NamesOf(open))[n] != ""
    ensures HasHonor(hand + NamesOf(open)) && OneSuit(hand + NamesOf(open))
    ensures var v := Judge(seat, hand, melds, tsumo, dora); v.Wins? && "honitsu" !in v.yaku
  {
    ManzuWinsWith(hand, melds, seat, tsumo, dora);
    HonitsuScored(seat, hand, melds, open, tsumo, dora);
    ClaimedHonor(hand, open);
  }

  lemma ClaimedHonor(hand: seq<Tile>, open: seq<Mentsu>)
    requires (forall n | 0 <= n < |hand| :: hand[n] != "" && Suit(hand[n]) == 'm') && open == [Mentsu(false, "1z", 3, true)]
    ensures forall n | 0 <= n < |hand + NamesOf(open)| :: (hand + NamesOf(open))[n] != ""
    ensures HasHonor(hand + NamesOf(open)) && OneSuit(hand + NamesOf(open)) && !HasHonor(hand)
  {
    assert open[0].tile == "1z";
    WholeOneSuit(hand, open);
  }

  // Of 55m 1p 9s 1z a bot throws a five, and keeps the three unpaired tiles.
  lemma PairBroken(hand: seq<Tile>, level: Level, t: Tile)
    requires hand == ["5m", "5m", "1p", "9s", "1z"] && !level.Novice?
    ensures Chooses(level, hand, t) <==> t == "5m"
  {
    assert hand[0] == "5m" && hand[1] == "5m" && hand[2] == "1p" && hand[3] == "9s" && hand[4] == "1z";
    assert CopiesIn(hand, "5m") == 2 && CopiesIn(hand, "1p") == 1 && CopiesIn(hand, "9s") == 1 && CopiesIn(hand, "1z") == 1;
    assert FirstBest(hand, 0);
  }
}
