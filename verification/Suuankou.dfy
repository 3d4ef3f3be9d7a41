/** Four concealed triplets: when the program scores them (internal/game/yaku, internal/game/engine/win.go). */
module Suuankou {
  import opened Basics
  import opened Tiles
  import opened Decomposition
  import opened Ordering
  import opened Search
  import opened Analysis
  import opened Coverage
  import opened Score
  import opened Yaku
  import opened Fans
  import opened Dora
  import opened WinCheck

  // ---------- Counts modulo three ----------

  function RunsAt(bs: seq<Block>, i: int): nat
  {
    if bs == [] then 0 else (if bs[0].Run? && bs[0].low == i then 1 else 0) + RunsAt(bs[1..], i)
  }

  lemma {:induction false} CoveredModThree(bs: seq<Block>, k: nat)
    ensures Covered(bs, k) % 3 == (RunsAt(bs, k) + RunsAt(bs, k - 1) + RunsAt(bs, k - 2)) % 3
  {
    if bs != [] {
      CoveredModThree(bs[1..], k);
    }
  }

  lemma {:induction false} RunsCover(bs: seq<Block>, i: nat, k: nat)
    requires AreBlocks(bs) && i <= k <= i + 2
    ensures Covered(bs, k) >= RunsAt(bs, i) && (RunsAt(bs, i) > 0 ==> RunStart(i))
  {
    if bs != [] {
      RunsCover(bs[1..], i, k);
      assert bs[0] in bs;
    }
  }

  lemma {:induction false} TripletsModThree(bs: seq<Block>, k: nat)
    requires OnlyTriplets(bs)
    ensures Covered(bs, k) % 3 == 0
  {
    if bs != [] {
      TripletsModThree(bs[1..], k);
    }
  }

  // Where the counts are multiples of three and no run occurs three times there are no runs.
  lemma {:induction false} NoRunsBelow(e: Counts, bs: seq<Block>, n: nat)
    requires Partition(e, bs) && n <= KINDS
    requires forall k | 0 <= k < n :: e[k] % 3 == 0 && RunsAt(bs, k) <= 2
    ensures forall k: int | k < n :: RunsAt(bs, k) == 0
  {
    if n == 0 {
      forall k: int | k < 0 ensures RunsAt(bs, k) == 0 { NoNegativeRuns(bs, k); }
    } else {
      NoRunsBelow(e, bs, n - 1);
      CoveredModThree(bs, n - 1);
    }
  }

  lemma {:induction false} NoNegativeRuns(bs: seq<Block>, k: int)
    requires k < 0
    ensures RunsAt(bs, k) == 0
  {
    if bs != [] {
      NoNegativeRuns(bs[1..], k);
    }
  }

  // ---------- The pair is the only one ----------

  // The hand of c: with pair p it is triplets bs, with pair q sets x.
  ghost predicate TwoWays(c: Counts, p: nat, bs: seq<Block>, q: nat, x: seq<Block>)
  {
    && p < KINDS && q < KINDS && p != q && c[p] >= 2 && c[q] >= 2
    && Partition(TakePair(c, p), bs) && OnlyTriplets(bs) && Partition(TakePair(c, q), x)
  }

  lemma Residues(c: Counts, p: nat, bs: seq<Block>, q: nat, x: seq<Block>, k: nat)
    requires TwoWays(c, p, bs, q, x) && k < KINDS
    ensures TakePair(c, p)[k] % 3 == 0
    ensures TakePair(c, q)[k] % 3 == if k == p then 2 else if k == q then 1 else 0
    ensures k != p ==> TakePair(c, p)[k] >= TakePair(c, q)[k]
  {
    TripletsModThree(bs, k);
  }

  // A kind covered by a run, unless it is the pair and the run occurs only once or twice.
  lemma CoversThree(c: Counts, p: nat, bs: seq<Block>, q: nat, x: seq<Block>, i: nat, k: nat)
    requires TwoWays(c, p, bs, q, x) && RunStart(i) && i <= k <= i + 2 && RunsAt(x, i) > 0
    requires k != p || RunsAt(x, i) >= 3
    ensures TakePair(c, p)[k] >= 3
  {
    RunsCover(x, i, k);
    Residues(c, p, bs, q, x, k);
  }

  // Three kinds in a row that the other split covers, none of them the pair, are three triplets.
  lemma ThreeInARow(c: Counts, p: nat, bs: seq<Block>, q: nat, x: seq<Block>, i: nat)
    requires TwoWays(c, p, bs, q, x) && RunsAt(x, i) > 0 && !(i <= p <= i + 2)
    ensures ThreeRuns(TakePair(c, p), i)
  {
    RunsCover(x, i, i);
    CoversThree(c, p, bs, q, x, i, i);
    CoversThree(c, p, bs, q, x, i, i + 1);
    CoversThree(c, p, bs, q, x, i, i + 2);
  }

  lemma SameRunThrice(c: Counts, p: nat, bs: seq<Block>, q: nat, x: seq<Block>, i: nat)
    requires TwoWays(c, p, bs, q, x) && RunsAt(x, i) >= 3
    ensures ThreeRuns(TakePair(c, p), i)
  {
    RunsCover(x, i, i);
    CoversThree(c, p, bs, q, x, i, i);
    CoversThree(c, p, bs, q, x, i, i + 1);
    CoversThree(c, p, bs, q, x, i, i + 2);
  }

  lemma RunsModThree(c: Counts, p: nat, bs: seq<Block>, q: nat, x: seq<Block>, k: nat)
    requires TwoWays(c, p, bs, q, x) && k < KINDS
    ensures (RunsAt(x, k) + RunsAt(x, k - 1) + RunsAt(x, k - 2)) % 3 == if k == p then 2 else if k == q then 1 else 0
  {
    Residues(c, p, bs, q, x, k);
    CoveredModThree(x, k);
  }

  lemma NothingBelow(c: Counts, p: nat, bs: seq<Block>, q: nat, x: seq<Block>, low: nat)
    requires TwoWays(c, p, bs, q, x) && low <= p && low <= q && forall k | 0 <= k < KINDS :: RunsAt(x, k) <= 2
    ensures RunsAt(x, low - 1) == 0 && RunsAt(x, low - 2) == 0
  {
    forall k | 0 <= k < low
      ensures TakePair(c, q)[k] % 3 == 0
    {
      Residues(c, p, bs, q, x, k);
    }
    NoRunsBelow(TakePair(c, q), x, low);
  }

  // The triplets' pair is the lower one: a run starts there twice, and one at the next kind.
  lemma ForcedAfterPair(c: Counts, p: nat, bs: seq<Block>, q: nat, x: seq<Block>)
    requires TwoWays(c, p, bs, q, x) && p < q && forall k | 0 <= k < KINDS :: RunsAt(x, k) <= 2
    ensures RunsAt(x, p + 1) > 0
  {
    NothingBelow(c, p, bs, q, x, p);
    RunsModThree(c, p, bs, q, x, p);
    RunsCover(x, p, p);
    RunsModThree(c, p, bs, q, x, p + 1);
  }

  // The other pair is the lower one: a run starts there, and unless it stops short of the
  // triplets' pair one starts right after that.
  lemma ForcedBeforePair(c: Counts, p: nat, bs: seq<Block>, q: nat, x: seq<Block>)
    requires TwoWays(c, p, bs, q, x) && q < p && forall k | 0 <= k < KINDS :: RunsAt(x, k) <= 2
    ensures RunsAt(x, q) > 0 && (p <= q + 2 ==> RunsAt(x, p + 1) > 0)
  {
    NothingBelow(c, p, bs, q, x, q);
    RunsModThree(c, p, bs, q, x, q);
    RunsModThree(c, p, bs, q, x, q + 1);
    if p <= q + 2 {
      RunsModThree(c, p, bs, q, x, p);
      assert RunsAt(x, p) > 0;
      RunsCover(x, p, p);
      RunsModThree(c, p, bs, q, x, p + 1);
    }
  }

  // From the lower of the two pairs on the counts force a run clear of the triplets' pair.
  lemma ForcedRun(c: Counts, p: nat, bs: seq<Block>, q: nat, x: seq<Block>) returns (i: nat)
    requires TwoWays(c, p, bs, q, x) && forall k | 0 <= k < KINDS :: RunsAt(x, k) <= 2
    ensures RunsAt(x, i) > 0 && !(i <= p <= i + 2)
  {
    if p < q {
      ForcedAfterPair(c, p, bs, q, x);
      i := p + 1;
    } else {
      ForcedBeforePair(c, p, bs, q, x);
      i := if p <= q + 2 then p + 1 else q;
    }
  }

  // A hand that is triplets with one pair and sets with another has three consecutive triplets.
  lemma SecondPairNeedsRow(c: Counts, p: nat, bs: seq<Block>, q: nat, x: seq<Block>)
    requires TwoWays(c, p, bs, q, x)
    ensures HasThreeRuns(TakePair(c, p))
  {
    if exists k :: 0 <= k < KINDS && RunsAt(x, k) > 2 {
      var k :| 0 <= k < KINDS && RunsAt(x, k) > 2;
      SameRunThrice(c, p, bs, q, x, k);
    } else {
      var i := ForcedRun(c, p, bs, q, x);
      ThreeInARow(c, p, bs, q, x, i);
    }
  }

  // Two splits into triplets have the same pair: only its count is not a multiple of three.
  lemma TripletsSamePair(c: Counts, p: nat, bs: seq<Block>, q: nat, x: seq<Block>)
    requires p < KINDS && q < KINDS && c[p] >= 2 && c[q] >= 2
    requires Partition(TakePair(c, p), bs) && OnlyTriplets(bs) && Partition(TakePair(c, q), x) && OnlyTriplets(x)
    ensures p == q
  {
    TripletsModThree(bs, p);
    TripletsModThree(x, p);
  }

  // ---------- What is scored ----------

  lemma OriginSearch(c: Counts, q: nat, open: seq<Mentsu>, r: Result) returns (x: seq<Block>)
    requires Feasible(c, q, 4 - |open|) && r == ResultFor(c, q, open)
    ensures FirstSplit(TakePair(c, q), 4 - |open|) == Some(x) && OrderedPartition(TakePair(c, q), x) && |x| == 4 - |open|
    ensures r == Result(TileAt(q), open + Melds(x))
  {
    x := FirstSplit(TakePair(c, q), 4 - |open|).value;
    FirstSplitSound(TakePair(c, q), 4 - |open|, x);
    FirstSplitOrdered(TakePair(c, q), 4 - |open|, x);
  }

  // The first result of a closed hand that splits in standard form.
  lemma FirstOrigin(hand: seq<Tile>, open: seq<Mentsu>, p: nat) returns (q: nat, x: seq<Block>)
    requires AllCountable(hand) && open == [] && |hand| == 14 && !Orphans(Tally(hand)) && !AllPairs(Tally(hand))
    requires Feasible(Tally(hand), p, 4 - |open|)
    ensures Decompositions(hand, open) != [] && Decomposes(hand, open, q, x)
    ensures FirstSplit(TakePair(Tally(hand), q), |x|) == Some(x) && Decompositions(hand, open)[0] == Result(TileAt(q), open + Melds(x))
  {
    var c := Tally(hand);
    FeasibleListed(c, open, KINDS, p);
    var rs := StandardResults(c, open);
    assert Decompositions(hand, open) == rs;
    q := ListedOrigin(c, open, KINDS, rs[0]);
    x := OriginSearch(c, q, open, rs[0]);
  }

  // The first result of a closed hand of triplets and a pair, which is the one that is scored, is
  // four concealed triplets exactly when no three of the triplets are consecutive in a suit.
  lemma FirstResultTriplets(hand: seq<Tile>, p: nat, bs: seq<Block>)
    requires AllCountable(hand) && |hand| == 14 && Decomposes(hand, [], p, bs) && OnlyTriplets(bs)
    ensures var rs := Decompositions(hand, []);
      rs != [] && HasTiles(rs[0]) && (FourConcealedTriplets(rs[0]) <==> !HasThreeRuns(TakePair(Tally(hand), p)))
  {
    var c := Tally(hand);
    TripletsNotSpecial(hand, p, bs);
    FirstSplitComplete(TakePair(c, p), bs);
    var q, x := FirstOrigin(hand, [], p);
    ResultHasTiles([], q, x);
    assert [] + Melds(x) == Melds(x);
    TripletsConcealed(hand, q, x);
    OnlyTripletsFirst(c, p, bs, q, x);
  }

  lemma OnlyTripletsFirst(c: Counts, p: nat, bs: seq<Block>, q: nat, x: seq<Block>)
    requires p < KINDS && q < KINDS && c[p] >= 2 && c[q] >= 2 && |bs| == |x|
    requires OrderedPartition(TakePair(c, p), bs) && OnlyTriplets(bs)
    requires OrderedPartition(TakePair(c, q), x) && FirstSplit(TakePair(c, q), |x|) == Some(x)
    ensures OnlyTriplets(x) <==> !HasThreeRuns(TakePair(c, p))
  {
    if p != q {
      SecondPairNeedsRow(c, p, bs, q, x);
      if OnlyTriplets(x) { TripletsSamePair(c, p, bs, q, x); }
    } else {
      SearchFindsTriplets(TakePair(c, p), bs);
      if OnlyTriplets(x) { SearchFindsTriplets(TakePair(c, p), x); }
    }
  }

  // So a closed all-triplet win is a yakuman exactly then; otherwise it is priced as runs.
  lemma SuuankouScored(seat: nat, hand: seq<Tile>, tsumo: bool, dora: seq<Indicator>, p: nat, bs: seq<Block>)
    requires AllCountable(hand) && |hand| == 14 && Decomposes(hand, [], p, bs) && OnlyTriplets(bs)
    ensures var v := Judge(seat, hand, [], tsumo, dora);
      && v.Wins? && (v.yakuman <==> !HasThreeRuns(TakePair(Tally(hand), p)))
      && (v.yakuman ==> v.han >= 13 && "suuankou" in v.yaku)
  {
    FirstResultTriplets(hand, p, bs);
    TripletsNotSpecial(hand, p, bs);
    var res := Decompositions(hand, [])[0];
    assert OpenMelds([]) == [];
    var fr := FansOf(res, hand, WinCtx(seat, tsumo, false));
    assert fr.yakuman <==> FourConcealedTriplets(res);
    assert fr.yakuman ==> Names(fr.fans)[0] == "suuankou";
  }
}
