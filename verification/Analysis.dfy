/** Winning hands: Analyze, the special shapes, and Tenpai (internal/game/yaku/mentsu.go). */
module Analysis {
  import opened Tiles
  import opened Decomposition
  import opened Ordering
  import opened Search

  datatype Result = Result(pair: Tile, melds: seq<Mentsu>)

  // The one result of both special shapes.
  const SPECIAL := Result("", [])

  // ---------- Winning hands, declaratively ----------

  predicate TerminalKind(i: nat)
  {
    i < 27 ==> i % 9 == 0 || i % 9 == 8
  }

  // Thirteen orphans: every terminal and honor kind, nothing else (of fourteen tiles).
  predicate Orphans(c: Counts)
  {
    forall i | 0 <= i < KINDS :: c[i] > 0 <==> TerminalKind(i)
  }

  // Nothing but pairs of different kinds (of fourteen tiles: seven pairs).
  predicate AllPairs(c: Counts)
  {
    forall i | 0 <= i < KINDS :: c[i] == 0 || c[i] == 2
  }

  function TakePair(c: Counts, p: nat): Counts
    requires p < KINDS && c[p] >= 2
  {
    c[p := c[p] - 2]
  }

  ghost predicate PairAndSets(c: Counts, p: nat, need: int)
  {
    p < KINDS && c[p] >= 2 && Splittable(TakePair(c, p), need)
  }

  ghost predicate Standard(c: Counts, need: int)
  {
    exists p :: PairAndSets(c, p, need)
  }

  ghost predicate Winning(hand: seq<Tile>, claims: nat)
    requires AllCountable(hand)
  {
    var c := Tally(hand);
    && |hand| == 14 - 3 * claims
    && ((claims == 0 && (Orphans(c) || AllPairs(c))) || Standard(c, 4 - claims))
  }

  // ---------- The special shapes ----------

  function TerminalsBelow(n: nat): nat
  {
    if n == 0 then 0 else TerminalsBelow(n - 1) + if TerminalKind(n - 1) then 1 else 0
  }

  lemma ThirteenTerminals()
    ensures TerminalsBelow(KINDS) == 13
  {
    assert TerminalsBelow(9) == 2;
    assert TerminalsBelow(18) == 4;
    assert TerminalsBelow(27) == 6;
    assert TerminalsBelow(34) == 13;
  }

  lemma {:induction false} OrphansAtLeast(c: Counts, lo: nat, hi: nat)
    requires Orphans(c) && lo <= hi <= KINDS
    ensures Sum(c[..hi]) - Sum(c[..lo]) >= TerminalsBelow(hi) - TerminalsBelow(lo)
    decreases hi
  {
    if lo < hi {
      OrphansAtLeast(c, lo, hi - 1);
      assert c[..hi][..hi - 1] == c[..hi - 1];
    }
  }

  // Two tiles more than one of each orphan kind are already too many.
  lemma TooManyOrphans(c: Counts, i: nat)
    requires i < KINDS && Sum(c) == 14 && Sum(c[..i]) + c[i] >= TerminalsBelow(i + 1) + 2
    ensures TerminalKind(i) && c[i] > 0 ==> !Orphans(c)
  {
    assert c[..KINDS] == c && c[..i + 1][..i] == c[..i];
    ThirteenTerminals();
    if Orphans(c) {
      OrphansAtLeast(c, i + 1, KINDS);
    }
  }

  method IsKokushi(hand: seq<Tile>) returns (yes: bool)
    requires AllCountable(hand)
    ensures yes <==> |hand| == 14 && Orphans(Tally(hand))
  {
    if |hand| != 14 { return false; }
    var counts := CountTiles(hand);
    SumTally(hand);
    yes := OrphanScan(counts);
  }

  lemma PrefixSum(c: Counts, i: nat)
    requires i < KINDS
    ensures Sum(c[..i + 1]) == Sum(c[..i]) + c[i]
  {
    assert c[..i + 1][..i] == c[..i];
  }

  // Every terminal and honor once, one of them twice.
  method OrphanScan(counts: Counts) returns (yes: bool)
    requires Sum(counts) == 14
    ensures yes <==> Orphans(counts)
  {
    ThirteenTerminals();
    assert counts[..KINDS] == counts;
    var pair := false;
    for i := 0 to KINDS
      invariant forall k | 0 <= k < i :: counts[k] > 0 <==> TerminalKind(k)
      invariant Sum(counts[..i]) == TerminalsBelow(i) + if pair then 1 else 0
    {
      var n := counts[i];
      PrefixSum(counts, i);
      if !TerminalKind(i) {
        if n != 0 { return false; }
      } else if n == 2 {
        if pair {
          TooManyOrphans(counts, i);
          return false;
        }
        pair := true;
      } else if n != 1 {
        if n > 0 { TooManyOrphans(counts, i); }
        return false;
      }
    }
    return pair;
  }

  method Chiitoitsu(hand: seq<Tile>) returns (yes: bool)
    requires AllCountable(hand)
    ensures yes <==> |hand| == 14 && AllPairs(Tally(hand))
  {
    var counts := CountTiles(hand);
    SumTally(hand);
    var pairs := 0;
    for i := 0 to KINDS
      invariant forall k | 0 <= k < i :: counts[k] == 0 || counts[k] == 2
      invariant Sum(counts[..i]) == 2 * pairs
    {
      var n := counts[i];
      assert counts[..i + 1][..i] == counts[..i];
      if n != 0 && n != 2 { return false; }
      if n == 2 { pairs := pairs + 1; }
    }
    assert counts[..KINDS] == counts;
    return pairs == 7;
  }

  // ---------- Analyze ----------

  predicate Feasible(c: Counts, p: nat, need: int)
  {
    p < KINDS && c[p] >= 2 && FirstSplit(TakePair(c, p), need).Some?
  }

  function ResultFor(c: Counts, p: nat, open: seq<Mentsu>): Result
    requires Feasible(c, p, 4 - |open|)
  {
    Result(TileAt(p), open + Found(TakePair(c, p), 4 - |open|))
  }

  // One result for every feasible pair kind below n, in index order.
  function StandardResults(c: Counts, open: seq<Mentsu>, n: nat := KINDS): seq<Result>
    requires n <= KINDS
  {
    if n == 0 then []
    else StandardResults(c, open, n - 1) + if Feasible(c, n - 1, 4 - |open|) then [ResultFor(c, n - 1, open)] else []
  }

  // Tiles are only counted once the length fits.
  predicate Analyzable(hand: seq<Tile>, claims: nat)
  {
    |hand| == 14 - 3 * claims ==> AllCountable(hand)
  }

  function Decompositions(hand: seq<Tile>, open: seq<Mentsu>): seq<Result>
    requires Analyzable(hand, |open|)
  {
    if |hand| != 14 - 3 * |open| then []
    else if open == [] && (Orphans(Tally(hand)) || AllPairs(Tally(hand))) then [SPECIAL]
    else StandardResults(Tally(hand), open)
  }

  method Analyze(hand: seq<Tile>, open: seq<Mentsu>) returns (out: seq<Result>)
    requires Analyzable(hand, |open|)
    ensures out == Decompositions(hand, open)
  {
    if |hand| != 14 - 3 * |open| { return []; }
    if |open| == 0 {
      var kokushi := IsKokushi(hand);
      if kokushi { return [SPECIAL]; }
      var pairs := Chiitoitsu(hand);
      if pairs { return [SPECIAL]; }
    }
    var counts := CountTiles(hand);
    out := PairLoop(counts, open);
  }

  method PairLoop(input: Counts, open: seq<Mentsu>) returns (out: seq<Result>)
    ensures out == StandardResults(input, open)
  {
    var counts := input;
    var need := 4 - |open|;
    out := [];
    for pair := 0 to KINDS
      invariant counts == input
      invariant out == StandardResults(input, open, pair)
    {
      if counts[pair] < 2 { continue; }
      counts := counts[pair := counts[pair] - 2];
      var melds := new MeldList();
      var ok := SplitSets(counts, need, melds);
      assert counts == TakePair(input, pair) && (ok <==> Feasible(input, pair, need));
      if ok {
        assert melds.items == Found(counts, need);
        out := out + [Result(TileAt(pair), open + melds.items)];
      }
      counts := counts[pair := counts[pair] + 2];
    }
  }

  // ---------- What the results say ----------

  lemma FeasibleDecides(c: Counts, p: nat, need: int)
    ensures Feasible(c, p, need) <==> PairAndSets(c, p, need)
  {
    if p < KINDS && c[p] >= 2 {
      FirstSplitDecides(TakePair(c, p), need);
    }
  }

  lemma {:induction false} ListedOrigin(c: Counts, open: seq<Mentsu>, n: nat, r: Result) returns (p: nat)
    requires n <= KINDS && r in StandardResults(c, open, n)
    ensures p < n && Feasible(c, p, 4 - |open|) && r == ResultFor(c, p, open)
  {
    if Feasible(c, n - 1, 4 - |open|) && r == ResultFor(c, n - 1, open) {
      p := n - 1;
    } else {
      p := ListedOrigin(c, open, n - 1, r);
    }
  }

  lemma {:induction false} FeasibleListed(c: Counts, open: seq<Mentsu>, n: nat, p: nat)
    requires p < n <= KINDS && Feasible(c, p, 4 - |open|)
    ensures ResultFor(c, p, open) in StandardResults(c, open, n)
  {
    if p < n - 1 {
      FeasibleListed(c, open, n - 1, p);
    }
  }

  lemma ListedIffStandard(c: Counts, open: seq<Mentsu>)
    ensures StandardResults(c, open) != [] <==> Standard(c, 4 - |open|)
  {
    var need := 4 - |open|;
    if StandardResults(c, open) != [] {
      var p := ListedOrigin(c, open, KINDS, StandardResults(c, open)[0]);
      FeasibleDecides(c, p, need);
    }
    if Standard(c, need) {
      var p: nat :| PairAndSets(c, p, need);
      FeasibleDecides(c, p, need);
      FeasibleListed(c, open, KINDS, p);
    }
  }

  // Analyze reports something exactly for the winning hands.
  lemma AnalysisDecidesWinning(hand: seq<Tile>, open: seq<Mentsu>)
    requires AllCountable(hand)
    ensures Decompositions(hand, open) != [] <==> Winning(hand, |open|)
  {
    ListedIffStandard(Tally(hand), open);
  }

  // A result in standard form: the open melds, then concealed sets that together with the pair
  // use up the hand, four sets in all.
  ghost predicate Explains(r: Result, hand: seq<Tile>, open: seq<Mentsu>, p: nat, bs: seq<Block>)
    requires AllCountable(hand)
  {
    && p < KINDS && Tally(hand)[p] >= 2
    && Partition(TakePair(Tally(hand), p), bs)
    && r == Result(TileAt(p), open + Melds(bs))
    && |r.melds| == 4
  }

  lemma ResultForExplains(hand: seq<Tile>, open: seq<Mentsu>, p: nat) returns (bs: seq<Block>)
    requires AllCountable(hand) && Feasible(Tally(hand), p, 4 - |open|)
    ensures Explains(ResultFor(Tally(hand), p, open), hand, open, p, bs) && Ordered(bs)
  {
    var d, need := TakePair(Tally(hand), p), 4 - |open|;
    bs := FirstSplit(d, need).value;
    FirstSplitSound(d, need, bs);
    FirstSplitOrdered(d, need, bs);
    assert Found(d, need) == Melds(bs);
  }

  lemma AnalysisSound(hand: seq<Tile>, open: seq<Mentsu>, r: Result) returns (p: nat, bs: seq<Block>)
    requires AllCountable(hand) && r in Decompositions(hand, open) && r != SPECIAL
    ensures Explains(r, hand, open, p, bs) && Ordered(bs)
  {
    p := ListedOrigin(Tally(hand), open, KINDS, r);
    bs := ResultForExplains(hand, open, p);
  }

  // The pair kinds of the results, which are the feasible ones in index order.
  function PairKinds(c: Counts, need: int, n: nat := KINDS): (ps: seq<nat>)
    requires n <= KINDS
    ensures forall x | 0 <= x < |ps| :: ps[x] < n && Feasible(c, ps[x], need)
    ensures forall x, y | 0 <= x < y < |ps| :: ps[x] < ps[y]
    ensures forall p | 0 <= p < n && Feasible(c, p, need) :: p in ps
  {
    if n == 0 then [] else PairKinds(c, need, n - 1) + if Feasible(c, n - 1, need) then [n - 1] else []
  }

  lemma {:induction false} OneResultPerPair(c: Counts, open: seq<Mentsu>, n: nat)
    requires n <= KINDS
    ensures var ps, rs := PairKinds(c, 4 - |open|, n), StandardResults(c, open, n);
      |rs| == |ps| && forall x | 0 <= x < |ps| :: rs[x] == ResultFor(c, ps[x], open)
  {
    if n > 0 {
      OneResultPerPair(c, open, n - 1);
    }
  }
}
