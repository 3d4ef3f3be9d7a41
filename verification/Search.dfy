/** splitSets as the program runs it: scratch counts and a shared accumulator (internal/game/yaku/mentsu.go). */
module Search {
  import opened Basics
  import opened Tiles
  import opened Decomposition

  // One set of a hand as the server stores it; the tile is the low tile of a run.
  datatype Mentsu = Mentsu(shuntsu: bool, tile: Tile, n: int, open: bool)

  function MeldOf(b: Block): Mentsu
    requires b.low < KINDS
  {
    Mentsu(b.Run?, TileAt(b.low), 3, false)
  }

  function Melds(bs: seq<Block>): (ms: seq<Mentsu>)
    requires AreBlocks(bs)
    ensures |ms| == |bs|
  {
    seq(|bs|, n requires 0 <= n < |bs| => MeldOf(bs[n]))
  }

  // The slice the search pushes to and pops from.
  class MeldList {
    var items: seq<Mentsu>

    constructor ()
      ensures items == []
    {
      items := [];
    }

    method Push(m: Mentsu)
      modifies this
      ensures items == old(items) + [m]
    {
      items := items + [m];
    }

    // Drops what was pushed last.
    method Pop(ghost rest: seq<Mentsu>, ghost last: Mentsu)
      requires items == rest + [last]
      modifies this
      ensures items == rest
    {
      items := items[..|items| - 1];
    }
  }

  // The melds of a search's answer, none when it has no answer.
  function Answer(found: Option<seq<Block>>): seq<Mentsu>
    requires found.Some? ==> AreBlocks(found.value)
  {
    if found.Some? then Melds(found.value) else []
  }

  function Found(c: Counts, need: int): seq<Mentsu>
  {
    AnswersAreBlocks(c, need);
    Answer(FirstSplit(c, need))
  }

  // Some answer starts with the given set.
  predicate Opens(c: Counts, need: int, b: Block)
  {
    Fits(c, b) && FirstSplit(Take(c, b), need - 1).Some?
  }

  lemma AnswersAreBlocks(c: Counts, need: int)
    ensures FirstSplit(c, need).Some? ==> AreBlocks(FirstSplit(c, need).value)
  {
    if FirstSplit(c, need).Some? {
      FirstSplitSound(c, need, FirstSplit(c, need).value);
    }
  }

  lemma MeldsCons(b: Block, rest: seq<Block>)
    requires IsBlock(b) && AreBlocks(rest)
    ensures AreBlocks([b] + rest) && Melds([b] + rest) == [MeldOf(b)] + Melds(rest)
  {
  }

  lemma FoundByCases(c: Counts, need: int)
    requires need != 0 && Lowest(c) < KINDS
    ensures var run, triplet := Run(Lowest(c)), Triplet(Lowest(c));
      if Opens(c, need, run) then FirstSplit(c, need).Some? && Found(c, need) == [MeldOf(run)] + Found(Take(c, run), need - 1)
      else if Opens(c, need, triplet) then
        FirstSplit(c, need).Some? && Found(c, need) == [MeldOf(triplet)] + Found(Take(c, triplet), need - 1)
      else FirstSplit(c, need).None?
  {
    var i := Lowest(c);
    var b := if SplitWith(c, need, Run(i)).Some? then Run(i) else Triplet(i);
    assert need > 0 ==> FirstSplit(c, need) == SplitWith(c, need, b);
    AnswersAreBlocks(c, need);
    if need > 0 && SplitWith(c, need, b).Some? {
      AnswersAreBlocks(Take(c, b), need - 1);
      var rest := FirstSplit(Take(c, b), need - 1).value;
      assert SplitWith(c, need, b).value == [b] + rest;
      MeldsCons(b, rest);
    }
  }

  // Every step of the search removes three tiles, which is why it stops.
  lemma TakeLess(c: Counts, b: Block)
    requires Fits(c, b)
    ensures Sum(Take(c, b)) + 3 == Sum(c)
  {
    match b
    case Run(i) =>
      SumUpdate(c, i, c[i] - 1);
      var c1 := c[i := c[i] - 1];
      SumUpdate(c1, i + 1, c1[i + 1] - 1);
      var c2 := c1[i + 1 := c1[i + 1] - 1];
      SumUpdate(c2, i + 2, c2[i + 2] - 1);
    case Triplet(i) =>
      SumUpdate(c, i, c[i] - 3);
  }

  // Both scans: the all-zero test, and the lowest remaining kind.
  method FirstNonZero(counts: Counts) returns (start: nat)
    ensures start == Lowest(counts)
  {
    start := 0;
    while start < KINDS && counts[start] == 0
      invariant start <= KINDS
      invariant forall k | 0 <= k < start :: counts[k] == 0
    {
      start := start + 1;
    }
  }

  method Remove(c: Counts, b: Block) returns (counts: Counts)
    requires Fits(c, b)
    ensures counts == Take(c, b)
  {
    if b.Run? {
      counts := c[b.low := c[b.low] - 1];
      counts := counts[b.low + 1 := counts[b.low + 1] - 1];
      counts := counts[b.low + 2 := counts[b.low + 2] - 1];
    } else {
      counts := c[b.low := c[b.low] - 3];
    }
  }

  // Backtracking puts back exactly what was removed.
  method PutBack(c: Counts, b: Block, ghost before: Counts) returns (counts: Counts)
    requires Fits(before, b) && c == Take(before, b)
    ensures counts == before
  {
    if b.Run? {
      counts := c[b.low := c[b.low] + 1];
      counts := counts[b.low + 1 := counts[b.low + 1] + 1];
      counts := counts[b.low + 2 := counts[b.low + 2] + 1];
    } else {
      counts := c[b.low := c[b.low] + 3];
    }
  }

  lemma PushedFirst(before: seq<Mentsu>, m: Mentsu, rest: seq<Mentsu>)
    ensures before + [m] + rest == before + ([m] + rest)
  {
  }

  // One branch: remove the set, push it, search on, and undo both when that fails.
  method TrySet(input: Counts, need: int, b: Block, acc: MeldList) returns (ok: bool, counts: Counts)
    requires need != 0 && Fits(input, b)
    modifies acc
    ensures ok <==> FirstSplit(Take(input, b), need - 1).Some?
    ensures !ok ==> counts == input
    ensures acc.items == if ok then old(acc.items) + ([MeldOf(b)] + Found(Take(input, b), need - 1)) else old(acc.items)
    decreases Sum(input), 0
  {
    counts := Remove(input, b);
    acc.Push(MeldOf(b));
    TakeLess(input, b);
    ghost var rest := Found(counts, need - 1);
    ok := SplitSets(counts, need - 1, acc);
    PushedFirst(old(acc.items), MeldOf(b), rest);
    if !ok {
      acc.Pop(old(acc.items), MeldOf(b));
      counts := PutBack(counts, b, input);
    }
  }

  method SplitSets(counts: Counts, need: int, acc: MeldList) returns (ok: bool)
    modifies acc
    ensures ok <==> FirstSplit(counts, need).Some?
    ensures acc.items == if ok then old(acc.items) + Found(counts, need) else old(acc.items)
    decreases Sum(counts), 2
  {
    var start := FirstNonZero(counts);
    if need == 0 { return start == KINDS; }
    if start >= KINDS { return false; }
    ok := TryBoth(counts, need, start, acc);
  }

  // The run first; the triplet is tried on the counts that the run's branch has put back.
  method TryBoth(input: Counts, need: int, start: nat, acc: MeldList) returns (ok: bool)
    requires need != 0 && start == Lowest(input) < KINDS
    modifies acc
    ensures ok <==> FirstSplit(input, need).Some?
    ensures acc.items == if ok then old(acc.items) + Found(input, need) else old(acc.items)
    decreases Sum(input), 1
  {
    var counts := input;
    FoundByCases(counts, need);
    IndexOfTileAt(start);
    if !IsHonor(TileAt(start)) && start % 9 < 7 && counts[start + 1] > 0 && counts[start + 2] > 0 {
      ok, counts := TrySet(counts, need, Run(start), acc);
      if ok { return; }
    }
    if counts[start] >= 3 {
      ok, counts := TrySet(counts, need, Triplet(start), acc);
      if ok { return; }
    }
    return false;
  }
}
