/** Which of several partitions the search returns, and when there is only one to return. */
module Ordering {
  import opened Basics
  import opened Tiles
  import opened Decomposition

  // The order the search lists sets in: lower kinds first, at one kind runs before triplets.
  predicate Before(a: Block, b: Block)
  {
    a.low < b.low || (a.low == b.low && (a.Run? || b.Triplet?))
  }

  ghost predicate Ordered(bs: seq<Block>)
  {
    forall m, n | 0 <= m < n < |bs| :: Before(bs[m], bs[n])
  }

  ghost predicate OrderedPartition(c: Counts, bs: seq<Block>)
  {
    Partition(c, bs) && Ordered(bs)
  }

  // p and q agree up to a kind where p takes a run and q a triplet.
  ghost predicate RunsFirst(p: seq<Block>, q: seq<Block>)
  {
    || p == q
    || exists n :: 0 <= n < |p| && n < |q| && p[..n] == q[..n] && p[n].Run? && q[n] == Triplet(p[n].low)
  }

  lemma LowAtLeastLowest(c: Counts, bs: seq<Block>, n: nat)
    requires Partition(c, bs) && n < |bs|
    ensures Lowest(c) <= bs[n].low < KINDS
  {
    TakeOut(c, bs, n);
  }

  // The search goes on after its first set as it would have started on the rest.
  lemma SearchHead(c: Counts, need: int, bs: seq<Block>)
    requires FirstSplit(c, need) == Some(bs) && need != 0
    ensures |bs| == need && bs[0].low == Lowest(c) < KINDS && Fits(c, bs[0])
    ensures FirstSplit(Take(c, bs[0]), need - 1) == Some(bs[1..])
  {
    FirstSplitSound(c, need, bs);
    var i := Lowest(c);
    var b := if SplitWith(c, need, Run(i)).Some? then Run(i) else Triplet(i);
    assert SplitWith(c, need, b) == Some(bs);
    var rest := FirstSplit(Take(c, b), need - 1).value;
    assert bs == [b] + rest;
    assert bs[1..] == rest;
  }

  lemma RunChosen(c: Counts, need: int, run: Block)
    requires run == Run(Lowest(c)) && SplitWith(c, need, run).Some?
    ensures FirstSplit(c, need) == SplitWith(c, need, run)
  {
  }

  // The search takes the run whenever some partition does.
  lemma RunTaken(c: Counts, bs: seq<Block>, q: seq<Block>, j: nat)
    requires FirstSplit(c, |q|) == Some(bs) && Partition(c, q)
    requires j < |q| && q[j] == Run(Lowest(c))
    ensures |bs| > 0 && bs[0] == q[j]
  {
    TakeOut(c, q, j);
    FirstSplitComplete(Take(c, q[j]), Without(q, j));
    RunChosen(c, |q|, q[j]);
  }

  lemma {:induction false} FirstSplitOrdered(c: Counts, need: int, bs: seq<Block>)
    requires FirstSplit(c, need) == Some(bs)
    ensures Ordered(bs)
    decreases need
  {
    FirstSplitSound(c, need, bs);
    if need != 0 {
      SearchHead(c, need, bs);
      var b := bs[0];
      FirstSplitOrdered(Take(c, b), need - 1, bs[1..]);
      forall n | 0 < n < |bs|
        ensures Before(b, bs[n])
      {
        LowAtLeastLowest(c, bs, n);
        if bs[n] == Run(Lowest(c)) {
          RunTaken(c, bs, bs, n);
        }
      }
    }
  }

  lemma OrderedHead(c: Counts, q: seq<Block>)
    requires OrderedPartition(c, q) && q != []
    ensures q[0].low == Lowest(c) < KINDS
    ensures Fits(c, q[0]) && OrderedPartition(Take(c, q[0]), q[1..])
  {
    EmptyPartition(c, q);
    var j := LowestStartsBlock(c, q);
    LowAtLeastLowest(c, q, 0);
    assert j == 0 || Before(q[0], q[j]);
    TakeOut(c, q, 0);
    assert Without(q, 0) == q[1..];
  }

  lemma RunsFirstCons(b: Block, p: seq<Block>, q: seq<Block>)
    requires RunsFirst(p, q)
    ensures RunsFirst([b] + p, [b] + q)
  {
    if p != q {
      var n :| 0 <= n < |p| && n < |q| && p[..n] == q[..n] && p[n].Run? && q[n] == Triplet(p[n].low);
      var p1, q1 := [b] + p, [b] + q;
      assert p1[..n + 1] == [b] + p[..n] && q1[..n + 1] == [b] + q[..n];
      assert p1[n + 1] == p[n] && q1[n + 1] == q[n];
    }
  }

  lemma HeadTail(bs: seq<Block>)
    requires bs != []
    ensures bs == [bs[0]] + bs[1..]
  {
  }

  // At the first set the search and an ordered partition agree, or the search has the run.
  lemma HeadsCompared(c: Counts, bs: seq<Block>, q: seq<Block>)
    requires FirstSplit(c, |q|) == Some(bs) && OrderedPartition(c, q) && q != []
    ensures bs != [] && (bs[0] == q[0] || (bs[0].Run? && q[0] == Triplet(bs[0].low)))
  {
    SearchHead(c, |q|, bs);
    OrderedHead(c, q);
    if q[0].Run? {
      RunTaken(c, bs, q, 0);
    }
  }

  lemma TailsCompared(c: Counts, bs: seq<Block>, q: seq<Block>, need: int)
    requires FirstSplit(c, need) == Some(bs) && need == |q| && OrderedPartition(c, q)
    requires bs != [] && q != [] && bs[0] == q[0]
    ensures Fits(c, q[0]) && OrderedPartition(Take(c, q[0]), q[1..]) && FirstSplit(Take(c, q[0]), need - 1) == Some(bs[1..])
  {
    OrderedHead(c, q);
    SearchHead(c, need, bs);
  }

  lemma RunsFirstHere(bs: seq<Block>, q: seq<Block>)
    requires bs != [] && q != [] && bs[0].Run? && q[0] == Triplet(bs[0].low)
    ensures RunsFirst(bs, q)
  {
    assert bs[..0] == q[..0];
  }

  // Among all ordered partitions the search returns the one that prefers runs.
  lemma {:induction false} FirstSplitRunsFirst(c: Counts, bs: seq<Block>, q: seq<Block>)
    requires FirstSplit(c, |q|) == Some(bs) && OrderedPartition(c, q)
    ensures RunsFirst(bs, q)
    decreases |q|
  {
    if q == [] {
      FirstSplitSound(c, 0, bs);
    } else {
      HeadsCompared(c, bs, q);
      if bs[0] == q[0] {
        TailsCompared(c, bs, q, |q|);
        FirstSplitRunsFirst(Take(c, q[0]), bs[1..], q[1..]);
        RunsFirstCons(bs[0], bs[1..], q[1..]);
        HeadTail(bs);
        HeadTail(q);
      } else {
        RunsFirstHere(bs, q);
      }
    }
  }

  // Every partition can be listed in the search's order.
  lemma {:induction false} Arrange(c: Counts, bs: seq<Block>) returns (q: seq<Block>)
    requires Partition(c, bs)
    ensures OrderedPartition(c, q) && multiset(q) == multiset(bs)
    decreases |bs|
  {
    EmptyPartition(c, bs);
    if bs == [] { return bs; }
    var i := Lowest(c);
    var j := LowestStartsBlock(c, bs);
    if Run(i) in bs {
      j :| 0 <= j < |bs| && bs[j] == Run(i);
    }
    TakeOut(c, bs, j);
    var rest := Arrange(Take(c, bs[j]), Without(bs, j));
    q := [bs[j]] + rest;
    PartitionCons(c, bs[j], rest);
    assert multiset(q) == multiset(bs);
    assert Run(i) in q <==> Run(i) in multiset(q);
    LeastInFront(c, bs[j], rest);
  }

  // A set at the lowest kind goes in front, a triplet only when no run starts there.
  lemma LeastInFront(c: Counts, b: Block, rest: seq<Block>)
    requires Partition(c, [b] + rest) && Ordered(rest) && b.low == Lowest(c)
    requires b.Triplet? ==> Run(b.low) !in [b] + rest
    ensures Ordered([b] + rest)
  {
    var q := [b] + rest;
    forall n | 0 < n < |q|
      ensures Before(q[0], q[n])
    {
      LowAtLeastLowest(c, q, n);
      assert q[n] in q;
    }
    assert forall n | 0 < n < |q| :: q[n] == rest[n - 1];
  }

  // ---------- When is there more than one? ----------

  // Three copies of one run are also three triplets.
  predicate ThreeRuns(c: Counts, i: nat)
  {
    RunStart(i) && c[i] >= 3 && c[i + 1] >= 3 && c[i + 2] >= 3
  }

  function TakeThreeRuns(c: Counts, i: nat): Counts
    requires ThreeRuns(c, i)
  {
    c[i := c[i] - 3][i + 1 := c[i + 1] - 3][i + 2 := c[i + 2] - 3]
  }

  ghost predicate Swappable(c: Counts, need: int)
  {
    exists i :: ThreeRuns(c, i) && Splittable(TakeThreeRuns(c, i), need - 3)
  }

  lemma {:induction false} NoRunMod3(bs: seq<Block>, i: nat)
    requires Ordered(bs) && forall n | 0 <= n < |bs| :: bs[n].low >= i
    requires bs == [] || bs[0] != Run(i)
    ensures Covered(bs, i) % 3 == 0
  {
    if bs != [] {
      assert |bs| > 1 ==> Before(bs[0], bs[1]);
      NoRunMod3(bs[1..], i);
    }
  }

  // Where one ordered partition starts with a run and another with a triplet, the first starts
  // with three copies of the run: both cover the lowest kind equally often modulo three.
  lemma LeadingRuns(c: Counts, p: seq<Block>, q: seq<Block>)
    requires OrderedPartition(c, p) && OrderedPartition(c, q) && p != [] && q != []
    requires p[0].Run? && q[0].Triplet?
    ensures |p| >= 3 && p[0] == p[1] == p[2]
  {
    OrderedHead(c, p);
    OrderedHead(c, q);
    var i := Lowest(c);
    forall n | 0 <= n < |p| ensures p[n].low >= i { LowAtLeastLowest(c, p, n); }
    forall n | 0 <= n < |q| ensures q[n].low >= i { LowAtLeastLowest(c, q, n); }
    NoRunMod3(q, i);
    if |p| == 1 || p[1] != Run(i) {
      NoRunMod3(p[1..], i);
      assert false;
    }
    if |p| == 2 || p[2] != Run(i) {
      NoRunMod3(p[1..][1..], i);
      assert false;
    }
  }

  lemma SwapCons(c: Counts, b: Block, i: nat, rest: seq<Block>)
    requires Fits(c, b) && ThreeRuns(Take(c, b), i) && Partition(TakeThreeRuns(Take(c, b), i), rest)
    ensures ThreeRuns(c, i) && Partition(TakeThreeRuns(c, i), [b] + rest)
  {
    var e := TakeThreeRuns(c, i);
    assert forall k | 0 <= k < KINDS :: e[k] == TakeThreeRuns(Take(c, b), i)[k] + Uses(b, k);
    assert Fits(e, b) by {
      assert Uses(b, b.low) > 0 && (b.Run? ==> Uses(b, b.low + 1) > 0 && Uses(b, b.low + 2) > 0);
    }
    assert Take(e, b) == TakeThreeRuns(Take(c, b), i);
    PartitionCons(e, b, rest);
  }

  lemma TakeThrice(c: Counts, d: Counts, i: nat)
    requires RunStart(i) && forall k | 0 <= k < KINDS :: c[k] == d[k] + 3 * Uses(Run(i), k)
    ensures ThreeRuns(c, i) && TakeThreeRuns(c, i) == d
  {
    assert c[i] == d[i] + 3 && c[i + 1] == d[i + 1] + 3 && c[i + 2] == d[i + 2] + 3;
  }

  // Three leading copies of one run come off together.
  lemma DropLeadingRuns(c: Counts, r: seq<Block>, i: nat)
    requires OrderedPartition(c, r) && |r| >= 3 && r[0] == r[1] == r[2] == Run(i)
    ensures ThreeRuns(c, i) && Partition(TakeThreeRuns(c, i), r[3..])
  {
    OrderedHead(c, r);
    var d, r1 := Take(c, Run(i)), r[1..];
    OrderedHead(d, r1);
    var e, r2 := Take(d, Run(i)), r1[1..];
    OrderedHead(e, r2);
    var f := Take(e, Run(i));
    assert r2[1..] == r[3..];
    TakeThrice(c, f, i);
  }

  lemma {:induction false} DistinctSwappable(c: Counts, p: seq<Block>, q: seq<Block>)
    returns (i: nat, rest: seq<Block>)
    requires OrderedPartition(c, p) && OrderedPartition(c, q) && |p| == |q| && p != q
    ensures ThreeRuns(c, i) && Partition(TakeThreeRuns(c, i), rest) && |rest| == |p| - 3
    decreases |p|
  {
    OrderedHead(c, p);
    OrderedHead(c, q);
    if p[0] == q[0] {
      assert p == [p[0]] + p[1..] && q == [q[0]] + q[1..];
      i, rest := DistinctSwappable(Take(c, p[0]), p[1..], q[1..]);
      SwapCons(c, p[0], i, rest);
      rest := [p[0]] + rest;
    } else {
      var r := if p[0].Run? then p else q;
      LeadingRuns(c, r, if p[0].Run? then q else p);
      i, rest := r[0].low, r[3..];
      DropLeadingRuns(c, r, i);
    }
  }

  lemma BothCover(c: Counts, i: nat, rest: seq<Block>, k: nat)
    requires ThreeRuns(c, i) && Partition(TakeThreeRuns(c, i), rest) && k < KINDS
    ensures Covered([Run(i), Run(i), Run(i)] + rest, k) == c[k]
    ensures Covered([Triplet(i), Triplet(i + 1), Triplet(i + 2)] + rest, k) == c[k]
  {
    var runs, triplets := [Run(i), Run(i), Run(i)], [Triplet(i), Triplet(i + 1), Triplet(i + 2)];
    CoveredAppend(runs, rest, k);
    CoveredAppend(triplets, rest, k);
    CoveredAppend([Run(i)], [Run(i), Run(i)], k);
    CoveredAppend([Run(i)], [Run(i)], k);
    CoveredAppend([Triplet(i)], [Triplet(i + 1), Triplet(i + 2)], k);
    CoveredAppend([Triplet(i + 1)], [Triplet(i + 2)], k);
    assert runs == [Run(i)] + [Run(i), Run(i)] && [Run(i), Run(i)] == [Run(i)] + [Run(i)];
    assert triplets == [Triplet(i)] + [Triplet(i + 1), Triplet(i + 2)];
    assert [Triplet(i + 1), Triplet(i + 2)] == [Triplet(i + 1)] + [Triplet(i + 2)];
  }

  lemma RunsDiffer(i: nat, rest: seq<Block>, p: seq<Block>, q: seq<Block>)
    requires multiset(p) == multiset([Run(i), Run(i), Run(i)] + rest)
    requires multiset(q) == multiset([Triplet(i), Triplet(i + 1), Triplet(i + 2)] + rest)
    ensures p != q && |p| == |q| == |rest| + 3
  {
    assert |multiset(p)| == |p| && |multiset(q)| == |q|;
    assert multiset(p)[Run(i)] == multiset(rest)[Run(i)] + 3;
    assert multiset(q)[Run(i)] == multiset(rest)[Run(i)];
  }

  lemma SwapGivesTwo(c: Counts, need: int) returns (p: seq<Block>, q: seq<Block>)
    requires Swappable(c, need)
    ensures OrderedPartition(c, p) && OrderedPartition(c, q) && |p| == |q| == need && p != q
  {
    var i: nat :| ThreeRuns(c, i) && Splittable(TakeThreeRuns(c, i), need - 3);
    var rest :| |rest| == need - 3 && Partition(TakeThreeRuns(c, i), rest);
    p, q := SwapBoth(c, i, rest);
  }

  lemma SwapBoth(c: Counts, i: nat, rest: seq<Block>) returns (p: seq<Block>, q: seq<Block>)
    requires ThreeRuns(c, i) && Partition(TakeThreeRuns(c, i), rest)
    ensures OrderedPartition(c, p) && OrderedPartition(c, q) && |p| == |q| == |rest| + 3 && p != q
  {
    var runs, triplets := [Run(i), Run(i), Run(i)], [Triplet(i), Triplet(i + 1), Triplet(i + 2)];
    forall k | 0 <= k < KINDS
      ensures Covered(runs + rest, k) == c[k] && Covered(triplets + rest, k) == c[k]
    {
      BothCover(c, i, rest, k);
    }
    p := Arrange(c, runs + rest);
    q := Arrange(c, triplets + rest);
    RunsDiffer(i, rest, p, q);
  }

  // The counts have two different partitions into need sets exactly when three copies of one
  // run can be set aside and the remainder still splits.
  lemma UniqueUnlessSwappable(c: Counts, need: int)
    ensures (forall p, q | OrderedPartition(c, p) && OrderedPartition(c, q) && |p| == |q| == need :: p == q)
       <==> !Swappable(c, need)
  {
    if Swappable(c, need) {
      var p, q := SwapGivesTwo(c, need);
    } else {
      forall p, q | OrderedPartition(c, p) && OrderedPartition(c, q) && |p| == |q| == need
        ensures p == q
      {
        if p != q {
          var i, rest := DistinctSwappable(c, p, q);
        }
      }
    }
  }
}
