/** Splitting counts into runs and triplets: what it means, and the order the search tries. */
module Decomposition {
  import opened Basics
  import opened Tiles

  // A concealed set, named by its lowest kind.
  datatype Block = Run(low: nat) | Triplet(low: nat)

  // ---------- What it means to split counts into sets ----------

  predicate RunStart(i: nat)
  {
    i < 27 && i % 9 < 7
  }

  // A run stays inside one suit.
  predicate IsBlock(b: Block)
  {
    b.low < KINDS && (b.Run? ==> RunStart(b.low))
  }

  predicate AreBlocks(bs: seq<Block>)
  {
    forall n | 0 <= n < |bs| :: IsBlock(bs[n])
  }

  // How many tiles of kind k the set takes.
  function Uses(b: Block, k: nat): nat
  {
    if b.Run? then (if b.low <= k <= b.low + 2 then 1 else 0)
    else if k == b.low then 3 else 0
  }

  function Covered(bs: seq<Block>, k: nat): nat
  {
    if bs == [] then 0 else Uses(bs[0], k) + Covered(bs[1..], k)
  }

  // The sets use up the counts exactly.
  ghost predicate Partition(c: Counts, bs: seq<Block>)
  {
    AreBlocks(bs) && forall k | 0 <= k < KINDS :: Covered(bs, k) == c[k]
  }

  ghost predicate Splittable(c: Counts, need: int)
  {
    exists bs :: |bs| == need && Partition(c, bs)
  }

  // ---------- The search, as a function ----------

  // The lowest kind with a tile left, KINDS when there is none.
  function Lowest(c: Counts, from: nat := 0): (i: nat)
    requires from <= KINDS && forall k | 0 <= k < from :: c[k] == 0
    ensures i <= KINDS && (i < KINDS ==> c[i] > 0) && forall k | 0 <= k < i :: c[k] == 0
    decreases KINDS - from
  {
    if from == KINDS || c[from] > 0 then from else Lowest(c, from + 1)
  }

  predicate Fits(c: Counts, b: Block)
  {
    && IsBlock(b)
    && match b
       case Run(i) => c[i] > 0 && c[i + 1] > 0 && c[i + 2] > 0
       case Triplet(i) => c[i] >= 3
  }

  function Take(c: Counts, b: Block): (d: Counts)
    requires Fits(c, b)
    ensures forall k | 0 <= k < KINDS :: c[k] == d[k] + Uses(b, k)
  {
    match b
    case Run(i) => c[i := c[i] - 1][i + 1 := c[i + 1] - 1][i + 2 := c[i + 2] - 1]
    case Triplet(i) => c[i := c[i] - 3]
  }

  // The sets the search finds: lowest remaining kind first, run before triplet.
  function FirstSplit(c: Counts, need: int): Option<seq<Block>>
    decreases need, 1
  {
    if need == 0 then (if Lowest(c) == KINDS then Some([]) else None)
    else if need < 0 || Lowest(c) == KINDS then None
    else
      var viaRun := SplitWith(c, need, Run(Lowest(c)));
      if viaRun.Some? then viaRun else SplitWith(c, need, Triplet(Lowest(c)))
  }

  // The answers that start with the given set.
  function SplitWith(c: Counts, need: int, b: Block): Option<seq<Block>>
    decreases need, 0
  {
    if need <= 0 || !Fits(c, b) then None
    else
      var rest := FirstSplit(Take(c, b), need - 1);
      if rest.Some? then Some([b] + rest.value) else None
  }

  // ---------- Sound and complete ----------

  lemma PartitionCons(c: Counts, b: Block, bs: seq<Block>)
    requires Fits(c, b)
    ensures Partition(c, [b] + bs) <==> Partition(Take(c, b), bs)
  {
    var all := [b] + bs;
    assert all[1..] == bs;
    assert forall n | 0 <= n < |bs| :: all[n + 1] == bs[n];
  }

  // Every answer is a partition into exactly need sets.
  lemma {:induction false} FirstSplitSound(c: Counts, need: int, bs: seq<Block>)
    requires FirstSplit(c, need) == Some(bs)
    ensures |bs| == need && Partition(c, bs)
    decreases need
  {
    if need != 0 {
      var i := Lowest(c);
      var b := if SplitWith(c, need, Run(i)).Some? then Run(i) else Triplet(i);
      assert SplitWith(c, need, b) == Some(bs);
      var rest := FirstSplit(Take(c, b), need - 1).value;
      FirstSplitSound(Take(c, b), need - 1, rest);
      PartitionCons(c, b, rest);
    }
  }

  lemma {:induction false} CoveredAppend(a: seq<Block>, b: seq<Block>, k: nat)
    ensures Covered(a + b, k) == Covered(a, k) + Covered(b, k)
  {
    if a == [] {
      assert a + b == b;
    } else {
      assert (a + b)[1..] == a[1..] + b;
      CoveredAppend(a[1..], b, k);
    }
  }

  lemma {:induction false} CoveredBy(bs: seq<Block>, k: nat) returns (j: nat)
    requires Covered(bs, k) > 0
    ensures j < |bs| && Uses(bs[j], k) > 0
  {
    if Uses(bs[0], k) > 0 {
      j := 0;
    } else {
      j := CoveredBy(bs[1..], k);
      j := j + 1;
    }
  }

  lemma {:induction false} CoveredAtLeast(bs: seq<Block>, j: nat, k: nat)
    requires j < |bs|
    ensures Covered(bs, k) >= Uses(bs[j], k)
  {
    if j > 0 {
      CoveredAtLeast(bs[1..], j - 1, k);
    }
  }

  function Without(bs: seq<Block>, j: nat): seq<Block>
    requires j < |bs|
  {
    bs[..j] + bs[j + 1..]
  }

  // Any set of a partition can be taken out of the counts first.
  lemma TakeOut(c: Counts, bs: seq<Block>, j: nat)
    requires Partition(c, bs) && j < |bs|
    ensures Fits(c, bs[j]) && Partition(Take(c, bs[j]), Without(bs, j))
    ensures multiset([bs[j]] + Without(bs, j)) == multiset(bs)
  {
    var b, x, y := bs[j], bs[..j], bs[j + 1..];
    assert bs == x + ([b] + y);
    forall k | 0 <= k < KINDS
      ensures Covered([b] + (x + y), k) == c[k] && c[k] >= Uses(b, k)
    {
      CoveredAppend(x, [b] + y, k);
      CoveredAppend([b], y, k);
      CoveredAppend(x, y, k);
      CoveredAppend([b], x + y, k);
    }
    assert Uses(b, b.low) > 0 && (b.Run? ==> Uses(b, b.low + 1) > 0 && Uses(b, b.low + 2) > 0);
    assert AreBlocks([b] + (x + y));
    PartitionCons(c, b, x + y);
  }

  // Some set of a partition of non-empty counts starts at the lowest kind: the run or the
  // triplet the search tries there.
  lemma LowestStartsBlock(c: Counts, bs: seq<Block>) returns (j: nat)
    requires Partition(c, bs) && Lowest(c) < KINDS
    ensures j < |bs| && bs[j].low == Lowest(c)
  {
    var i := Lowest(c);
    j := CoveredBy(bs, i);
    TakeOut(c, bs, j);
  }

  lemma EmptyPartition(c: Counts, bs: seq<Block>)
    requires Partition(c, bs)
    ensures Lowest(c) == KINDS <==> bs == []
  {
    if bs != [] {
      TakeOut(c, bs, 0);
    }
  }

  // Whenever a partition exists the search finds one.
  lemma {:induction false} FirstSplitComplete(c: Counts, bs: seq<Block>)
    requires Partition(c, bs)
    ensures FirstSplit(c, |bs|).Some?
    decreases |bs|
  {
    EmptyPartition(c, bs);
    if bs != [] {
      var j := LowestStartsBlock(c, bs);
      TakeOut(c, bs, j);
      FirstSplitComplete(Take(c, bs[j]), Without(bs, j));
      assert SplitWith(c, |bs|, bs[j]).Some?;
    }
  }

  lemma FirstSplitDecides(c: Counts, need: int)
    ensures FirstSplit(c, need).Some? <==> Splittable(c, need)
  {
    if FirstSplit(c, need).Some? {
      FirstSplitSound(c, need, FirstSplit(c, need).value);
    }
    if Splittable(c, need) {
      var bs :| |bs| == need && Partition(c, bs);
      FirstSplitComplete(c, bs);
    }
  }
}
