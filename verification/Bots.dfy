/** The built-in bots' choice of discard (internal/game/ai/builtin.go). */
module Bots {
  import opened Tiles
  import opened Table

  function IsolationScore(t: Tile): nat
  {
    if |t| != 2 || t[1] == 'z' then 8
    else
      var n := (t[0] as int - '0' as int) % 256;
      if n == 1 || n == 9 then 9 else 10 + n
  }

  // What the bot maximises over its hand.
  function Worth(hand: seq<Tile>, t: Tile): nat
  {
    if CopiesIn(hand, t) > 1 then 10 else IsolationScore(t)
  }

  // Position i holds the first tile of greatest worth.
  predicate FirstBest(hand: seq<Tile>, i: nat)
  {
    && i < |hand|
    && (forall k | 0 <= k < i :: Worth(hand, hand[k]) < Worth(hand, hand[i]))
    && (forall k | i <= k < |hand| :: Worth(hand, hand[k]) <= Worth(hand, hand[i]))
  }

  datatype Level = Novice | Normal | Expert

  // A blank tile of greatest worth is taken for "none" and the first tile is thrown instead.
  function ThrownFrom(hand: seq<Tile>, at: nat): Tile
    requires at < |hand|
  {
    if hand[at] == "" then hand[0] else hand[at]
  }

  // What a built-in bot of the level may throw: the novice anything it holds, the others the
  // first tile of greatest worth. An empty hand gives no tile.
  ghost predicate Chooses(level: Level, hand: seq<Tile>, t: Tile)
  {
    if hand == [] then t == ""
    else if level.Novice? then exists n :: 0 <= n < |hand| && t == hand[n]
    else exists at :: FirstBest(hand, at) && t == ThrownFrom(hand, at)
  }

  // Whatever the level, the tile is held.
  lemma ChoosesHeld(level: Level, hand: seq<Tile>, t: Tile)
    requires Chooses(level, hand, t) && hand != []
    ensures t in hand
  {
  }

  lemma {:induction false} BestOfFirst(hand: seq<Tile>, n: nat) returns (at: nat)
    requires 0 < n <= |hand|
    ensures at < n && forall k | 0 <= k < at :: Worth(hand, hand[k]) < Worth(hand, hand[at])
    ensures forall k | at <= k < n :: Worth(hand, hand[k]) <= Worth(hand, hand[at])
  {
    at := 0;
    if n > 1 {
      at := BestOfFirst(hand, n - 1);
      if Worth(hand, hand[n - 1]) > Worth(hand, hand[at]) {
        at := n - 1;
      }
    }
  }

  // Every bot can choose, and all but the novice have one choice.
  lemma CanChoose(level: Level, hand: seq<Tile>) returns (t: Tile)
    ensures Chooses(level, hand, t)
    ensures !level.Novice? ==> forall u | Chooses(level, hand, u) :: u == t
  {
    t := "";
    if hand != [] {
      var at := BestOfFirst(hand, |hand|);
      t := ThrownFrom(hand, at);
      assert FirstBest(hand, at);
      if level.Novice? {
        t := hand[0];
      } else {
        forall u | Chooses(level, hand, u)
          ensures u == t
        {
          var other :| FirstBest(hand, other) && u == ThrownFrom(hand, other);
          assert other == at;
        }
      }
    }
  }

  // The normal and expert bots throw the first tile of greatest worth.
  method DiscardByIsolation(hand: seq<Tile>) returns (best: Tile, ghost at: nat)
    ensures hand == [] ==> best == ""
    ensures hand != [] ==> FirstBest(hand, at) && best == ThrownFrom(hand, at)
    ensures Chooses(Normal, hand, best) && Chooses(Expert, hand, best)
  {
    var counts: map<Tile, nat> := map[];
    for n := 0 to |hand|
      invariant forall t :: CopiesIn(hand[..n], t) == if t in counts then counts[t] else 0
    {
      assert hand[..n + 1] == hand[..n] + [hand[n]];
      counts := counts[hand[n] := (if hand[n] in counts then counts[hand[n]] else 0) + 1];
    }
    assert hand[..|hand|] == hand;

    best, at := "", 0;
    var bestScore := -1;
    for n := 0 to |hand|
      invariant n == 0 ==> best == "" && bestScore == -1
      invariant n > 0 ==> at < n && best == hand[at] && bestScore == Worth(hand, best)
      invariant n > 0 ==> forall k | 0 <= k < at :: Worth(hand, hand[k]) < bestScore
      invariant n > 0 ==> forall k | at <= k < n :: Worth(hand, hand[k]) <= bestScore
    {
      var s: int := IsolationScore(hand[n]);
      assert hand[n] in hand;
      if counts[hand[n]] > 1 { s := 10; }
      if s > bestScore {
        bestScore, best, at := s, hand[n], n;
      }
    }
    if best == "" && |hand| > 0 { best := hand[0]; }
  }

  // The novice throws any tile of its hand.
  method NoviceDiscard(hand: seq<Tile>, random: nat) returns (t: Tile)
    ensures Chooses(Novice, hand, t)
  {
    if |hand| == 0 { return ""; }
    return hand[random % |hand|];
  }

  // "Keep pairs" holds exactly while an unpaired 2 to 8 is there to throw: over plain tiles the
  // bot breaks a pair if and only if it holds one and every unpaired tile is a terminal or honor.
  lemma BreaksPairExactly(hand: seq<Tile>, at: nat)
    requires FirstBest(hand, at)
    requires forall n | 0 <= n < |hand| :: Canonical(hand[n]) && !IsRed(hand[n])
    ensures CopiesIn(hand, hand[at]) > 1 <==>
      && (exists n :: 0 <= n < |hand| && CopiesIn(hand, hand[n]) > 1)
      && (forall n | 0 <= n < |hand| && CopiesIn(hand, hand[n]) == 1 :: |hand[n]| == 2 && !IsSimple(hand[n]))
  {
    forall n | 0 <= n < |hand|
      ensures CopiesIn(hand, hand[n]) >= 1
      ensures IsolationScore(hand[n]) > 10 <==> IsSimple(hand[n])
      ensures IsolationScore(hand[n]) != 10
    {
      assert hand[n] in multiset(hand);
      PlainScore(hand[n]);
    }
  }

  lemma PlainScore(t: Tile)
    requires Canonical(t) && !IsRed(t)
    ensures IsolationScore(t) != 10 && (IsolationScore(t) > 10 <==> IsSimple(t))
  {
  }

  // An unpaired 2 to 8 that is not a red five.
  predicate Loose(hand: seq<Tile>, n: nat)
    requires n < |hand| && Canonical(hand[n])
  {
    CopiesIn(hand, hand[n]) == 1 && IsSimple(hand[n]) && !IsRed(hand[n])
  }

  // A tile of a pair, or a red five.
  predicate Wanted(hand: seq<Tile>, n: nat)
    requires n < |hand| && Canonical(hand[n])
  {
    CopiesIn(hand, hand[n]) > 1 || IsRed(hand[n])
  }

  // Of a tile that is neither, whether it is a terminal.
  predicate Single(hand: seq<Tile>, n: nat)
    requires n < |hand| && Canonical(hand[n])
  {
    !Wanted(hand, n) && IsTerminal(hand[n])
  }

  // The order of what goes first: the highest loose tile, then the first tile of a pair or red five,
  // then the first terminal, then the first tile; of equals always the earliest.
  lemma OrderOfDiscards(hand: seq<Tile>, at: nat)
    requires FirstBest(hand, at) && forall n | 0 <= n < |hand| :: Canonical(hand[n])
    ensures ThrownFrom(hand, at) == hand[at]
    ensures var loose, wanted, single := exists n :: 0 <= n < |hand| && Loose(hand, n),
        exists n :: 0 <= n < |hand| && Wanted(hand, n), exists n :: 0 <= n < |hand| && Single(hand, n);
      if loose then
        && Loose(hand, at) && (forall n | 0 <= n < |hand| && Loose(hand, n) :: Rank(hand[n]) <= Rank(hand[at]))
        && (forall n | 0 <= n < at && Loose(hand, n) :: Rank(hand[n]) < Rank(hand[at]))
      else if wanted then Wanted(hand, at) && forall n | 0 <= n < at :: !Wanted(hand, n)
      else if single then Single(hand, at) && forall n | 0 <= n < at :: !Single(hand, n)
      else at == 0
  {
    forall n | 0 <= n < |hand|
      ensures CopiesIn(hand, hand[n]) >= 1
      ensures Worth(hand, hand[n]) ==
        if Loose(hand, n) then 10 + Rank(hand[n]) else if Wanted(hand, n) then 10 else if Single(hand, n) then 9 else 8
      ensures Loose(hand, n) ==> Rank(hand[n]) > 0
    {
      assert hand[n] in multiset(hand);
      ScoreByClass(hand[n]);
    }
    assert at > 0 ==> Worth(hand, hand[0]) < Worth(hand, hand[at]);
  }

  lemma ScoreByClass(t: Tile)
    requires Canonical(t)
    ensures IsolationScore(t) == if IsRed(t) then 10 else if IsSimple(t) then 10 + Rank(t) else if IsTerminal(t) then 9 else 8
    ensures IsSimple(t) ==> Rank(t) > 0
  {
  }
}
