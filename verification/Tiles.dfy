/** Tiles and the 34-slot count form (internal/game/yaku/tiles.go). */
module Tiles {

  // A tile is the two-byte text the server uses: "1m".."9m", "1p".."9p",
  // "1s".."9s", "1z".."7z", and the red fives "0m", "0p", "0s".
  type Tile = string

  const KINDS: nat := 34

  // One tally per kind: nine manzu, nine pinzu, nine souzu, seven honors.
  type Counts = c: seq<nat> | |c| == KINDS witness seq(KINDS, _ => 0)

  function Suit(t: Tile): char
    requires |t| > 0
  {
    t[|t| - 1]
  }

  // Rank subtracts bytes, so a character below '0' wraps modulo 256; a red five ranks five.
  function Rank(t: Tile): nat
    requires |t| > 0
  {
    ((if t[0] == '0' then '5' else t[0]) as int - '0' as int) % 256
  }

  predicate IsRed(t: Tile)
    requires |t| > 0
  {
    t[0] == '0'
  }

  function Normal(t: Tile): Tile
    requires |t| > 0
  {
    if t[0] == '0' then "5" + t[1..] else t
  }

  predicate IsHonor(t: Tile)
    requires |t| > 0
  {
    Suit(t) == 'z'
  }

  predicate IsTerminal(t: Tile)
    requires |t| > 0
  {
    !IsHonor(t) && (Rank(t) == 1 || Rank(t) == 9)
  }

  predicate IsSimple(t: Tile)
    requires |t| > 0
  {
    !IsHonor(t) && !IsTerminal(t)
  }

  function Index(t: Tile): int
    requires |t| > 0
  {
    match Suit(t)
    case 'm' => Rank(t) - 1
    case 'p' => 9 + Rank(t) - 1
    case 's' => 18 + Rank(t) - 1
    case _ => 27 + Rank(t) - 1
  }

  function TileAt(i: nat): (t: Tile)
    requires i < KINDS
  {
    if i < 9 then [('1' as int + i) as char, 'm']
    else if i < 18 then [('1' as int + i - 9) as char, 'p']
    else if i < 27 then [('1' as int + i - 18) as char, 's']
    else [('1' as int + i - 27) as char, 'z']
  }

  // The slot CountTiles adds a tile to: a red five counts as the plain five.
  function Slot(t: Tile): int
    requires |t| > 0
  {
    Index(Normal(t))
  }

  // CountTiles stays inside its 34 slots exactly on these tiles.
  predicate Countable(t: Tile)
  {
    |t| > 0 && 0 <= Slot(t) < KINDS
  }

  // The tiles the package documents.
  predicate Canonical(t: Tile)
  {
    && |t| == 2
    && (|| (t[1] in "mps" && '0' <= t[0] <= '9')
        || (t[1] == 'z' && '1' <= t[0] <= '7'))
  }

  predicate AllCountable(hand: seq<Tile>)
  {
    forall n | 0 <= n < |hand| :: Countable(hand[n])
  }

  // How many tiles of the hand fall into slot k.
  function Held(hand: seq<Tile>, k: nat): nat
    requires AllCountable(hand)
  {
    if hand == [] then 0
    else Held(hand[..|hand| - 1], k) + if Slot(hand[|hand| - 1]) == k then 1 else 0
  }

  function Tally(hand: seq<Tile>): Counts
    requires AllCountable(hand)
  {
    seq(KINDS, k requires 0 <= k < KINDS => Held(hand, k))
  }

  function Sum(c: seq<nat>): nat
  {
    if c == [] then 0 else Sum(c[..|c| - 1]) + c[|c| - 1]
  }

  // Index and TileAt are inverse: on every slot one way, on every canonical tile the other,
  // where a red five comes back as the plain five.
  lemma IndexOfTileAt(i: nat)
    requires i < KINDS
    ensures |TileAt(i)| == 2 && Index(TileAt(i)) == i && Canonical(TileAt(i)) && Normal(TileAt(i)) == TileAt(i)
    ensures Countable(TileAt(i))
    ensures IsHonor(TileAt(i)) <==> i >= 27
    ensures i < 27 ==> Rank(TileAt(i)) == i % 9 + 1
  {
  }

  lemma TileAtOfIndex(t: Tile)
    requires Canonical(t)
    ensures Countable(t) && Slot(t) == Index(t) && TileAt(Index(t)) == Normal(t)
  {
    assert Normal(t) == [Normal(t)[0], t[1]];
    assert TileAt(Index(t)) == [Normal(t)[0], t[1]];
  }

  method CountTiles(hand: seq<Tile>) returns (c: Counts)
    requires AllCountable(hand)
    ensures c == Tally(hand)
  {
    c := seq(KINDS, _ => 0);
    for n := 0 to |hand|
      invariant c == Tally(hand[..n])
    {
      assert hand[..n + 1][..n] == hand[..n];
      var i := Slot(hand[n]);
      c := c[i := c[i] + 1];
    }
    assert hand[..|hand|] == hand;
  }

  lemma {:induction false} HeldAppend(a: seq<Tile>, b: seq<Tile>, k: nat)
    requires AllCountable(a) && AllCountable(b)
    ensures AllCountable(a + b)
    ensures Held(a + b, k) == Held(a, k) + Held(b, k)
  {
    if b == [] {
      assert a + b == a;
    } else {
      assert (a + b)[..|a + b| - 1] == a + b[..|b| - 1];
      HeldAppend(a, b[..|b| - 1], k);
    }
  }

  lemma {:induction false} SumUpdate(c: seq<nat>, i: nat, v: nat)
    requires i < |c|
    ensures Sum(c[i := v]) == Sum(c) - c[i] + v
  {
    var n := |c| - 1;
    if i == n {
      assert c[i := v][..n] == c[..n];
    } else {
      assert c[i := v][..n] == c[..n][i := v];
      SumUpdate(c[..n], i, v);
    }
  }

  lemma {:induction false} SumZero(c: seq<nat>)
    requires forall k | 0 <= k < |c| :: c[k] == 0
    ensures Sum(c) == 0
  {
    if c != [] {
      SumZero(c[..|c| - 1]);
    }
  }

  // No tile is lost or counted twice.
  lemma {:induction false} SumTally(hand: seq<Tile>)
    requires AllCountable(hand)
    ensures Sum(Tally(hand)) == |hand|
  {
    if hand == [] {
      SumZero(Tally(hand));
    } else {
      var rest := hand[..|hand| - 1];
      SumTally(rest);
      var i := Slot(hand[|hand| - 1]);
      assert Tally(hand) == Tally(rest)[i := Tally(rest)[i] + 1];
      SumUpdate(Tally(rest), i, Tally(rest)[i] + 1);
    }
  }

  // ---------- Sorting ----------

  // Kinds in slot order, a red five before the plain ones.
  predicate Less(a: Tile, b: Tile)
    requires |a| > 0 && |b| > 0
  {
    Index(a) < Index(b) || (Index(a) == Index(b) && IsRed(a) && !IsRed(b))
  }

  // The order as a number.
  function Key(t: Tile): int
  {
    if t == "" then 0 else 2 * Index(t) + if IsRed(t) then 0 else 1
  }

  method SwapDown(hand: array<Tile>, j: nat)
    requires 0 < j < hand.Length
    modifies hand
    ensures multiset(hand[..]) == multiset(old(hand[..]))
    ensures hand[j] == old(hand[j - 1]) && hand[j - 1] == old(hand[j])
    ensures forall k | 0 <= k < hand.Length && k != j && k != j - 1 :: hand[k] == old(hand[k])
  {
    hand[j], hand[j - 1] := hand[j - 1], hand[j];
  }

  // Insertion sort by swaps: the same tiles, none before a lesser one.
  method SortTiles(hand: array<Tile>)
    requires forall k | 0 <= k < hand.Length :: hand[k] != ""
    modifies hand
    ensures multiset(hand[..]) == multiset(old(hand[..]))
    ensures forall i, j | 0 <= i < j < hand.Length :: hand[i] != "" && hand[j] != "" && !Less(hand[j], hand[i])
  {
    var i := 1;
    while i < hand.Length
      invariant 1 <= i
      invariant multiset(hand[..]) == multiset(old(hand[..]))
      invariant forall k | 0 <= k < hand.Length :: hand[k] != ""
      invariant forall x, y | 0 <= x < y < i && y < hand.Length :: Key(hand[x]) <= Key(hand[y])
    {
      Insert(hand, i);
      i := i + 1;
    }
  }

  // The inner loop: one tile sinks to its place among the sorted ones before it.
  method Insert(hand: array<Tile>, i: nat)
    requires 1 <= i < hand.Length && forall k | 0 <= k < hand.Length :: hand[k] != ""
    requires forall x, y | 0 <= x < y < i :: Key(hand[x]) <= Key(hand[y])
    modifies hand
    ensures multiset(hand[..]) == multiset(old(hand[..]))
    ensures forall k | 0 <= k < hand.Length :: hand[k] != ""
    ensures forall x, y | 0 <= x < y <= i :: Key(hand[x]) <= Key(hand[y])
  {
    var j := i;
    while j > 0 && Less(hand[j], hand[j - 1])
      invariant 0 <= j <= i
      invariant multiset(hand[..]) == multiset(old(hand[..]))
      invariant forall k | 0 <= k < hand.Length :: hand[k] != ""
      invariant forall x, y | 0 <= x < y <= i && x != j && y != j :: Key(hand[x]) <= Key(hand[y])
      invariant forall y | j < y <= i :: Key(hand[j]) <= Key(hand[y])
    {
      SwapDown(hand, j);
      j := j - 1;
    }
  }
}
