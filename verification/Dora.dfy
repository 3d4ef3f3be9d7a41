/** Dora indicators (internal/game/yaku/dora.go, internal/game/yaku/tiles.go). */
module Dora {
  import opened Tiles

  type Indicator = t: Tile | t != "" witness "1m"

  // The tile one rank higher, back to the first of its suit after the last.
  function Next(t: Tile): (u: Tile)
    requires |t| > 0
    ensures |u| == 2
  {
    var n := Normal(t);
    var r := Rank(n);
    if IsHonor(n) then (if r == 7 then "1z" else [('1' as int + r) as char, 'z'])
    else if r == 9 then ['1', Suit(n)]
    else [('1' as int + r) as char, Suit(n)]
  }

  // On the 34 kinds Next is one cycle a suit; the honors are one cycle of seven.
  lemma NextCycles(t: Tile)
    requires Canonical(t)
    ensures Canonical(Next(t)) && !IsRed(Next(t))
    ensures var i := Index(t);
      Index(Next(t)) == if i == 8 then 0 else if i == 17 then 9 else if i == 26 then 18 else if i == 33 then 27 else i + 1
  {
  }

  function Reds(hand: seq<Tile>): nat
    requires AllCountable(hand)
  {
    if hand == [] then 0 else Reds(hand[..|hand| - 1]) + if IsRed(hand[|hand| - 1]) then 1 else 0
  }

  // How many tiles of the hand are the given one, the red mark aside.
  function Plain(hand: seq<Tile>, t: Tile): nat
    requires AllCountable(hand)
  {
    if hand == [] then 0 else Plain(hand[..|hand| - 1], t) + if Normal(hand[|hand| - 1]) == t then 1 else 0
  }

  // Indicator by indicator, the tiles it marks.
  function Marked(hand: seq<Tile>, inds: seq<Indicator>): nat
    requires AllCountable(hand)
  {
    if inds == [] then 0 else Marked(hand, inds[..|inds| - 1]) + Plain(hand, Next(inds[|inds| - 1]))
  }

  // How many indicators mark one tile.
  function Marks(t: Tile, inds: seq<Indicator>): nat
    requires |t| > 0
  {
    if inds == [] then 0 else Marks(t, inds[..|inds| - 1]) + if Normal(t) == Next(inds[|inds| - 1]) then 1 else 0
  }

  // Counting by tiles and counting by indicators come to the same.
  lemma {:induction false} MarkedSnoc(hand: seq<Tile>, t: Tile, inds: seq<Indicator>)
    requires AllCountable(hand) && Countable(t)
    ensures AllCountable(hand + [t]) && Marked(hand + [t], inds) == Marked(hand, inds) + Marks(t, inds)
  {
    if inds != [] {
      MarkedSnoc(hand, t, inds[..|inds| - 1]);
      assert (hand + [t])[..|hand|] == hand;
    }
  }

  lemma {:induction false} MarkedNone(inds: seq<Indicator>)
    ensures Marked([], inds) == 0
  {
    if inds != [] {
      MarkedNone(inds[..|inds| - 1]);
    }
  }

  // The inner loop: one for every indicator that marks the tile.
  method CountMarks(start: nat, t: Tile, inds: seq<Indicator>) returns (count: nat)
    requires |t| > 0
    ensures count == start + Marks(t, inds)
  {
    count := start;
    for j := 0 to |inds|
      invariant count == start + Marks(t, inds[..j])
    {
      assert inds[..j + 1][..j] == inds[..j];
      if Normal(t) == Next(inds[j]) { count := count + 1; }
    }
    assert inds[..|inds|] == inds;
  }

  // One for every red five, and one for every tile and indicator that marks it.
  method CountDora(hand: seq<Tile>, inds: seq<Indicator>) returns (count: nat)
    requires AllCountable(hand)
    ensures count == Reds(hand) + Marked(hand, inds)
  {
    count := 0;
    MarkedNone(inds);
    for n := 0 to |hand|
      invariant count == Reds(hand[..n]) + Marked(hand[..n], inds)
    {
      var t := hand[n];
      assert hand[..n + 1] == hand[..n] + [t];
      MarkedSnoc(hand[..n], t, inds);
      if IsRed(t) { count := count + 1; }
      count := CountMarks(count, t, inds);
    }
    assert hand[..|hand|] == hand;
  }

  // ---------- Dora as pairs of positions ----------

  function RedPlaces(hand: seq<Tile>): set<nat>
    requires AllCountable(hand)
  {
    set n: nat | n < |hand| && IsRed(hand[n])
  }

  // A tile and an indicator that marks it.
  function MarkedPlaces(hand: seq<Tile>, inds: seq<Indicator>): set<(nat, nat)>
    requires AllCountable(hand)
  {
    set n: nat, j: nat | n < |hand| && j < |inds| && Normal(hand[n]) == Next(inds[j]) :: (n, j)
  }

  // One for every red five, and one for every tile and indicator that belong together.
  function DoraPairs(hand: seq<Tile>, inds: seq<Indicator>): nat
    requires AllCountable(hand)
  {
    |RedPlaces(hand)| + |MarkedPlaces(hand, inds)|
  }

  function MarkPlaces(t: Tile, inds: seq<Indicator>): set<nat>
    requires |t| > 0
  {
    set j: nat | j < |inds| && Normal(t) == Next(inds[j])
  }

  lemma MarkPlacesStep(t: Tile, inds: seq<Indicator>, k: nat)
    requires |t| > 0 && |inds| == k + 1
    ensures MarkPlaces(t, inds) == MarkPlaces(t, inds[..k]) + if Normal(t) == Next(inds[k]) then {k} else {}
    ensures k !in MarkPlaces(t, inds[..k])
  {
    forall j: nat
      ensures j in MarkPlaces(t, inds) <==> j in MarkPlaces(t, inds[..k]) || (j == k && Normal(t) == Next(inds[k]))
    {
      if j < k { assert inds[..k][j] == inds[j]; }
    }
  }

  lemma {:induction false} MarksArePlaces(t: Tile, inds: seq<Indicator>)
    requires |t| > 0
    ensures Marks(t, inds) == |MarkPlaces(t, inds)|
  {
    if inds != [] {
      var k := |inds| - 1;
      MarksArePlaces(t, inds[..k]);
      MarkPlacesStep(t, inds, k);
    }
  }

  lemma RedPlacesStep(hand: seq<Tile>, k: nat)
    requires AllCountable(hand) && |hand| == k + 1
    ensures RedPlaces(hand) == RedPlaces(hand[..k]) + if IsRed(hand[k]) then {k} else {}
    ensures k !in RedPlaces(hand[..k])
  {
    forall n: nat
      ensures n in RedPlaces(hand) <==> n in RedPlaces(hand[..k]) || (n == k && IsRed(hand[k]))
    {
      if n < k { assert hand[..k][n] == hand[n]; }
    }
  }

  lemma {:induction false} RedsArePlaces(hand: seq<Tile>)
    requires AllCountable(hand)
    ensures Reds(hand) == |RedPlaces(hand)|
  {
    if hand != [] {
      var k := |hand| - 1;
      RedsArePlaces(hand[..k]);
      RedPlacesStep(hand, k);
    }
  }

  // One row of pairs for every tile.
  function Row(k: nat, js: set<nat>): set<(nat, nat)>
  {
    set j | j in js :: (k, j)
  }

  lemma {:induction false} RowSize(k: nat, js: set<nat>)
    ensures |Row(k, js)| == |js|
  {
    if js != {} {
      var j :| j in js;
      RowSize(k, js - {j});
      assert Row(k, js) == Row(k, js - {j}) + {(k, j)};
      assert (k, j) !in Row(k, js - {j});
    }
  }

  lemma MarkedPlacesStep(hand: seq<Tile>, inds: seq<Indicator>, k: nat)
    requires AllCountable(hand) && |hand| == k + 1
    ensures MarkedPlaces(hand, inds) == MarkedPlaces(hand[..k], inds) + Row(k, MarkPlaces(hand[k], inds))
    ensures MarkedPlaces(hand[..k], inds) !! Row(k, MarkPlaces(hand[k], inds))
  {
    forall n: nat, j: nat
      ensures (n, j) in MarkedPlaces(hand, inds) <==>
        (n, j) in MarkedPlaces(hand[..k], inds) || (n, j) in Row(k, MarkPlaces(hand[k], inds))
    {
      if n < k { assert hand[..k][n] == hand[n]; }
    }
  }

  lemma {:induction false} MarkedArePlaces(hand: seq<Tile>, inds: seq<Indicator>)
    requires AllCountable(hand)
    ensures Marked(hand, inds) == |MarkedPlaces(hand, inds)|
  {
    if hand == [] {
      MarkedNone(inds);
      assert MarkedPlaces(hand, inds) == {};
    } else {
      var k := |hand| - 1;
      MarkedArePlaces(hand[..k], inds);
      assert hand == hand[..k] + [hand[k]];
      MarkedSnoc(hand[..k], hand[k], inds);
      MarksArePlaces(hand[k], inds);
      RowSize(k, MarkPlaces(hand[k], inds));
      MarkedPlacesStep(hand, inds, k);
    }
  }

  lemma DoraByPairs(hand: seq<Tile>, inds: seq<Indicator>)
    requires AllCountable(hand)
    ensures Reds(hand) + Marked(hand, inds) == DoraPairs(hand, inds)
  {
    RedsArePlaces(hand);
    MarkedArePlaces(hand, inds);
  }
}
