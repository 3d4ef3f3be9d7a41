/** Building the deck and dealing it (internal/deal/random.go). */
module Deal {
  import opened Tiles
  import opened Table

  const DEAD_WALL: nat := 14
  const HAND: nat := 13
  const RANKS: nat := 9
  const HONORS: nat := 7

  function TileKind(n: nat, suit: char): Tile
    requires n <= 9
  {
    [('0' as int + n) as char, suit]
  }

  predicate SanmaDrops(t: Tile)
    requires |t| == 2
  {
    t[1] == 'm' && '2' <= t[0] <= '8'
  }

  // Which tiles a mode plays with: every plain tile, without the middle manzu at three players.
  predicate InMode(t: Tile, sanma: bool)
  {
    Canonical(t) && !IsRed(t) && !(sanma && SanmaDrops(t))
  }

  predicate InSuit(t: Tile, suit: char, n: nat)
    requires n <= 9
  {
    |t| == 2 && t[1] == suit && '1' <= t[0] && t[0] as int <= '0' as int + n
  }

  // One tile of each rank of a suit, 1 to n.
  function SuitKinds(suit: char, n: nat): (ks: seq<Tile>)
    requires n <= 9
    ensures |ks| == n && forall k | 0 <= k < n :: |ks[k]| == 2 && ks[k][1] == suit
  {
    if n == 0 then [] else SuitKinds(suit, n - 1) + [TileKind(n, suit)]
  }

  lemma CopiesAppend(a: seq<Tile>, b: seq<Tile>, t: Tile)
    ensures CopiesIn(a + b, t) == CopiesIn(a, t) + CopiesIn(b, t)
  {
  }

  lemma InSuitStep(t: Tile, suit: char, n: nat)
    requires 1 <= n <= 9
    ensures InSuit(t, suit, n) <==> InSuit(t, suit, n - 1) || t == TileKind(n, suit)
    ensures !InSuit(TileKind(n, suit), suit, n - 1)
  {
    if InSuit(t, suit, n) && t[0] == TileKind(n, suit)[0] { assert t == TileKind(n, suit); }
  }

  lemma {:induction false} SuitCopies(suit: char, n: nat, t: Tile)
    requires n <= 9
    ensures CopiesIn(SuitKinds(suit, n), t) == if InSuit(t, suit, n) then 1 else 0
  {
    if n > 0 {
      SuitCopies(suit, n - 1, t);
      InSuitStep(t, suit, n);
      CopiesAppend(SuitKinds(suit, n - 1), [TileKind(n, suit)], t);
    }
  }

  // The tiles the filter keeps, in order.
  function Kept(ks: seq<Tile>): seq<Tile>
    requires forall n | 0 <= n < |ks| :: |ks[n]| == 2
  {
    if ks == [] then []
    else Kept(ks[..|ks| - 1]) + if SanmaDrops(ks[|ks| - 1]) then [] else [ks[|ks| - 1]]
  }

  lemma {:induction false} KeptCopies(ks: seq<Tile>, t: Tile)
    requires forall n | 0 <= n < |ks| :: |ks[n]| == 2
    ensures CopiesIn(Kept(ks), t) == if |t| == 2 && SanmaDrops(t) then 0 else CopiesIn(ks, t)
  {
    if ks != [] {
      var k := |ks| - 1;
      KeptCopies(ks[..k], t);
      assert ks == ks[..k] + [ks[k]];
    }
  }

  lemma {:induction false} KeptAppend(a: seq<Tile>, b: seq<Tile>)
    requires forall n | 0 <= n < |a| :: |a[n]| == 2
    requires forall n | 0 <= n < |b| :: |b[n]| == 2
    ensures Kept(a + b) == Kept(a) + Kept(b)
  {
    if b == [] {
      assert a + b == a;
    } else {
      KeptAppend(a, b[..|b| - 1]);
      assert (a + b)[..|a + b| - 1] == a + b[..|b| - 1];
    }
  }

  // Of the manzu the one and the nine stay, of any other suit every tile.
  lemma {:induction false} KeptSuit(suit: char, n: nat)
    requires n <= 9
    ensures |Kept(SuitKinds(suit, n))| == if suit != 'm' then n else if n == 0 then 0 else if n < 9 then 1 else 2
    ensures forall k | 0 <= k < |Kept(SuitKinds(suit, n))| :: |Kept(SuitKinds(suit, n))[k]| == 2
  {
    if n > 0 {
      KeptSuit(suit, n - 1);
      assert SuitKinds(suit, n)[..n - 1] == SuitKinds(suit, n - 1);
    }
  }

  // The in-place filter: it writes kept tiles to the front of the slice it is still reading.
  method FilterInPlace(a: array<Tile>) returns (n: nat)
    requires forall k | 0 <= k < a.Length :: |a[k]| == 2
    modifies a
    ensures n <= a.Length && a[..n] == Kept(old(a[..]))
  {
    ghost var before := a[..];
    n := 0;
    for i := 0 to a.Length
      invariant n <= i && a[..n] == Kept(before[..i])
      invariant a[i..] == before[i..]
    {
      assert before[..i + 1][..i] == before[..i];
      assert a[i] == a[i..][0] == before[i];
      var t := a[i];
      assert a[i + 1..] == a[i..][1..] == before[i..][1..] == before[i + 1..];
      if !(t[1] == 'm' && '2' <= t[0] <= '8') {
        a[n] := t;
        assert a[..n + 1] == a[..n] + [t];
        n := n + 1;
      }
    }
    assert before[..a.Length] == before;
  }

  method AppendSuit(kinds: seq<Tile>, suit: char, n: nat) returns (out: seq<Tile>)
    requires n <= 9
    ensures out == kinds + SuitKinds(suit, n)
  {
    out := kinds;
    for k := 1 to n + 1
      invariant out == kinds + SuitKinds(suit, k - 1)
    {
      out := out + [TileKind(k, suit)];
    }
  }

  function Suited(): (ks: seq<Tile>)
    ensures forall n | 0 <= n < |ks| :: |ks[n]| == 2
  {
    SuitKinds('m', RANKS) + SuitKinds('p', RANKS) + SuitKinds('s', RANKS)
  }

  function Kinds(sanma: bool): seq<Tile>
  {
    (if sanma then Kept(Suited()) else Suited()) + SuitKinds('z', HONORS)
  }

  lemma KindsLength(sanma: bool)
    ensures |Kinds(sanma)| == if sanma then 27 else 34
  {
    var m, p, s := SuitKinds('m', RANKS), SuitKinds('p', RANKS), SuitKinds('s', RANKS);
    KeptAppend(m + p, s);
    KeptAppend(m, p);
    KeptSuit('m', RANKS);
    KeptSuit('p', RANKS);
    KeptSuit('s', RANKS);
  }

  lemma SuitedCopies(t: Tile)
    ensures CopiesIn(Suited(), t) == if InSuit(t, 'm', RANKS) || InSuit(t, 'p', RANKS) || InSuit(t, 's', RANKS) then 1 else 0
  {
    SuitCopies('m', RANKS, t);
    SuitCopies('p', RANKS, t);
    SuitCopies('s', RANKS, t);
    CopiesAppend(SuitKinds('m', RANKS) + SuitKinds('p', RANKS), SuitKinds('s', RANKS), t);
    CopiesAppend(SuitKinds('m', RANKS), SuitKinds('p', RANKS), t);
  }

  lemma KindsSum(ks: seq<Tile>, honors: seq<Tile>, t: Tile)
    requires forall n | 0 <= n < |ks| :: |ks[n]| == 2
    ensures CopiesIn(ks + honors, t) == CopiesIn(ks, t) + CopiesIn(honors, t)
    ensures CopiesIn(Kept(ks) + honors, t) == (if |t| == 2 && SanmaDrops(t) then 0 else CopiesIn(ks, t)) + CopiesIn(honors, t)
  {
    KeptCopies(ks, t);
    CopiesAppend(Kept(ks), honors, t);
    CopiesAppend(ks, honors, t);
  }

  lemma KindsCopies(sanma: bool, t: Tile)
    ensures CopiesIn(Kinds(sanma), t) == if InMode(t, sanma) then 1 else 0
  {
    KindsSum(Suited(), SuitKinds('z', HONORS), t);
    SuitedCopies(t);
    SuitCopies('z', HONORS, t);
    ModeBySuits(t, sanma);
  }

  lemma OneOfEachKind(kinds: seq<Tile>, sanma: bool)
    requires kinds == Kinds(sanma)
    ensures |kinds| == if sanma then 27 else 34
    ensures forall t :: CopiesIn(kinds, t) == if InMode(t, sanma) then 1 else 0
  {
    KindsLength(sanma);
    forall t ensures CopiesIn(kinds, t) == if InMode(t, sanma) then 1 else 0 { KindsCopies(sanma, t); }
  }

  method FourOfEach(kinds: seq<Tile>) returns (deck: seq<Tile>)
    ensures |deck| == 4 * |kinds|
    ensures forall t :: CopiesIn(deck, t) == 4 * CopiesIn(kinds, t)
  {
    deck := [];
    for k := 0 to |kinds|
      invariant |deck| == 4 * k
      invariant forall t :: CopiesIn(deck, t) == 4 * CopiesIn(kinds[..k], t)
    {
      assert kinds[..k + 1] == kinds[..k] + [kinds[k]];
      for i := 0 to 4
        invariant |deck| == 4 * k + i
        invariant forall t :: CopiesIn(deck, t) == 4 * CopiesIn(kinds[..k], t) + if t == kinds[k] then i else 0
      {
        deck := deck + [kinds[k]];
      }
    }
    assert kinds[..|kinds|] == kinds;
  }

  // The filtered slice shares its array with the one it filters.
  method DropMiddleManzu(kinds: seq<Tile>) returns (filtered: seq<Tile>)
    requires forall n | 0 <= n < |kinds| :: |kinds[n]| == 2
    ensures filtered == Kept(kinds)
  {
    var a := new Tile[|kinds|](i requires 0 <= i < |kinds| => kinds[i]);
    assert a[..] == kinds;
    var n := FilterInPlace(a);
    filtered := a[..n];
  }

  method BuildKinds(sanma: bool) returns (kinds: seq<Tile>)
    ensures kinds == Kinds(sanma)
  {
    kinds := [];
    kinds := AppendSuit(kinds, 'm', RANKS);
    kinds := AppendSuit(kinds, 'p', RANKS);
    kinds := AppendSuit(kinds, 's', RANKS);
    assert kinds == Suited();
    if sanma {
      kinds := DropMiddleManzu(kinds);
    }
    kinds := AppendSuit(kinds, 'z', HONORS);
  }

  // Every tile of the mode four times, and nothing else.
  method BuildDeck(sanma: bool) returns (deck: seq<Tile>)
    ensures |deck| == if sanma then 108 else 136
    ensures forall t :: CopiesIn(deck, t) == if InMode(t, sanma) then 4 else 0
  {
    var kinds := BuildKinds(sanma);
    OneOfEachKind(kinds, sanma);
    deck := FourOfEach(kinds);
  }

  lemma ModeBySuits(t: Tile, sanma: bool)
    ensures InMode(t, sanma) <==>
      || InSuit(t, 'z', HONORS)
      || ((InSuit(t, 'm', RANKS) || InSuit(t, 'p', RANKS) || InSuit(t, 's', RANKS)) && !(sanma && SanmaDrops(t)))
  {
  }

  // ---------- Shuffling and dealing ----------

  // rand.Shuffle swaps pairs of positions of its choice; any list of swaps stands for it.
  method Shuffle(deck: array<Tile>, swaps: seq<(nat, nat)>)
    requires forall s | s in swaps :: s.0 < deck.Length && s.1 < deck.Length
    modifies deck
    ensures forall t :: CopiesIn(deck[..], t) == old(CopiesIn(deck[..], t))
  {
    for k := 0 to |swaps|
      invariant multiset(deck[..]) == old(multiset(deck[..]))
    {
      var (i, j) := swaps[k];
      assert swaps[k] in swaps;
      deck[i], deck[j] := deck[j], deck[i];
    }
  }

  function Flat(hands: seq<seq<Tile>>): seq<Tile>
  {
    if hands == [] then [] else Flat(hands[..|hands| - 1]) + hands[|hands| - 1]
  }

  // The wall is the deck cut in order: hands, extra tile, draw stack, dead wall.
  predicate CutFrom(w: Wall, n: nat, deck: seq<Tile>)
  {
    && |w.hands| == n && (forall i | 0 <= i < n :: |w.hands[i]| == HAND)
    && |w.dead| == DEAD_WALL
    && Flat(w.hands) + [w.extra] + w.stack + w.dead == deck
  }

  // Deals an already shuffled deck; fewer tiles than hands, extra and dead wall need would panic.
  method DealOut(n: nat, deck: seq<Tile>) returns (w: Wall)
    requires HAND * n + 1 + DEAD_WALL <= |deck|
    ensures CutFrom(w, n, deck)
  {
    var drawCount := |deck| - DEAD_WALL;
    var hands: seq<seq<Tile>> := [];
    var k := 0;
    for i := 0 to n
      invariant k == HAND * i && |hands| == i
      invariant forall x | 0 <= x < i :: |hands[x]| == HAND
      invariant Flat(hands) == deck[..k]
    {
      var hand: seq<Tile> := [];
      ghost var start := k;
      for j := 0 to HAND
        invariant k == start + j && hand == deck[start..k]
      {
        hand := hand + [deck[k]];
        k := k + 1;
      }
      assert deck[..k] == deck[..start] + hand;
      assert (hands + [hand])[..i] == hands;
      hands := hands + [hand];
    }
    var extra := deck[k];
    k := k + 1;
    w := Wall(hands, extra, deck[k..drawCount], deck[drawCount..]);
    assert deck == deck[..k - 1] + [deck[k - 1]] + deck[k..drawCount] + deck[drawCount..];
  }

  lemma {:induction false} FlatAt(hands: seq<seq<Tile>>, i: nat, k: nat)
    requires i < |hands| && k < HAND && forall x | 0 <= x < |hands| :: |hands[x]| == HAND
    ensures |Flat(hands)| == HAND * |hands| && Flat(hands)[HAND * i + k] == hands[i][k]
  {
    FlatLength(hands);
    var n := |hands| - 1;
    if i < n {
      FlatAt(hands[..n], i, k);
      assert hands[..n][i] == hands[i];
    } else {
      FlatLength(hands[..n]);
    }
  }

  // Seat by seat thirteen tiles from the front, the extra tile next, the last fourteen set aside, and
  // what is between them to draw.
  lemma DealtInOrder(w: Wall, n: nat, deck: seq<Tile>, i: nat, k: nat)
    requires CutFrom(w, n, deck) && i < n && k < 13
    ensures |deck| == 13 * n + 1 + |w.stack| + 14
    ensures w.hands[i][k] == deck[13 * i + k] && w.extra == deck[13 * n]
    ensures w.stack == deck[13 * n + 1..|deck| - 14] && w.dead == deck[|deck| - 14..]
  {
    FlatAt(w.hands, i, k);
    assert deck == Flat(w.hands) + ([w.extra] + w.stack + w.dead);
    assert HAND * i + k < HAND * n;
    assert deck[HAND * n..] == [w.extra] + w.stack + w.dead;
  }

  function InWall(w: Wall, t: Tile): nat
  {
    CopiesIn(Flat(w.hands), t) + (if t == w.extra then 1 else 0) + CopiesIn(w.stack, t) + CopiesIn(w.dead, t)
  }

  // For every shuffle: thirteen tiles a seat, one extra, fourteen set aside, the rest to draw,
  // each tile of the mode exactly four times.
  method BuildShuffledWall(n: nat, sanma: bool, swaps: seq<(nat, nat)>) returns (w: Wall)
    requires HAND * n + 1 + DEAD_WALL <= if sanma then 108 else 136
    requires forall s | s in swaps :: s.0 < (if sanma then 108 else 136) && s.1 < (if sanma then 108 else 136)
    ensures |w.hands| == n && (forall i | 0 <= i < n :: |w.hands[i]| == HAND) && |w.dead| == DEAD_WALL
    ensures |w.stack| == (if sanma then 108 else 136) - DEAD_WALL - 1 - HAND * n
    ensures forall t :: InWall(w, t) == if InMode(t, sanma) then 4 else 0
  {
    var kinds := BuildDeck(sanma);
    var deck := new Tile[|kinds|](i requires 0 <= i < |kinds| => kinds[i]);
    assert deck[..] == kinds;
    Shuffle(deck, swaps);
    w := DealOut(n, deck[..]);
    FlatLength(w.hands);
    assert |deck[..]| == |Flat(w.hands)| + 1 + |w.stack| + |w.dead|;
    forall t ensures InWall(w, t) == CopiesIn(deck[..], t) { CutCopies(w, n, deck[..], t); }
  }

  lemma {:induction false} FlatLength(hands: seq<seq<Tile>>)
    requires forall i | 0 <= i < |hands| :: |hands[i]| == HAND
    ensures |Flat(hands)| == HAND * |hands|
  {
    if hands != [] {
      FlatLength(hands[..|hands| - 1]);
    }
  }

  lemma CutCopies(w: Wall, n: nat, deck: seq<Tile>, t: Tile)
    requires CutFrom(w, n, deck)
    ensures InWall(w, t) == CopiesIn(deck, t)
  {
    assert multiset(deck) == multiset(Flat(w.hands)) + multiset{w.extra} + multiset(w.stack) + multiset(w.dead);
  }
}
