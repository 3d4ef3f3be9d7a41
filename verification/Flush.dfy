/** The one-suit hands (internal/game/yaku/yaku.go). */
module Flush {
  import opened Tiles
  import opened Decomposition
  import opened Search
  import opened Analysis
  import opened Score
  import opened Yaku

  // Every number tile is of one suit.
  predicate OneSuit(ts: seq<Tile>)
    requires forall n | 0 <= n < |ts| :: ts[n] != ""
  {
    forall i, j | 0 <= i < |ts| && 0 <= j < |ts| && !IsHonor(ts[i]) && !IsHonor(ts[j]) :: Suit(ts[i]) == Suit(ts[j])
  }

  predicate HasHonor(ts: seq<Tile>)
    requires forall n | 0 <= n < |ts| :: ts[n] != ""
  {
    exists i :: 0 <= i < |ts| && IsHonor(ts[i])
  }

  // The suits of the number tiles.
  function SuitsOf(ts: seq<Tile>): set<char>
    requires forall n | 0 <= n < |ts| :: ts[n] != ""
  {
    set i | 0 <= i < |ts| && !IsHonor(ts[i]) :: Suit(ts[i])
  }

  lemma OneSuitBySet(ts: seq<Tile>)
    requires forall n | 0 <= n < |ts| :: ts[n] != ""
    ensures OneSuit(ts) <==> |SuitsOf(ts)| <= 1
  {
    var suits := SuitsOf(ts);
    if |suits| <= 1 {
      forall c, d | c in suits && d in suits
        ensures c == d
      {
        AtMostOne(suits, c, d);
      }
      forall i, j | 0 <= i < |ts| && 0 <= j < |ts| && !IsHonor(ts[i]) && !IsHonor(ts[j])
        ensures Suit(ts[i]) == Suit(ts[j])
      {
        assert Suit(ts[i]) in suits && Suit(ts[j]) in suits;
      }
    }
    if OneSuit(ts) && suits != {} {
      var c :| c in suits;
      assert suits == {c};
    }
  }

  lemma AtMostOne(suits: set<char>, c: char, d: char)
    requires |suits| <= 1 && c in suits && d in suits
    ensures c == d
  {
    assert |suits - {c}| == |suits| - 1;
    assert suits - {c} == {};
    assert d !in suits - {c};
  }

  // Tallies the suits, then compares the largest tally with their sum.
  method Honitsu(hand: seq<Tile>) returns (yes: bool)
    requires forall n | 0 <= n < |hand| :: hand[n] != ""
    ensures yes <==> HasHonor(hand) && OneSuit(hand)
  {
    var honors, suits := TallySuits(hand);
    var largest, total := LargestAndSum(suits);
    OneSuitBySet(hand);
    return honors > 0 && largest == total;
  }

  // The largest tally is all of the sum exactly when there is at most one.
  method LargestAndSum(suits: map<char, nat>) returns (largest: nat, total: nat)
    requires forall c | c in suits :: suits[c] > 0
    ensures largest == total <==> |suits.Keys| <= 1
  {
    largest, total := 0, 0;
    var rest := suits.Keys;
    ghost var seen: set<char> := {};
    while rest != {}
      invariant rest <= suits.Keys && seen == suits.Keys - rest
      invariant largest <= total && (seen != {} ==> largest > 0) && (seen == {} ==> total == 0)
      invariant largest == total <==> |seen| <= 1
    {
      var c :| c in rest;
      rest := rest - {c};
      seen := seen + {c};
      if suits[c] > largest {
        largest := suits[c];
      }
      total := total + suits[c];
    }
    assert seen == suits.Keys;
  }

  method TallySuits(hand: seq<Tile>) returns (honors: nat, suits: map<char, nat>)
    requires forall n | 0 <= n < |hand| :: hand[n] != ""
    ensures honors > 0 <==> HasHonor(hand)
    ensures suits.Keys == SuitsOf(hand) && forall c | c in suits :: suits[c] > 0
  {
    honors, suits := 0, map[];
    for i := 0 to |hand|
      invariant honors > 0 <==> HasHonor(hand[..i])
      invariant suits.Keys == SuitsOf(hand[..i]) && forall c | c in suits :: suits[c] > 0
    {
      var t := hand[i];
      assert hand[..i + 1] == hand[..i] + [t];
      if IsHonor(t) {
        honors := honors + 1;
        assert HasHonor(hand[..i + 1]) by { assert hand[..i + 1][i] == t; }
        assert SuitsOf(hand[..i + 1]) == SuitsOf(hand[..i]);
      } else {
        suits := suits[Suit(t) := 1 + if Suit(t) in suits then suits[Suit(t)] else 0];
        AddsSuit(hand[..i], t);
      }
    }
    assert hand[..|hand|] == hand;
  }

  lemma AddsSuit(ts: seq<Tile>, t: Tile)
    requires (forall n | 0 <= n < |ts| :: ts[n] != "") && t != "" && !IsHonor(t)
    ensures SuitsOf(ts + [t]) == SuitsOf(ts) + {Suit(t)} && (HasHonor(ts + [t]) <==> HasHonor(ts))
  {
    var us := ts + [t];
    assert forall n | 0 <= n < |ts| :: us[n] == ts[n];
    assert us[|ts|] == t;
  }

  // The tiles the open sets are named by: one of each triplet, the low one of each run.
  function NamesOf(open: seq<Mentsu>): (ts: seq<Tile>)
    ensures |ts| == |open|
  {
    seq(|open|, n requires 0 <= n < |open| => open[n].tile)
  }

  // An open set of a number suit that a concealed tile or another open set is not of.
  predicate Clash(hand: seq<Tile>, open: seq<Mentsu>)
    requires (forall n | 0 <= n < |hand| :: hand[n] != "") && forall n | 0 <= n < |open| :: open[n].tile != ""
  {
    exists i :: 0 <= i < |open| && !IsHonor(open[i].tile) &&
      (|| (exists j :: 0 <= j < |hand| && !IsHonor(hand[j]) && Suit(hand[j]) != Suit(open[i].tile))
       || (exists j :: 0 <= j < |open| && !IsHonor(open[j].tile) && Suit(open[j].tile) != Suit(open[i].tile)))
  }

  lemma WholeOneSuit(hand: seq<Tile>, open: seq<Mentsu>)
    requires (forall n | 0 <= n < |hand| :: hand[n] != "") && forall n | 0 <= n < |open| :: open[n].tile != ""
    ensures forall n | 0 <= n < |hand + NamesOf(open)| :: (hand + NamesOf(open))[n] != ""
    ensures OneSuit(hand + NamesOf(open)) <==> OneSuit(hand) && !Clash(hand, open)
    ensures HasHonor(hand + NamesOf(open)) <==> HasHonor(hand) || exists i :: 0 <= i < |open| && IsHonor(open[i].tile)
  {
    var whole := hand + NamesOf(open);
    assert forall n | 0 <= n < |hand| :: whole[n] == hand[n];
    assert forall n | 0 <= n < |open| :: whole[|hand| + n] == open[n].tile;
    forall n | 0 <= n < |whole|
      ensures whole[n] != "" && (n < |hand| || whole[n] == open[n - |hand|].tile)
    {
    }
  }

  // Honitsu looks at the concealed tiles only. It says what it would say of the whole hand, open
  // sets included, exactly unless an open set clashes with a suit it has accepted, or the only
  // honors are in open sets.
  lemma HonitsuExactly(hand: seq<Tile>, open: seq<Mentsu>)
    requires (forall n | 0 <= n < |hand| :: hand[n] != "") && forall n | 0 <= n < |open| :: open[n].tile != ""
    ensures var whole := hand + NamesOf(open);
      && (forall n | 0 <= n < |whole| :: whole[n] != "")
      && ((HasHonor(hand) && OneSuit(hand) <==> HasHonor(whole) && OneSuit(whole)) <==>
          && !(HasHonor(hand) && OneSuit(hand) && Clash(hand, open))
          && !(!HasHonor(hand) && OneSuit(hand) && !Clash(hand, open) && exists i :: 0 <= i < |open| && IsHonor(open[i].tile)))
  {
    WholeOneSuit(hand, open);
  }

  // ---------- One suit and no honors ----------

  predicate NumbersOf(ts: seq<Tile>, suit: char)
    requires forall n | 0 <= n < |ts| :: ts[n] != ""
  {
    forall n | 0 <= n < |ts| :: !IsHonor(ts[n]) && Suit(ts[n]) == suit
  }

  method Chinitsu(r: Result, hand: seq<Tile>) returns (yes: bool)
    requires (forall n | 0 <= n < |hand| :: hand[n] != "") && forall m | m in r.melds :: m.tile != ""
    ensures yes <==> OneNumberSuit(r, hand)
  {
    if |hand| == 0 {
      return false;
    }
    var suit := Suit(hand[0]);
    for i := 0 to |r.melds|
      invariant forall n | 0 <= n < i :: !IsHonor(r.melds[n].tile)
    {
      if IsHonor(r.melds[i].tile) { return false; }
    }
    for i := 0 to |hand|
      invariant forall n | 0 <= n < i :: !IsHonor(hand[n]) && Suit(hand[n]) == suit
    {
      if IsHonor(hand[i]) || Suit(hand[i]) != suit { return false; }
    }
    return true;
  }

  // What chinitsu finds: the concealed tiles make up one number suit, and no set is of honors.
  predicate OneNumberSuit(r: Result, hand: seq<Tile>)
    requires (forall n | 0 <= n < |hand| :: hand[n] != "") && forall m | m in r.melds :: m.tile != ""
  {
    && hand != [] && NumbersOf(hand, Suit(hand[0]))
    && forall m | m in r.melds :: !IsHonor(m.tile)
  }

  // The whole hand, open sets included, is of one number suit.
  predicate FullFlush(hand: seq<Tile>, open: seq<Mentsu>)
    requires (forall n | 0 <= n < |hand| :: hand[n] != "") && forall m | m in open :: ShapedMeld(m)
  {
    && hand != [] && NumbersOf(hand, Suit(hand[0]))
    && forall m | m in open :: m.tile != "" && !IsHonor(m.tile) && Suit(m.tile) == Suit(hand[0])
  }

  // The concealed tiles make up one number suit, and an open set belongs to another.
  predicate OffSuit(hand: seq<Tile>, open: seq<Mentsu>)
    requires (forall n | 0 <= n < |hand| :: hand[n] != "") && forall m | m in open :: m.tile != ""
  {
    && hand != [] && NumbersOf(hand, Suit(hand[0]))
    && (forall m | m in open :: !IsHonor(m.tile))
    && exists m :: m in open && Suit(m.tile) != Suit(hand[0])
  }

  // A concealed set of a hand of number tiles is of number tiles.
  lemma ConcealedNumbers(hand: seq<Tile>, d: Counts, bs: seq<Block>, m: Mentsu)
    requires CanonicalHand(hand) && AllCountable(hand) && (forall n | 0 <= n < |hand| :: hand[n] != "" && !IsHonor(hand[n]))
    requires Partition(d, bs) && (forall k | 0 <= k < KINDS :: d[k] <= Tally(hand)[k]) && m in Melds(bs)
    ensures m.tile != "" && !IsHonor(m.tile)
  {
    var n :| 0 <= n < |bs| && Melds(bs)[n] == m;
    var k := bs[n].low;
    TakeOut(d, bs, n);
    assert Uses(bs[n], k) > 0;
    var x := HeldWitness(hand, k);
    SimpleIndex(hand[x]);
    IndexOfTileAt(k);
  }

  // On every standard result of Analyze chinitsu finds the full flushes, and one family more:
  // it never compares the suit of an open set.
  lemma ChinitsuExactly(hand: seq<Tile>, open: seq<Mentsu>, r: Result)
    requires CanonicalHand(hand) && forall m | m in open :: ShapedMeld(m)
    requires AllCountable(hand) && r in Decompositions(hand, open) && r != SPECIAL
    ensures HasTiles(r) && (forall n | 0 <= n < |hand| :: hand[n] != "") && forall m | m in open :: m.tile != ""
    ensures OneNumberSuit(r, hand) <==> FullFlush(hand, open) || OffSuit(hand, open)
    ensures !(FullFlush(hand, open) && OffSuit(hand, open))
  {
    var p, bs := AnalysisSound(hand, open, r);
    ResultHasTiles(open, p, bs);
    if forall n | 0 <= n < |hand| :: !IsHonor(hand[n]) {
      forall m | m in Melds(bs)
        ensures m.tile != "" && !IsHonor(m.tile)
      {
        ConcealedNumbers(hand, TakePair(Tally(hand), p), bs, m);
      }
    }
    var x := HeldWitness(hand, p);
    assert forall m :: m in r.melds <==> m in open || m in Melds(bs);
  }
}
