/** Yaku made of runs (internal/game/yaku/yaku.go). */
module RunYaku {
  import opened Tiles
  import opened Search

  predicate Tiled(ms: seq<Mentsu>)
  {
    forall n | 0 <= n < |ms| :: ms[n].tile != ""
  }

  // The suits that have a run of the given rank.
  function SuitsAt(ms: seq<Mentsu>, rank: nat): set<char>
    requires Tiled(ms)
  {
    set n | 0 <= n < |ms| && ms[n].shuntsu && Rank(ms[n].tile) == rank :: Suit(ms[n].tile)
  }

  // Some rank has runs in three suits, neither more nor fewer.
  predicate Sanshoku(ms: seq<Mentsu>)
    requires Tiled(ms)
  {
    exists n :: 0 <= n < |ms| && |SuitsAt(ms, Rank(ms[n].tile))| == 3
  }

  lemma SuitsSnoc(ms: seq<Mentsu>, m: Mentsu, rank: nat)
    requires Tiled(ms) && m.tile != ""
    ensures Tiled(ms + [m])
    ensures SuitsAt(ms + [m], rank) == SuitsAt(ms, rank) + if m.shuntsu && Rank(m.tile) == rank then {Suit(m.tile)} else {}
  {
    var us := ms + [m];
    assert us[|ms|] == m && forall n | 0 <= n < |ms| :: us[n] == ms[n];
    forall suit | suit in SuitsAt(us, rank)
      ensures suit in SuitsAt(ms, rank) || (m.shuntsu && Rank(m.tile) == rank && suit == Suit(m.tile))
    {
      var n :| 0 <= n < |us| && us[n].shuntsu && Rank(us[n].tile) == rank && Suit(us[n].tile) == suit;
    }
    forall suit | suit in SuitsAt(ms, rank)
      ensures suit in SuitsAt(us, rank)
    {
      var n :| 0 <= n < |ms| && ms[n].shuntsu && Rank(ms[n].tile) == rank && Suit(ms[n].tile) == suit;
      assert us[n] == ms[n];
    }
  }

  // A list of suits without repetitions.
  ghost predicate Lists(suits: seq<char>, s: set<char>)
  {
    |suits| == |s| && forall c :: c in suits <==> c in s
  }

  method AddSuit(suits: seq<char>, suit: char, ghost s: set<char>) returns (out: seq<char>)
    requires Lists(suits, s)
    ensures Lists(out, s + {suit})
  {
    for j := 0 to |suits|
      invariant suit !in suits[..j]
    {
      if suits[j] == suit {
        assert s + {suit} == s;
        return suits;
      }
    }
    assert suits[..|suits|] == suits;
    return suits + [suit];
  }

  function Of(byRank: map<nat, seq<char>>, rank: nat): seq<char>
  {
    if rank in byRank then byRank[rank] else []
  }

  // The suits of every rank, each once.
  ghost predicate Grouped(byRank: map<nat, seq<char>>, ms: seq<Mentsu>)
    requires Tiled(ms)
  {
    forall rank: nat :: Lists(Of(byRank, rank), SuitsAt(ms, rank))
  }

  method Group(byRank: map<nat, seq<char>>, m: Mentsu, ghost ms: seq<Mentsu>) returns (out: map<nat, seq<char>>)
    requires Tiled(ms) && m.tile != "" && Grouped(byRank, ms)
    ensures Tiled(ms + [m]) && Grouped(out, ms + [m])
  {
    out := byRank;
    if m.shuntsu {
      var rank := Rank(m.tile);
      var suits := AddSuit(Of(byRank, rank), Suit(m.tile), SuitsAt(ms, rank));
      out := byRank[rank := suits];
    }
    forall rank: nat
      ensures Tiled(ms + [m]) && Lists(Of(out, rank), SuitsAt(ms + [m], rank))
    {
      SuitsSnoc(ms, m, rank);
    }
  }

  lemma GroupOfThree(byRank: map<nat, seq<char>>, ms: seq<Mentsu>)
    requires Tiled(ms) && Grouped(byRank, ms)
    ensures (exists rank :: rank in byRank && |byRank[rank]| == 3) <==> Sanshoku(ms)
  {
    if exists rank :: rank in byRank && |byRank[rank]| == 3 {
      var rank :| rank in byRank && |byRank[rank]| == 3;
      assert Lists(Of(byRank, rank), SuitsAt(ms, rank));
      var suit :| suit in SuitsAt(ms, rank);
      var n :| 0 <= n < |ms| && ms[n].shuntsu && Rank(ms[n].tile) == rank && Suit(ms[n].tile) == suit;
    }
    if Sanshoku(ms) {
      var n :| 0 <= n < |ms| && |SuitsAt(ms, Rank(ms[n].tile))| == 3;
      assert Lists(Of(byRank, Rank(ms[n].tile)), SuitsAt(ms, Rank(ms[n].tile)));
    }
  }

  // Groups the runs by rank, each suit once, and looks for a group of three.
  method SanshokuDoujun(ms: seq<Mentsu>) returns (yes: bool)
    requires Tiled(ms)
    ensures yes <==> Sanshoku(ms)
  {
    var byRank: map<nat, seq<char>> := map[];
    for n := 0 to |ms|
      invariant Grouped(byRank, ms[..n])
    {
      assert ms[..n + 1] == ms[..n] + [ms[n]];
      byRank := Group(byRank, ms[n], ms[..n]);
    }
    assert ms[..|ms|] == ms;
    GroupOfThree(byRank, ms);
    yes := AnyOfThree(byRank);
  }

  method AnyOfThree(byRank: map<nat, seq<char>>) returns (yes: bool)
    ensures yes <==> exists rank :: rank in byRank && |byRank[rank]| == 3
  {
    var rest := byRank.Keys;
    while rest != {}
      invariant rest <= byRank.Keys && forall rank | rank in byRank.Keys - rest :: |byRank[rank]| != 3
    {
      var rank :| rank in rest;
      if |byRank[rank]| == 3 { return true; }
      rest := rest - {rank};
    }
    return false;
  }

  predicate RunAt(ms: seq<Mentsu>, rank: nat, suit: char)
    requires Tiled(ms)
  {
    exists n :: 0 <= n < |ms| && ms[n].shuntsu && Rank(ms[n].tile) == rank && Suit(ms[n].tile) == suit
  }

  // Where runs are of the three number suits, the yaku says that one rank has a run in each.
  lemma SanshokuMeans(ms: seq<Mentsu>)
    requires Tiled(ms) && forall m | m in ms && m.shuntsu :: Suit(m.tile) in {'m', 'p', 's'}
    ensures Sanshoku(ms) <==> exists rank :: RunAt(ms, rank, 'm') && RunAt(ms, rank, 'p') && RunAt(ms, rank, 's')
  {
    forall rank: nat
      ensures |SuitsAt(ms, rank)| == 3 <==> RunAt(ms, rank, 'm') && RunAt(ms, rank, 'p') && RunAt(ms, rank, 's')
    {
      var s := SuitsAt(ms, rank);
      AllThree(s);
      assert forall suit :: suit in s <==> RunAt(ms, rank, suit);
    }
    if exists rank :: RunAt(ms, rank, 'm') && RunAt(ms, rank, 'p') && RunAt(ms, rank, 's') {
      var rank :| RunAt(ms, rank, 'm') && RunAt(ms, rank, 'p') && RunAt(ms, rank, 's');
      var n :| 0 <= n < |ms| && ms[n].shuntsu && Rank(ms[n].tile) == rank && Suit(ms[n].tile) == 'm';
      assert |SuitsAt(ms, Rank(ms[n].tile))| == 3;
    }
  }

  lemma AllThree(s: set<char>)
    requires s <= {'m', 'p', 's'}
    ensures |s| == 3 <==> 'm' in s && 'p' in s && 's' in s
  {
    var missing := {'m', 'p', 's'} - s;
    assert |missing| + |s| == 3 by {
      assert missing + s == {'m', 'p', 's'} && missing !! s;
    }
    if |s| == 3 {
      assert missing == {};
    }
  }

  // ---------- Straights ----------

  predicate HasRank(ms: seq<Mentsu>, rank: nat)
    requires Tiled(ms)
  {
    exists n :: 0 <= n < |ms| && ms[n].shuntsu && Rank(ms[n].tile) == rank
  }

  // Three flags, set in one pass.
  method Ittsu(ms: seq<Mentsu>) returns (yes: bool)
    requires Tiled(ms)
    ensures yes <==> HasRank(ms, 1) && HasRank(ms, 4) && HasRank(ms, 7)
  {
    var have123, have456, have789 := false, false, false;
    for n := 0 to |ms|
      invariant have123 <==> exists k :: 0 <= k < n && ms[k].shuntsu && Rank(ms[k].tile) == 1
      invariant have456 <==> exists k :: 0 <= k < n && ms[k].shuntsu && Rank(ms[k].tile) == 4
      invariant have789 <==> exists k :: 0 <= k < n && ms[k].shuntsu && Rank(ms[k].tile) == 7
    {
      if !ms[n].shuntsu { continue; }
      if Rank(ms[n].tile) == 1 { have123 := true; }
      if Rank(ms[n].tile) == 4 { have456 := true; }
      if Rank(ms[n].tile) == 7 { have789 := true; }
    }
    return have123 && have456 && have789;
  }
}
