/** What the listed yaku say about the tiles (internal/game/yaku/yaku.go, internal/game/yaku/score.go). */
module YakuMeanings {
  import opened Tiles
  import opened Decomposition
  import opened Search
  import opened Analysis
  import opened Score
  import opened Yaku
  import opened Flush
  import opened RunYaku
  import opened Fans
  import opened Dora
  import opened Table
  import opened WinCheck
  import opened Pricing

  // ---------- The sets of a result as kinds ----------

  function BlockOf(m: Mentsu): Block
    requires ShapedMeld(m)
  {
    TileAtOfIndex(m.tile);
    if m.shuntsu then Run(Index(m.tile)) else Triplet(Index(m.tile))
  }

  predicate Covers(m: Mentsu, k: nat)
    requires ShapedMeld(m)
  {
    Uses(BlockOf(m), k) > 0
  }

  lemma ConcealedShape(b: Block)
    requires IsBlock(b)
    ensures ShapedMeld(MeldOf(b)) && BlockOf(MeldOf(b)) == b && !MeldOf(b).open && MeldOf(b).n == 3
  {
    IndexOfTileAt(b.low);
  }

  // A standard result is made of a pair kind and of sets of kinds.
  predicate Shaped(r: Result, p: nat)
  {
    p < KINDS && r.pair == TileAt(p) && |r.melds| == 4 && forall n | 0 <= n < 4 :: ShapedMeld(r.melds[n])
  }

  lemma ShapedTiles(r: Result, p: nat)
    requires Shaped(r, p)
    ensures HasTiles(r) && Tiled(r.melds)
  {
    IndexOfTileAt(p);
    forall m | m in r.melds
      ensures |m.tile| > 0
    {
      var n :| 0 <= n < 4 && r.melds[n] == m;
    }
  }

  lemma ResultIsShaped(hand: seq<Tile>, open: seq<Mentsu>, r: Result) returns (p: nat)
    requires AllCountable(hand) && r in Decompositions(hand, open) && r != SPECIAL
    requires forall n | 0 <= n < |open| :: ShapedMeld(open[n])
    ensures Shaped(r, p)
    ensures forall n | 0 <= n < 4 :: r.melds[n] == if n < |open| then open[n] else MeldOf(BlockOf(r.melds[n]))
  {
    var bs;
    p, bs := AnalysisSound(hand, open, r);
    forall n | |open| <= n < 4
      ensures ShapedMeld(r.melds[n]) && r.melds[n] == MeldOf(BlockOf(r.melds[n]))
    {
      ConcealedShape(bs[n - |open|]);
    }
  }

  // ---------- Chanta and junchan ----------

  // Some kind of the set is a terminal, or an honor where those count.
  predicate Edged(m: Mentsu, jun: bool)
    requires ShapedMeld(m)
  {
    exists k :: 0 <= k < KINDS && Covers(m, k) && TerminalKind(k) && (jun ==> k < 27)
  }

  lemma EdgeOfMeld(m: Mentsu, jun: bool)
    requires ShapedMeld(m)
    ensures m.tile != ""
    ensures (if m.shuntsu then Rank(m.tile) == 1 || Rank(m.tile) == 7 else EdgeTile(m.tile, jun)) <==> Edged(m, jun)
  {
    SimpleIndex(m.tile);
    var i: nat := Index(m.tile);
    if m.shuntsu {
      assert Covers(m, i) && Covers(m, i + 2);
      assert TerminalKind(i) <==> i % 9 == 0;
      assert TerminalKind(i + 2) <==> i % 9 == 6;
    } else {
      assert Covers(m, i);
    }
  }

  // Chanta: the pair and every set have a terminal or honor. Junchan: each has a terminal.
  lemma ChantaMeans(r: Result, p: nat, jun: bool)
    requires Shaped(r, p)
    ensures HasTiles(r)
    ensures Chanta(r, jun) <==> TerminalKind(p) && (jun ==> p < 27) && forall n | 0 <= n < 4 :: Edged(r.melds[n], jun)
  {
    ShapedTiles(r, p);
    IndexOfTileAt(p);
    SimpleIndex(TileAt(p));
    forall n | 0 <= n < 4
      ensures (if r.melds[n].shuntsu then Rank(r.melds[n].tile) == 1 || Rank(r.melds[n].tile) == 7 else EdgeTile(r.melds[n].tile, jun))
        <==> Edged(r.melds[n], jun)
    {
      EdgeOfMeld(r.melds[n], jun);
      assert r.melds[n] in r.melds;
    }
    assert forall m :: m in r.melds <==> exists n :: 0 <= n < 4 && r.melds[n] == m;
  }

  // ---------- The names of a reported win ----------

  predicate ClaimsShaped(melds: seq<Meld>)
  {
    forall n | 0 <= n < |melds| :: ShapedMeld(OpenMeld(melds[n]))
  }

  // The names of an ordinary win, kind by kind.
  predicate Lists(yaku: seq<string>, r: Result, hand: seq<Tile>, c: Ctx)
    requires Priceable(r, hand, c)
  {
    forall y: Kind | !y.ValueTiles? :: NameOf(y, Closed(r.melds)) in yaku <==> Holds(y, r, hand, c)
  }

  // r is the priced result of an ordinary win, of pair kind p, and yaku its names.
  ghost predicate Reports(
    seat: nat, hand: seq<Tile>, melds: seq<Meld>, tsumo: bool, dora: seq<Indicator>, yaku: seq<string>, r: Result, p: nat)
  {
    && (var v := Judge(seat, hand, melds, tsumo, dora); v.Wins? && !v.yakuman && v.yaku == yaku)
    && AllCountable(hand) && Decompositions(hand, OpenMelds(melds)) != [] && r == Decompositions(hand, OpenMelds(melds))[0]
    && r != SPECIAL && Shaped(r, p) && HasTiles(r) && (Closed(r.melds) <==> melds == [])
  }

  lemma ReportedResult(seat: nat, hand: seq<Tile>, melds: seq<Meld>, tsumo: bool, dora: seq<Indicator>, yaku: seq<string>)
    returns (r: Result, p: nat)
    requires ClaimsShaped(melds)
    requires var v := Judge(seat, hand, melds, tsumo, dora); v.Wins? && !v.yakuman && v.yaku == yaku
    ensures Reports(seat, hand, melds, tsumo, dora, yaku, r, p)
  {
    r := PricedResult(seat, hand, melds, tsumo, dora);
    p := ResultIsShaped(hand, OpenMelds(melds), r);
  }

  lemma ReportsLists(
    seat: nat, hand: seq<Tile>, melds: seq<Meld>, tsumo: bool, dora: seq<Indicator>, yaku: seq<string>, r: Result, p: nat)
    requires Reports(seat, hand, melds, tsumo, dora, yaku, r, p)
    ensures Lists(yaku, r, hand, WinCtx(seat, tsumo, false))
  {
    forall y: Kind | !y.ValueTiles?
      ensures NameOf(y, Closed(r.melds)) in yaku <==> Holds(y, r, hand, WinCtx(seat, tsumo, false))
    {
      var r' := YakuExactly(y, seat, hand, melds, tsumo, dora);
    }
  }

  lemma Listed(y: Kind, yaku: seq<string>, r: Result, hand: seq<Tile>, c: Ctx)
    requires Priceable(r, hand, c) && Lists(yaku, r, hand, c) && !y.ValueTiles?
    ensures NameOf(y, Closed(r.melds)) in yaku <==> Holds(y, r, hand, c)
  {
  }

  // Tanyao is listed exactly when every tile, concealed or claimed, is a simple.
  lemma TanyaoListed(
    seat: nat, hand: seq<Tile>, melds: seq<Meld>, tsumo: bool, dora: seq<Indicator>, yaku: seq<string>, r: Result, p: nat)
    requires Reports(seat, hand, melds, tsumo, dora, yaku, r, p) && ClaimsShaped(melds) && CanonicalHand(hand)
    ensures (forall n | 0 <= n < |hand| :: hand[n] != "") && forall m | m in OpenMelds(melds) :: ShapedMeld(m)
    ensures "tanyao" in yaku <==> (forall n | 0 <= n < |hand| :: IsSimple(hand[n])) && forall m | m in OpenMelds(melds) :: AllSimple(m)
  {
    ReportsLists(seat, hand, melds, tsumo, dora, yaku, r, p);
    ClaimShapes(melds);
    TanyaoNamed(yaku, r, hand, WinCtx(seat, tsumo, false), OpenMelds(melds));
  }

  lemma TanyaoNamed(yaku: seq<string>, r: Result, hand: seq<Tile>, c: Ctx, open: seq<Mentsu>)
    requires Priceable(r, hand, c) && Lists(yaku, r, hand, c) && CanonicalHand(hand) && forall m | m in open :: ShapedMeld(m)
    requires r in Decompositions(hand, open) && r != SPECIAL
    ensures forall n | 0 <= n < |hand| :: hand[n] != ""
    ensures "tanyao" in yaku <==> (forall n | 0 <= n < |hand| :: IsSimple(hand[n])) && forall m | m in open :: AllSimple(m)
  {
    Listed(AllSimples, yaku, r, hand, c);
    TanyaoMeansAllSimples(hand, open, r);
  }

  lemma ClaimShapes(melds: seq<Meld>)
    requires ClaimsShaped(melds)
    ensures forall m | m in OpenMelds(melds) :: ShapedMeld(m)
  {
    forall m | m in OpenMelds(melds)
      ensures ShapedMeld(m)
    {
      var n :| 0 <= n < |melds| && OpenMelds(melds)[n] == m;
      assert ShapedMeld(OpenMeld(melds[n]));
    }
  }

  // Chanta and junchan are listed exactly when the pair and every set have an edge.
  lemma EdgesListed(
    seat: nat, hand: seq<Tile>, melds: seq<Meld>, tsumo: bool, dora: seq<Indicator>, yaku: seq<string>, r: Result, p: nat)
    requires Reports(seat, hand, melds, tsumo, dora, yaku, r, p)
    ensures "chanta" in yaku <==> TerminalKind(p) && forall n | 0 <= n < 4 :: Edged(r.melds[n], false)
    ensures "junchan" in yaku <==> TerminalKind(p) && p < 27 && forall n | 0 <= n < 4 :: Edged(r.melds[n], true)
  {
    ReportsLists(seat, hand, melds, tsumo, dora, yaku, r, p);
    EdgesNamed(yaku, r, p, hand, WinCtx(seat, tsumo, false));
  }

  lemma EdgesNamed(yaku: seq<string>, r: Result, p: nat, hand: seq<Tile>, c: Ctx)
    requires Shaped(r, p) && Priceable(r, hand, c) && Lists(yaku, r, hand, c)
    ensures "chanta" in yaku <==> TerminalKind(p) && forall n | 0 <= n < 4 :: Edged(r.melds[n], false)
    ensures "junchan" in yaku <==> TerminalKind(p) && p < 27 && forall n | 0 <= n < 4 :: Edged(r.melds[n], true)
  {
    Listed(Outside, yaku, r, hand, c);
    Listed(Junchan, yaku, r, hand, c);
    ChantaMeans(r, p, false);
    ChantaMeans(r, p, true);
  }

  // Chinitsu is listed for full flushes, and for a concealed number suit beside open sets of others.
  lemma ChinitsuListed(
    seat: nat, hand: seq<Tile>, melds: seq<Meld>, tsumo: bool, dora: seq<Indicator>, yaku: seq<string>, r: Result, p: nat)
    requires Reports(seat, hand, melds, tsumo, dora, yaku, r, p) && ClaimsShaped(melds) && CanonicalHand(hand)
    ensures (forall n | 0 <= n < |hand| :: hand[n] != "") && forall m | m in OpenMelds(melds) :: ShapedMeld(m) && m.tile != ""
    ensures "chinitsu" in yaku <==> FullFlush(hand, OpenMelds(melds)) || OffSuit(hand, OpenMelds(melds))
  {
    ReportsLists(seat, hand, melds, tsumo, dora, yaku, r, p);
    ClaimShapes(melds);
    ChinitsuNamed(yaku, r, hand, WinCtx(seat, tsumo, false), OpenMelds(melds));
  }

  lemma ChinitsuNamed(yaku: seq<string>, r: Result, hand: seq<Tile>, c: Ctx, open: seq<Mentsu>)
    requires Priceable(r, hand, c) && Lists(yaku, r, hand, c) && CanonicalHand(hand) && forall m | m in open :: ShapedMeld(m)
    requires r in Decompositions(hand, open) && r != SPECIAL
    ensures (forall n | 0 <= n < |hand| :: hand[n] != "") && forall m | m in open :: m.tile != ""
    ensures "chinitsu" in yaku <==> FullFlush(hand, open) || OffSuit(hand, open)
  {
    Listed(PureFlush, yaku, r, hand, c);
    ChinitsuExactly(hand, open, r);
  }

  // Menzen tsumo: a closed win on a draw. Toitoi: no set is a run. Ittsu: runs from one, four and
  // seven of whatever suits.
  lemma SetsListed(
    seat: nat, hand: seq<Tile>, melds: seq<Meld>, tsumo: bool, dora: seq<Indicator>, yaku: seq<string>, r: Result, p: nat)
    requires Reports(seat, hand, melds, tsumo, dora, yaku, r, p)
    ensures "menzenTsumo" in yaku <==> melds == [] && tsumo
    ensures "toitoi" in yaku <==> forall n | 0 <= n < 4 :: BlockOf(r.melds[n]).Triplet?
    ensures "ittsu" in yaku <==> RunFrom(r, 0) && RunFrom(r, 3) && RunFrom(r, 6)
  {
    ReportsLists(seat, hand, melds, tsumo, dora, yaku, r, p);
    SetsNamed(yaku, r, p, hand, WinCtx(seat, tsumo, false));
  }

  lemma SetsNamed(yaku: seq<string>, r: Result, p: nat, hand: seq<Tile>, c: Ctx)
    requires Shaped(r, p) && Priceable(r, hand, c) && Lists(yaku, r, hand, c)
    ensures "menzenTsumo" in yaku <==> Closed(r.melds) && c.zimo
    ensures "toitoi" in yaku <==> forall n | 0 <= n < 4 :: BlockOf(r.melds[n]).Triplet?
    ensures "ittsu" in yaku <==> RunFrom(r, 0) && RunFrom(r, 3) && RunFrom(r, 6)
  {
    Listed(MenzenTsumo, yaku, r, hand, c);
    Listed(Toitoi, yaku, r, hand, c);
    Listed(Straight, yaku, r, hand, c);
    NoRuns(r.melds);
    RunsByRank(r, p);
  }

  // A set of the result is a run whose low tile is n places up its suit.
  predicate RunFrom(r: Result, n: nat)
    requires |r.melds| == 4 && forall n | 0 <= n < 4 :: ShapedMeld(r.melds[n])
  {
    exists x :: 0 <= x < 4 && BlockOf(r.melds[x]).Run? && BlockOf(r.melds[x]).low % 9 == n
  }

  lemma {:induction false} NoRuns(ms: seq<Mentsu>)
    ensures Runs(ms) == 0 <==> forall n | 0 <= n < |ms| :: !ms[n].shuntsu
  {
    if ms != [] {
      NoRuns(ms[..|ms| - 1]);
    }
  }

  lemma RunsByRank(r: Result, p: nat)
    requires Shaped(r, p)
    ensures Tiled(r.melds)
    ensures (HasRank(r.melds, 1) <==> RunFrom(r, 0)) && (HasRank(r.melds, 4) <==> RunFrom(r, 3)) && (HasRank(r.melds, 7) <==> RunFrom(r, 6))
  {
    ShapedTiles(r, p);
    forall x | 0 <= x < 4
      ensures r.melds[x].shuntsu ==> Rank(r.melds[x].tile) == BlockOf(r.melds[x]).low % 9 + 1
    {
      SimpleIndex(r.melds[x].tile);
    }
  }

  // Sanshoku, closed or open by name: the same run in all three suits.
  lemma SanshokuListed(
    seat: nat, hand: seq<Tile>, melds: seq<Meld>, tsumo: bool, dora: seq<Indicator>, yaku: seq<string>, r: Result, p: nat)
    requires Reports(seat, hand, melds, tsumo, dora, yaku, r, p)
    ensures (if melds == [] then "sanshoku" else "sanshokuOpen") in yaku <==>
      exists i :: 0 <= i < 7 && HasRun(r, i) && HasRun(r, 9 + i) && HasRun(r, 18 + i)
  {
    ReportsLists(seat, hand, melds, tsumo, dora, yaku, r, p);
    SanshokuNamed(yaku, r, p, hand, WinCtx(seat, tsumo, false));
  }

  lemma SanshokuNamed(yaku: seq<string>, r: Result, p: nat, hand: seq<Tile>, c: Ctx)
    requires Shaped(r, p) && Priceable(r, hand, c) && Lists(yaku, r, hand, c)
    ensures (if Closed(r.melds) then "sanshoku" else "sanshokuOpen") in yaku <==>
      exists i :: 0 <= i < 7 && HasRun(r, i) && HasRun(r, 9 + i) && HasRun(r, 18 + i)
  {
    Listed(ThreeColours, yaku, r, hand, c);
    SameRuns(r, p);
  }

  predicate HasRun(r: Result, i: nat)
    requires |r.melds| == 4 && forall n | 0 <= n < 4 :: ShapedMeld(r.melds[n])
  {
    exists x :: 0 <= x < 4 && BlockOf(r.melds[x]) == Run(i)
  }

  lemma RunsOfSuit(r: Result, p: nat, i: nat)
    requires Shaped(r, p) && i < 7
    ensures Tiled(r.melds)
    ensures (RunAt(r.melds, i + 1, 'm') <==> HasRun(r, i)) && (RunAt(r.melds, i + 1, 'p') <==> HasRun(r, 9 + i))
    ensures RunAt(r.melds, i + 1, 's') <==> HasRun(r, 18 + i)
  {
    ShapedTiles(r, p);
    forall x | 0 <= x < 4
      ensures r.melds[x].shuntsu ==>
        var low := BlockOf(r.melds[x]).low;
        && Rank(r.melds[x].tile) == low % 9 + 1
        && Suit(r.melds[x].tile) == if low < 9 then 'm' else if low < 18 then 'p' else 's'
    {
      SimpleIndex(r.melds[x].tile);
    }
  }

  lemma RunRanks(r: Result, p: nat)
    requires Shaped(r, p)
    ensures Tiled(r.melds)
    ensures forall m | m in r.melds && m.shuntsu :: Suit(m.tile) in {'m', 'p', 's'}
    ensures forall rank, suit | RunAt(r.melds, rank, suit) :: 1 <= rank <= 7
  {
    ShapedTiles(r, p);
    forall x | 0 <= x < 4
      ensures r.melds[x].shuntsu ==> Suit(r.melds[x].tile) in {'m', 'p', 's'} && 1 <= Rank(r.melds[x].tile) <= 7
    {
      SimpleIndex(r.melds[x].tile);
    }
  }

  lemma SameRuns(r: Result, p: nat)
    requires Shaped(r, p)
    ensures Tiled(r.melds)
    ensures Sanshoku(r.melds) <==> exists i :: 0 <= i < 7 && HasRun(r, i) && HasRun(r, 9 + i) && HasRun(r, 18 + i)
  {
    RunRanks(r, p);
    SanshokuMeans(r.melds);
    if Sanshoku(r.melds) {
      var rank: nat :| RunAt(r.melds, rank, 'm') && RunAt(r.melds, rank, 'p') && RunAt(r.melds, rank, 's');
      RunsOfSuit(r, p, rank - 1);
    }
    if i: nat :| i < 7 && HasRun(r, i) && HasRun(r, 9 + i) && HasRun(r, 18 + i) {
      RunsOfSuit(r, p, i);
    }
  }

  // Riichi, double riichi and the fans of chance are never listed.
  lemma NeverListed(
    seat: nat, hand: seq<Tile>, melds: seq<Meld>, tsumo: bool, dora: seq<Indicator>, yaku: seq<string>, r: Result, p: nat)
    requires Reports(seat, hand, melds, tsumo, dora, yaku, r, p)
    ensures forall name | name in {"riichi", "daburi", "ippatsu", "rinshan", "chankan"} :: name !in yaku
  {
    ReportsLists(seat, hand, melds, tsumo, dora, yaku, r, p);
    NeverNamed(yaku, r, hand, WinCtx(seat, tsumo, false));
  }

  lemma NeverNamed(yaku: seq<string>, r: Result, hand: seq<Tile>, c: Ctx)
    requires Priceable(r, hand, c) && Lists(yaku, r, hand, c) && !c.riichi && !c.rinshan && !c.chankan
    ensures forall name | name in {"riichi", "daburi", "ippatsu", "rinshan", "chankan"} :: name !in yaku
  {
    Listed(Riichi, yaku, r, hand, c);
    Listed(Daburi, yaku, r, hand, c);
    Listed(Ippatsu, yaku, r, hand, c);
    Listed(Rinshan, yaku, r, hand, c);
    Listed(Chankan, yaku, r, hand, c);
  }

  // Of a result priced with other circumstances the names follow these: riichi or double riichi,
  // ippatsu beside either, and a win on a replacement tile or on another seat's kan.
  lemma LuckListed(r: Result, hand: seq<Tile>, c: Ctx, ys: seq<Kind>)
    requires Priceable(r, hand, c) && r.melds != [] && !FansOf(r, hand, c).yakuman && ys == ORDER
    ensures var names := Names(FansOf(r, hand, c).fans);
      && ("riichi" in names <==> c.riichi && !c.daburi) && ("daburi" in names <==> c.riichi && c.daburi)
      && ("ippatsu" in names <==> c.riichi && c.ippatsu)
      && ("rinshan" in names <==> c.rinshan) && ("chankan" in names <==> c.chankan)
  {
    OrdinaryFans(r, hand, c, ys);
    LuckNamed(r, hand, c, ys, Names(Collect(ys, r, hand, c)));
  }

  lemma LuckNamed(r: Result, hand: seq<Tile>, c: Ctx, ys: seq<Kind>, names: seq<string>)
    requires Priceable(r, hand, c) && ys == ORDER && names == Names(Collect(ys, r, hand, c))
    ensures ("riichi" in names <==> c.riichi && !c.daburi) && ("daburi" in names <==> c.riichi && c.daburi)
    ensures "ippatsu" in names <==> c.riichi && c.ippatsu
    ensures ("rinshan" in names <==> c.rinshan) && ("chankan" in names <==> c.chankan)
  {
    forall y: Kind | !y.ValueTiles?
      ensures NameOf(y, Closed(r.melds)) in names <==> Holds(y, r, hand, c)
    {
      var k := PlaceOf(y);
      ListedExactly(y, ys, r, hand, c);
    }
    LuckHolds(names, r, hand, c);
  }

  lemma LuckHolds(names: seq<string>, r: Result, hand: seq<Tile>, c: Ctx)
    requires Priceable(r, hand, c) && Lists(names, r, hand, c)
    ensures ("riichi" in names <==> c.riichi && !c.daburi) && ("daburi" in names <==> c.riichi && c.daburi)
    ensures "ippatsu" in names <==> c.riichi && c.ippatsu
    ensures ("rinshan" in names <==> c.rinshan) && ("chankan" in names <==> c.chankan)
  {
    Listed(Riichi, names, r, hand, c);
    Listed(Daburi, names, r, hand, c);
    Listed(Ippatsu, names, r, hand, c);
    Listed(Rinshan, names, r, hand, c);
    Listed(Chankan, names, r, hand, c);
  }

  lemma OrdinaryFans(r: Result, hand: seq<Tile>, c: Ctx, ys: seq<Kind>)
    requires Priceable(r, hand, c) && r.melds != [] && !FansOf(r, hand, c).yakuman && ys == ORDER
    ensures FansOf(r, hand, c).fans == Collect(ys, r, hand, c)
  {
  }

  // ---------- Value tiles ----------

  lemma {:induction false} DragonsFrom(ms: seq<Mentsu>, name: string)
    requires Tiled(ms)
    ensures name in Dragons(ms) <==> exists n :: 0 <= n < |ms| && name in DragonOf(ms[n])
  {
    if ms != [] {
      var k := |ms| - 1;
      DragonsFrom(ms[..k], name);
      if n :| 0 <= n < k && name in DragonOf(ms[..k][n]) {
        assert ms[n] == ms[..k][n];
      }
      if n :| 0 <= n < |ms| && name in DragonOf(ms[n]) {
        assert n == k || ms[..k][n] == ms[n];
      }
    }
  }

  lemma {:induction false} WindsFrom(ms: seq<Mentsu>, c: Ctx, name: string)
    requires Tiled(ms) && c.seatWind < 9 && c.roundWind < 9
    ensures name in Winds(ms, c) <==> exists n :: 0 <= n < |ms| && name in WindsOf(ms[n], c)
  {
    if ms != [] {
      var k := |ms| - 1;
      WindsFrom(ms[..k], c, name);
      if n :| 0 <= n < k && name in WindsOf(ms[..k][n], c) {
        assert ms[n] == ms[..k][n];
      }
      if n :| 0 <= n < |ms| && name in WindsOf(ms[n], c) {
        assert n == k || ms[..k][n] == ms[n];
      }
    }
  }

  lemma NotByOthers(name: string, y: Kind, r: Result, hand: seq<Tile>, c: Ctx)
    requires Priceable(r, hand, c) && name in VALUES && !y.ValueTiles?
    ensures name !in Names(FanOf(y, r, hand, c))
  {
    NameOfFan(y, r, hand, c);
    NoValueName(y, Closed(r.melds));
  }

  lemma ValueNamed(name: string, ys: seq<Kind>, r: Result, hand: seq<Tile>, c: Ctx)
    requires Priceable(r, hand, c) && name in VALUES && ys == ORDER
    ensures name in Names(Collect(ys, r, hand, c)) <==> name in Dragons(r.melds) || name in Winds(r.melds, c)
  {
    var k := PlaceOf(ValueTiles);
    ListedBySome(name, ys, r, hand, c);
    EachNames(Dragons(r.melds) + Winds(r.melds, c), name);
    forall n | 0 <= n < |ys| && ys[n] != ValueTiles
      ensures name !in Names(FanOf(ys[n], r, hand, c))
    {
      NotByOthers(name, ys[n], r, hand, c);
    }
  }

  predicate TripletOf(r: Result, t: Tile)
  {
    exists n :: 0 <= n < |r.melds| && !r.melds[n].shuntsu && r.melds[n].tile == t
  }

  // The four winds, by the seat counted from the first.
  const WINDS: seq<Tile> := ["1z", "2z", "3z", "4z"]

  lemma DragonIs(r: Result, name: string, t: Tile)
    requires HasTiles(r) && (name, t) in {("haku", "5z"), ("hatsu", "6z"), ("chun", "7z")}
    ensures Tiled(r.melds) && (name in Dragons(r.melds) <==> TripletOf(r, t))
  {
    DragonsFrom(r.melds, name);
    forall n | 0 <= n < |r.melds|
      ensures name in DragonOf(r.melds[n]) <==> !r.melds[n].shuntsu && r.melds[n].tile == t
    {
      OneValue(r.melds[n], Ctx(0, 0, false, false, false, false, false, false));
    }
  }

  lemma WindIs(r: Result, c: Ctx, name: string, t: Tile)
    requires HasTiles(r) && c.seatWind < 4 && c.roundWind == 0 && (name, t) in {("yakuhaiSeat", WINDS[c.seatWind]), ("yakuhaiRound", "1z")}
    ensures Tiled(r.melds) && (name in Winds(r.melds, c) <==> TripletOf(r, t))
  {
    WindsFrom(r.melds, c, name);
    forall n | 0 <= n < |r.melds|
      ensures name in WindsOf(r.melds[n], c) <==> !r.melds[n].shuntsu && r.melds[n].tile == t
    {
      OneValue(r.melds[n], c);
    }
  }

  lemma OneValue(m: Mentsu, c: Ctx)
    requires m.tile != "" && c.seatWind < 4 && c.roundWind == 0
    ensures "haku" in DragonOf(m) <==> !m.shuntsu && m.tile == "5z"
    ensures "hatsu" in DragonOf(m) <==> !m.shuntsu && m.tile == "6z"
    ensures "chun" in DragonOf(m) <==> !m.shuntsu && m.tile == "7z"
    ensures "yakuhaiSeat" in WindsOf(m, c) <==> !m.shuntsu && m.tile == WINDS[c.seatWind]
    ensures "yakuhaiRound" in WindsOf(m, c) <==> !m.shuntsu && m.tile == "1z"
  {
    assert WindTile(c.seatWind) == WINDS[c.seatWind] && WindTile(0) == "1z";
    assert IsHonor("5z") && IsHonor("6z") && IsHonor("7z") && IsHonor(WINDS[c.seatWind]) && IsHonor("1z");
  }

  // Value tiles are listed by the tile of a triplet, claimed or not: each dragon, the wind of the
  // seat, and east for the round.
  lemma ValuesListed(
    seat: nat, hand: seq<Tile>, melds: seq<Meld>, tsumo: bool, dora: seq<Indicator>, yaku: seq<string>, r: Result, p: nat)
    requires Reports(seat, hand, melds, tsumo, dora, yaku, r, p)
    ensures ("haku" in yaku <==> TripletOf(r, "5z")) && ("hatsu" in yaku <==> TripletOf(r, "6z")) && ("chun" in yaku <==> TripletOf(r, "7z"))
    ensures ("yakuhaiSeat" in yaku <==> TripletOf(r, WINDS[seat % 4])) && ("yakuhaiRound" in yaku <==> TripletOf(r, "1z"))
  {
    ReportedNames(seat, hand, melds, tsumo, dora, yaku, r, p);
    ValuesNamed(yaku, r, hand, WinCtx(seat, tsumo, false), ORDER);
  }

  // The names, one by one as collected, and dora if there is any.
  lemma ReportedNames(
    seat: nat, hand: seq<Tile>, melds: seq<Meld>, tsumo: bool, dora: seq<Indicator>, yaku: seq<string>, r: Result, p: nat)
    requires Reports(seat, hand, melds, tsumo, dora, yaku, r, p)
    ensures yaku == Names(Collect(ORDER, r, hand, WinCtx(seat, tsumo, false))) + if Reds(hand) + Marked(hand, dora) > 0 then ["dora"] else []
  {
    var r' := PricedResult(seat, hand, melds, tsumo, dora);
    PricedNames(r, seat, hand, tsumo, melds == [], dora);
  }

  lemma ValuesNamed(yaku: seq<string>, r: Result, hand: seq<Tile>, c: Ctx, ys: seq<Kind>)
    requires Priceable(r, hand, c) && c.seatWind < 4 && c.roundWind == 0 && ys == ORDER
    requires yaku == Names(Collect(ys, r, hand, c)) || yaku == Names(Collect(ys, r, hand, c)) + ["dora"]
    ensures ("haku" in yaku <==> TripletOf(r, "5z")) && ("hatsu" in yaku <==> TripletOf(r, "6z")) && ("chun" in yaku <==> TripletOf(r, "7z"))
    ensures ("yakuhaiSeat" in yaku <==> TripletOf(r, WINDS[c.seatWind])) && ("yakuhaiRound" in yaku <==> TripletOf(r, "1z"))
  {
    forall name | name in VALUES
      ensures name in yaku <==> name in Dragons(r.melds) || name in Winds(r.melds, c)
    {
      ValueNamed(name, ys, r, hand, c);
    }
    WindsAreNoDragons(r.melds, c);
    DragonsNamed(yaku, r);
    WindsNamed(yaku, r, c);
  }

  lemma DragonsNamed(yaku: seq<string>, r: Result)
    requires HasTiles(r) && forall name | name in {"haku", "hatsu", "chun"} :: name in yaku <==> name in Dragons(r.melds)
    ensures ("haku" in yaku <==> TripletOf(r, "5z")) && ("hatsu" in yaku <==> TripletOf(r, "6z")) && ("chun" in yaku <==> TripletOf(r, "7z"))
  {
    DragonIs(r, "haku", "5z");
    DragonIs(r, "hatsu", "6z");
    DragonIs(r, "chun", "7z");
  }

  lemma WindsNamed(yaku: seq<string>, r: Result, c: Ctx)
    requires HasTiles(r) && c.seatWind < 4 && c.roundWind == 0
    requires forall name | name in {"yakuhaiSeat", "yakuhaiRound"} :: name in yaku <==> name in Winds(r.melds, c)
    ensures ("yakuhaiSeat" in yaku <==> TripletOf(r, WINDS[c.seatWind])) && ("yakuhaiRound" in yaku <==> TripletOf(r, "1z"))
  {
    WindIs(r, c, "yakuhaiSeat", WINDS[c.seatWind]);
    WindIs(r, c, "yakuhaiRound", "1z");
  }

  lemma {:induction false} WindsAreNoDragons(ms: seq<Mentsu>, c: Ctx)
    requires Tiled(ms) && c.seatWind < 9 && c.roundWind < 9
    ensures forall name | name in Dragons(ms) :: name in {"haku", "hatsu", "chun"}
    ensures forall name | name in Winds(ms, c) :: name in {"yakuhaiSeat", "yakuhaiRound"}
  {
    if ms != [] {
      WindsAreNoDragons(ms[..|ms| - 1], c);
    }
  }

  // ---------- The fans add up ----------

  // What each name is worth, closed or open; dora are counted apart.
  function HanByName(name: string, closed: bool): nat
  {
    if name in {"riichi", "ippatsu", "menzenTsumo", "rinshan", "chankan", "pinfu", "tanyao"} then 1
    else if name in {"haku", "hatsu", "chun", "yakuhaiSeat", "yakuhaiRound", "sanshokuOpen"} then 1
    else if name in {"daburi", "toitoi", "sanshoku"} then 2
    else if name in {"chanta", "ittsu"} then (if closed then 2 else 1)
    else if name in {"junchan", "honitsu"} then (if closed then 3 else 2)
    else if name == "chinitsu" then (if closed then 6 else 5)
    else if name == "suuankou" then 13
    else 0
  }

  function HanOfNames(names: seq<string>, closed: bool): nat
  {
    if names == [] then 0 else HanOfNames(names[..|names| - 1], closed) + HanByName(names[|names| - 1], closed)
  }

  lemma OwnHan(y: Kind, closed: bool)
    requires !y.ValueTiles?
    ensures HanOf(y, closed) == HanByName(NameOf(y, closed), closed)
  {
  }

  lemma {:induction false} EachHan(names: seq<string>, closed: bool)
    requires forall name | name in names :: name in VALUES
    ensures forall n | 0 <= n < |Each(names)| :: Each(names)[n].han == HanByName(Each(names)[n].name, closed)
  {
    if names != [] {
      EachHan(names[..|names| - 1], closed);
      assert names[|names| - 1] in names;
    }
  }

  lemma FanHan(y: Kind, r: Result, hand: seq<Tile>, c: Ctx)
    requires Priceable(r, hand, c)
    ensures forall n | 0 <= n < |FanOf(y, r, hand, c)| :: FanOf(y, r, hand, c)[n].han == HanByName(FanOf(y, r, hand, c)[n].name, Closed(r.melds))
  {
    if y.ValueTiles? {
      WindsAreNoDragons(r.melds, c);
      EachHan(Dragons(r.melds) + Winds(r.melds, c), Closed(r.melds));
    } else {
      OwnHan(y, Closed(r.melds));
    }
  }

  lemma {:induction false} CollectHan(ys: seq<Kind>, r: Result, hand: seq<Tile>, c: Ctx)
    requires Priceable(r, hand, c)
    ensures forall n | 0 <= n < |Collect(ys, r, hand, c)| ::
      Collect(ys, r, hand, c)[n].han == HanByName(Collect(ys, r, hand, c)[n].name, Closed(r.melds))
  {
    if ys != [] {
      CollectHan(ys[..|ys| - 1], r, hand, c);
      FanHan(ys[|ys| - 1], r, hand, c);
    }
  }

  lemma {:induction false} TotalByNames(fans: seq<Fan>, closed: bool)
    requires forall n | 0 <= n < |fans| :: fans[n].han == HanByName(fans[n].name, closed)
    ensures Total(fans) == HanOfNames(Names(fans), closed)
  {
    if fans != [] {
      var k := |fans| - 1;
      TotalByNames(fans[..k], closed);
      assert Names(fans)[..k] == Names(fans[..k]);
    }
  }

  lemma DoraIsFree(names: seq<string>, closed: bool)
    ensures HanOfNames(names + ["dora"], closed) == HanOfNames(names, closed)
  {
    assert (names + ["dora"])[..|names|] == names;
  }

  // The han of a reported win is what its listed names are worth and one for every dora.
  lemma HanAddsUp(seat: nat, hand: seq<Tile>, melds: seq<Meld>, tsumo: bool, dora: seq<Indicator>)
    requires Judge(seat, hand, melds, tsumo, dora).Wins?
    ensures AllCountable(hand)
    ensures var v := Judge(seat, hand, melds, tsumo, dora); v.han == HanOfNames(v.yaku, melds == []) + DoraPairs(hand, dora)
  {
    var r := PricedResult(seat, hand, melds, tsumo, dora);
    DoraByPairs(hand, dora);
    if Judge(seat, hand, melds, tsumo, dora).yakuman {
      YakumanHan(seat, hand, melds, tsumo, dora, r);
    } else {
      OrdinaryHan(r, seat, hand, tsumo, melds == [], dora, ORDER);
    }
  }

  lemma OrdinaryHan(r: Result, seat: nat, hand: seq<Tile>, tsumo: bool, closed: bool, dora: seq<Indicator>, ys: seq<Kind>)
    requires HasTiles(r) && AllCountable(hand) && r.melds != [] && ys == ORDER && closed == Closed(r.melds)
    requires !Price(r, seat, hand, tsumo, closed, dora, false).yakuman
    ensures var v := Price(r, seat, hand, tsumo, closed, dora, false); v.han == HanOfNames(v.yaku, closed) + Reds(hand) + Marked(hand, dora)
  {
    PricedFans(r, seat, hand, tsumo, closed, dora, ys);
    CollectedHan(r, hand, WinCtx(seat, tsumo, false), ys);
  }

  // What an ordinary result is priced from.
  lemma PricedFans(r: Result, seat: nat, hand: seq<Tile>, tsumo: bool, closed: bool, dora: seq<Indicator>, ys: seq<Kind>)
    requires HasTiles(r) && AllCountable(hand) && r.melds != [] && ys == ORDER
    requires !Price(r, seat, hand, tsumo, closed, dora, false).yakuman
    ensures var v, fans := Price(r, seat, hand, tsumo, closed, dora, false), Collect(ys, r, hand, WinCtx(seat, tsumo, false));
      && v.han == Total(fans) + Reds(hand) + Marked(hand, dora)
      && (v.yaku == Names(fans) || v.yaku == Names(fans) + ["dora"])
  {
    PricedNames(r, seat, hand, tsumo, closed, dora);
    assert Names(Collect(ys, r, hand, WinCtx(seat, tsumo, false))) + [] == Names(Collect(ys, r, hand, WinCtx(seat, tsumo, false)));
  }

  lemma CollectedHan(r: Result, hand: seq<Tile>, c: Ctx, ys: seq<Kind>)
    requires Priceable(r, hand, c)
    ensures var fans := Collect(ys, r, hand, c);
      Total(fans) == HanOfNames(Names(fans), Closed(r.melds)) == HanOfNames(Names(fans) + ["dora"], Closed(r.melds))
  {
    var fans := Collect(ys, r, hand, c);
    CollectHan(ys, r, hand, c);
    TotalByNames(fans, Closed(r.melds));
    DoraIsFree(Names(fans), Closed(r.melds));
  }

  lemma YakumanHan(seat: nat, hand: seq<Tile>, melds: seq<Meld>, tsumo: bool, dora: seq<Indicator>, r: Result)
    requires Judge(seat, hand, melds, tsumo, dora).Wins? && Judge(seat, hand, melds, tsumo, dora).yakuman && AllCountable(hand)
    requires HasTiles(r) && |r.melds| == 4 && Judge(seat, hand, melds, tsumo, dora) == Price(r, seat, hand, tsumo, melds == [], dora, false)
    ensures var v := Judge(seat, hand, melds, tsumo, dora); v.han == HanOfNames(v.yaku, melds == []) + Reds(hand) + Marked(hand, dora)
  {
    YakumanNames(seat, hand, melds, tsumo, dora);
    YakumanPriced(FansOf(r, hand, WinCtx(seat, tsumo, false)), Judge(seat, hand, melds, tsumo, dora), melds == []);
  }

  lemma YakumanPriced(fr: FanResult, v: Verdict, closed: bool)
    requires v.Wins? && fr.total == 13 && |fr.fans| == 1 && v.yaku != [] && v.yaku[0] == "suuankou"
    requires v.yaku == Names(fr.fans) || v.yaku == Names(fr.fans) + ["dora"]
    ensures HanOfNames(v.yaku, closed) == fr.total
  {
    OneName("suuankou", closed);
    assert Names(fr.fans) == ["suuankou"];
    DoraIsFree(Names(fr.fans), closed);
  }

  lemma OneName(name: string, closed: bool)
    ensures HanOfNames([name], closed) == HanByName(name, closed)
  {
    assert [name][..0] == [];
  }

  // Seven pairs are worth two han and thirteen orphans are a yakuman, each alone.
  lemma SpecialsPriced(hand: seq<Tile>, c: Ctx)
    requires AllCountable(hand) && |hand| == 14 && (Orphans(Tally(hand)) || AllPairs(Tally(hand)))
    ensures FansOf(SPECIAL, hand, c)
      == if AllPairs(Tally(hand)) then FanResult([Fan("chiitoitsu", 2)], 2, false) else FanResult([Fan("kokushi", 13)], 13, true)
  {
  }

  // ---------- Fu ----------

  predicate AllShaped(ms: seq<Mentsu>)
  {
    forall n | 0 <= n < |ms| :: ShapedMeld(ms[n]) && ms[n].n == 3
  }

  // How many triplets are claimed or not, of terminals and honors or not.
  function Triplets(ms: seq<Mentsu>, claimed: bool, edge: bool): nat
    requires AllShaped(ms)
  {
    if ms == [] then 0
    else
      var m := ms[|ms| - 1];
      TileAtOfIndex(m.tile);
      Triplets(ms[..|ms| - 1], claimed, edge)
      + if !m.shuntsu && m.open == claimed && (TerminalKind(Index(m.tile)) <==> edge) then 1 else 0
  }

  lemma {:induction false} SetsFuByKind(ms: seq<Mentsu>)
    requires AllShaped(ms)
    ensures forall m | m in ms :: |m.tile| > 0
    ensures SetsFu(ms) == 2 * Triplets(ms, true, false) + 4 * Triplets(ms, true, true) + 4 * Triplets(ms, false, false) + 8 * Triplets(ms, false, true)
  {
    if ms != [] {
      SetsFuByKind(ms[..|ms| - 1]);
      SimpleIndex(ms[|ms| - 1].tile);
      SetFuByKind(ms[|ms| - 1]);
    }
  }

  lemma SetFuByKind(m: Mentsu)
    requires ShapedMeld(m)
    ensures |m.tile| > 0 && Index(m.tile) >= 0
    ensures SetFu(m) ==
      if m.shuntsu then 0 else (if TerminalKind(Index(m.tile)) then 4 else 2) * (if m.open then 1 else 2) * if m.n == 4 then 4 else 1
  {
    SimpleIndex(m.tile);
  }

  // Twenty, two for a draw, ten for a closed ron, two for a pair of honors, and for each triplet two,
  // doubled when it is of terminals or honors and doubled when it is concealed.
  function Raw(r: Result, p: nat, tsumo: bool, closed: bool): nat
    requires AllShaped(r.melds)
  {
    20 + (if tsumo then 2 else if closed then 10 else 0) + (if p >= 27 then 2 else 0)
    + 2 * Triplets(r.melds, true, false) + 4 * Triplets(r.melds, true, true)
    + 4 * Triplets(r.melds, false, false) + 8 * Triplets(r.melds, false, true)
  }

  lemma RawFuByKind(r: Result, p: nat, c: Ctx, closed: bool)
    requires Shaped(r, p) && AllShaped(r.melds) && c.seatWind < 4 && c.roundWind == 0
    ensures HasTiles(r) && RawFu(r, c, !c.zimo && closed) == Raw(r, p, c.zimo, closed)
  {
    ShapedTiles(r, p);
    IndexOfTileAt(p);
    SetsFuByKind(r.melds);
    WindsAreHonors(c.seatWind);
    WindsAreHonors(0);
  }

  lemma WindsAreHonors(w: nat)
    requires w < 4
    ensures IsHonor(WindTile(w))
  {
  }

  // The fu of a reported win are the least whole ten from there up.
  lemma FuExactly(seat: nat, hand: seq<Tile>, melds: seq<Meld>, tsumo: bool, dora: seq<Indicator>) returns (r: Result, p: nat)
    requires ClaimsShaped(melds) && Judge(seat, hand, melds, tsumo, dora).Wins?
    ensures AllCountable(hand) && Decompositions(hand, OpenMelds(melds)) != [] && r == Decompositions(hand, OpenMelds(melds))[0]
    ensures Shaped(r, p) && AllShaped(r.melds)
    ensures var fu, raw := Judge(seat, hand, melds, tsumo, dora).fu, Raw(r, p, tsumo, melds == []); fu % 10 == 0 && raw <= fu < raw + 10
  {
    r := PricedResult(seat, hand, melds, tsumo, dora);
    p := ResultIsShaped(hand, OpenMelds(melds), r);
    ThreeEach(r, OpenMelds(melds));
    PricedRaw(r, p, seat, hand, tsumo, melds == [], dora);
  }

  lemma ThreeEach(r: Result, open: seq<Mentsu>)
    requires |r.melds| == 4 && (forall n | 0 <= n < 4 :: ShapedMeld(r.melds[n])) && forall n | 0 <= n < |open| :: open[n].n == 3
    requires forall n | 0 <= n < 4 :: r.melds[n] == if n < |open| then open[n] else MeldOf(BlockOf(r.melds[n]))
    ensures AllShaped(r.melds)
  {
  }

  lemma PricedRaw(r: Result, p: nat, seat: nat, hand: seq<Tile>, tsumo: bool, closed: bool, dora: seq<Indicator>)
    requires Shaped(r, p) && AllShaped(r.melds) && HasTiles(r) && AllCountable(hand)
    ensures var fu, raw := Price(r, seat, hand, tsumo, closed, dora, false).fu, Raw(r, p, tsumo, closed); fu % 10 == 0 && raw <= fu < raw + 10
  {
    RawFuByKind(r, p, WinCtx(seat, tsumo, false), closed);
    TensUp(RawFu(r, WinCtx(seat, tsumo, false), !tsumo && closed));
  }
}
