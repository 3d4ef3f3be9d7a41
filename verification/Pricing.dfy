/** What a reported win says (internal/game/engine/win.go, internal/game/yaku/yaku.go). */
module Pricing {
  import opened Basics
  import opened Tiles
  import opened Decomposition
  import opened Search
  import opened Analysis
  import opened Coverage
  import opened Score
  import opened Yaku
  import opened Flush
  import opened RunYaku
  import opened Fans
  import opened Dora
  import opened Table
  import opened WinCheck
  import opened TurnSpec

  // ---------- Which names are listed ----------

  lemma NamesAppend(a: seq<Fan>, b: seq<Fan>, name: string)
    ensures name in Names(a + b) <==> name in Names(a) || name in Names(b)
  {
    var ns := Names(a + b);
    assert ns == Names(a) + Names(b);
  }

  lemma {:induction false} ListedBySome(name: string, ys: seq<Kind>, r: Result, hand: seq<Tile>, c: Ctx)
    requires Priceable(r, hand, c)
    ensures name in Names(Collect(ys, r, hand, c)) <==> exists k :: 0 <= k < |ys| && name in Names(FanOf(ys[k], r, hand, c))
  {
    if ys != [] {
      var n := |ys| - 1;
      ListedBySome(name, ys[..n], r, hand, c);
      NamesAppend(Collect(ys[..n], r, hand, c), FanOf(ys[n], r, hand, c), name);
      if exists k :: 0 <= k < n && name in Names(FanOf(ys[..n][k], r, hand, c)) {
        var k :| 0 <= k < n && name in Names(FanOf(ys[..n][k], r, hand, c));
        assert ys[k] == ys[..n][k];
      }
      if exists k :: 0 <= k < |ys| && name in Names(FanOf(ys[k], r, hand, c)) {
        var k :| 0 <= k < |ys| && name in Names(FanOf(ys[k], r, hand, c));
        assert k == n || ys[..n][k] == ys[k];
      }
    }
  }

  const VALUES: set<string> := {"haku", "hatsu", "chun", "yakuhaiSeat", "yakuhaiRound"}

  lemma {:induction false} ValueNames(ms: seq<Mentsu>, c: Ctx, name: string)
    requires Tiled(ms) && c.seatWind < 9 && c.roundWind < 9
    ensures name in Dragons(ms) || name in Winds(ms, c) ==> name in VALUES
  {
    if ms != [] {
      ValueNames(ms[..|ms| - 1], c, name);
    }
  }

  lemma {:induction false} EachNames(names: seq<string>, name: string)
    ensures name in Names(Each(names)) <==> name in names
  {
    if names != [] {
      var n := |names| - 1;
      EachNames(names[..n], name);
      NamesAppend(Each(names[..n]), [Fan(names[n], 1)], name);
      assert Names([Fan(names[n], 1)]) == [names[n]];
    }
  }

  lemma NamesDiffer(y: Kind, z: Kind, closed: bool)
    requires !y.ValueTiles? && !z.ValueTiles? && NameOf(y, closed) == NameOf(z, closed)
    ensures y == z
  {
  }

  lemma NoValueName(y: Kind, closed: bool)
    requires !y.ValueTiles?
    ensures NameOf(y, closed) !in VALUES && NameOf(y, closed) != "dora"
  {
  }

  lemma NotByValues(y: Kind, r: Result, hand: seq<Tile>, c: Ctx)
    requires Priceable(r, hand, c) && !y.ValueTiles?
    ensures NameOf(y, Closed(r.melds)) !in Names(FanOf(ValueTiles, r, hand, c))
  {
    var name := NameOf(y, Closed(r.melds));
    NoValueName(y, Closed(r.melds));
    EachNames(Dragons(r.melds) + Winds(r.melds, c), name);
    ValueNames(r.melds, c, name);
  }

  lemma NameOfFan(z: Kind, r: Result, hand: seq<Tile>, c: Ctx)
    requires Priceable(r, hand, c) && !z.ValueTiles?
    ensures Names(FanOf(z, r, hand, c)) == if Holds(z, r, hand, c) then [NameOf(z, Closed(r.melds))] else []
  {
  }

  lemma NamedByOwnFan(y: Kind, z: Kind, r: Result, hand: seq<Tile>, c: Ctx)
    requires Priceable(r, hand, c) && !y.ValueTiles?
    ensures NameOf(y, Closed(r.melds)) in Names(FanOf(z, r, hand, c)) <==> y == z && Holds(y, r, hand, c)
  {
    if z.ValueTiles? {
      NotByValues(y, r, hand, c);
    } else {
      NameOfFan(z, r, hand, c);
      if NameOf(y, Closed(r.melds)) == NameOf(z, Closed(r.melds)) {
        NamesDiffer(y, z, Closed(r.melds));
      }
    }
  }

  lemma PlaceOf(y: Kind) returns (k: nat)
    ensures k < |ORDER| && ORDER[k] == y
  {
    k := match y
      case Daburi => 0 case Riichi => 1 case Ippatsu => 2 case MenzenTsumo => 3 case Rinshan => 4 case Chankan => 5
      case Pinfu => 6 case AllSimples => 7 case ValueTiles => 8 case Toitoi => 9 case Outside => 10 case Junchan => 11
      case HalfFlush => 12 case PureFlush => 13 case ThreeColours => 14 case Straight => 15;
  }

  lemma ListedExactly(y: Kind, ys: seq<Kind>, r: Result, hand: seq<Tile>, c: Ctx)
    requires Priceable(r, hand, c) && !y.ValueTiles? && y in ys
    ensures NameOf(y, Closed(r.melds)) in Names(Collect(ys, r, hand, c)) <==> Holds(y, r, hand, c)
  {
    var name := NameOf(y, Closed(r.melds));
    ListedBySome(name, ys, r, hand, c);
    forall k | 0 <= k < |ys|
      ensures name in Names(FanOf(ys[k], r, hand, c)) <==> y == ys[k] && Holds(y, r, hand, c)
    {
      NamedByOwnFan(y, ys[k], r, hand, c);
    }
  }

  // ---------- The verdict ----------

  // The result that is priced, and that it is closed exactly when nothing was claimed.
  lemma PricedResult(seat: nat, hand: seq<Tile>, melds: seq<Meld>, tsumo: bool, dora: seq<Indicator>) returns (r: Result)
    requires Judge(seat, hand, melds, tsumo, dora).Wins?
    ensures AllCountable(hand) && |hand| == 14 - 3 * |melds| && Decompositions(hand, OpenMelds(melds)) != []
    ensures r == Decompositions(hand, OpenMelds(melds))[0] && r != SPECIAL && HasTiles(r)
    ensures |r.melds| == 4 && (Closed(r.melds) <==> melds == [])
    ensures Judge(seat, hand, melds, tsumo, dora) == Price(r, seat, hand, tsumo, melds == [], dora, false)
  {
    var open := OpenMelds(melds);
    WinsExactly(seat, hand, melds, tsumo, dora);
    r := Decompositions(hand, open)[0];
    var p, bs := AnalysisSound(hand, open, r);
    OpenFlags(open, bs);
  }

  lemma OpenFlags(open: seq<Mentsu>, bs: seq<Block>)
    requires AreBlocks(bs) && forall m | m in open :: m.open
    ensures Closed(open + Melds(bs)) <==> open == []
  {
    var ms := open + Melds(bs);
    if open != [] {
      assert ms[0] in open;
    }
  }

  // A yaku is among the names of an ordinary win exactly when it holds of the priced result.
  lemma YakuExactly(y: Kind, seat: nat, hand: seq<Tile>, melds: seq<Meld>, tsumo: bool, dora: seq<Indicator>) returns (r: Result)
    requires !y.ValueTiles? && Judge(seat, hand, melds, tsumo, dora).Wins? && !Judge(seat, hand, melds, tsumo, dora).yakuman
    ensures AllCountable(hand) && Decompositions(hand, OpenMelds(melds)) != []
    ensures r == Decompositions(hand, OpenMelds(melds))[0] && HasTiles(r) && |r.melds| == 4
    ensures NameOf(y, melds == []) in Judge(seat, hand, melds, tsumo, dora).yaku <==> Holds(y, r, hand, WinCtx(seat, tsumo, false))
  {
    r := PricedResult(seat, hand, melds, tsumo, dora);
    var c := WinCtx(seat, tsumo, false);
    var k := PlaceOf(y);
    ListedExactly(y, ORDER, r, hand, c);
    NoValueName(y, melds == []);
    PricedNames(r, seat, hand, tsumo, melds == [], dora);
  }

  lemma PricedNames(r: Result, seat: nat, hand: seq<Tile>, tsumo: bool, closed: bool, dora: seq<Indicator>)
    requires HasTiles(r) && AllCountable(hand) && r.melds != []
    ensures var v, c := Price(r, seat, hand, tsumo, closed, dora, false), WinCtx(seat, tsumo, false);
      && !v.yakuman ==> v.yaku == Names(Collect(ORDER, r, hand, c)) + if Reds(hand) + Marked(hand, dora) > 0 then ["dora"] else []
  {
  }

  // ---------- Single yaku ----------

  lemma {:induction false} RunsAll(ms: seq<Mentsu>)
    ensures Runs(ms) <= |ms| && (Runs(ms) == |ms| <==> forall n | 0 <= n < |ms| :: ms[n].shuntsu)
  {
    if ms != [] {
      RunsAll(ms[..|ms| - 1]);
    }
  }

  // The priced result has four runs.
  predicate FourRuns(r: Result)
  {
    |r.melds| == 4 && forall n | 0 <= n < 4 :: r.melds[n].shuntsu
  }

  // Pinfu is listed for closed wins on a discard with four runs and an honor or terminal pair. It is
  // what "non-valued pair" says exactly when such a win has a terminal pair.
  lemma PinfuExactly(seat: nat, hand: seq<Tile>, melds: seq<Meld>, tsumo: bool, dora: seq<Indicator>)
    requires Judge(seat, hand, melds, tsumo, dora).Wins? && !Judge(seat, hand, melds, tsumo, dora).yakuman
    ensures AllCountable(hand) && Decompositions(hand, OpenMelds(melds)) != []
    ensures var r, listed := Decompositions(hand, OpenMelds(melds))[0], "pinfu" in Judge(seat, hand, melds, tsumo, dora).yaku;
      && HasTiles(r)
      && (listed <==> melds == [] && !tsumo && FourRuns(r) && !IsSimple(r.pair))
      && ((listed <==> melds == [] && !tsumo && FourRuns(r) && !IsHonor(r.pair)) <==>
            (melds == [] && !tsumo && FourRuns(r) ==> IsTerminal(r.pair)))
  {
    var r := YakuExactly(Pinfu, seat, hand, melds, tsumo, dora);
    var r' := PricedResult(seat, hand, melds, tsumo, dora);
    RunsAll(r.melds);
  }

  // Honitsu is listed exactly when the concealed tiles have an honor and one number suit at most.
  // That is what the whole hand would give exactly unless an open set clashes with an accepted suit,
  // or the only honors are in open sets.
  lemma HonitsuScored(seat: nat, hand: seq<Tile>, melds: seq<Meld>, open: seq<Mentsu>, tsumo: bool, dora: seq<Indicator>)
    requires Judge(seat, hand, melds, tsumo, dora).Wins? && !Judge(seat, hand, melds, tsumo, dora).yakuman
    requires open == OpenMelds(melds)
    ensures (forall n | 0 <= n < |hand| :: hand[n] != "") && (forall n | 0 <= n < |open| :: open[n].tile != "")
    ensures forall n | 0 <= n < |hand + NamesOf(open)| :: (hand + NamesOf(open))[n] != ""
    ensures var whole, listed := hand + NamesOf(open), "honitsu" in Judge(seat, hand, melds, tsumo, dora).yaku;
      && (listed <==> HasHonor(hand) && OneSuit(hand))
      && ((listed <==> HasHonor(whole) && OneSuit(whole)) <==>
          && !(listed && Clash(hand, open))
          && !(!HasHonor(hand) && OneSuit(hand) && !Clash(hand, open) && exists i :: 0 <= i < |open| && IsHonor(open[i].tile)))
  {
    HonitsuListed(seat, hand, melds, tsumo, dora);
    HonitsuExactly(hand, open);
  }

  lemma HonitsuListed(seat: nat, hand: seq<Tile>, melds: seq<Meld>, tsumo: bool, dora: seq<Indicator>)
    requires Judge(seat, hand, melds, tsumo, dora).Wins? && !Judge(seat, hand, melds, tsumo, dora).yakuman
    ensures (forall n | 0 <= n < |hand| :: hand[n] != "") && forall n | 0 <= n < |OpenMelds(melds)| :: OpenMelds(melds)[n].tile != ""
    ensures "honitsu" in Judge(seat, hand, melds, tsumo, dora).yaku <==> HasHonor(hand) && OneSuit(hand)
  {
    TilesThere(seat, hand, melds, tsumo, dora);
    var r := YakuExactly(HalfFlush, seat, hand, melds, tsumo, dora);
    HalfFlushHolds(r, hand, WinCtx(seat, tsumo, false));
  }

  lemma HalfFlushHolds(r: Result, hand: seq<Tile>, c: Ctx)
    requires Priceable(r, hand, c)
    ensures (forall n | 0 <= n < |hand| :: hand[n] != "") && (Holds(HalfFlush, r, hand, c) <==> HasHonor(hand) && OneSuit(hand))
  {
  }

  lemma TilesThere(seat: nat, hand: seq<Tile>, melds: seq<Meld>, tsumo: bool, dora: seq<Indicator>)
    requires Judge(seat, hand, melds, tsumo, dora).Wins?
    ensures (forall n | 0 <= n < |hand| :: hand[n] != "") && forall n | 0 <= n < |OpenMelds(melds)| :: OpenMelds(melds)[n].tile != ""
  {
    WinsExactly(seat, hand, melds, tsumo, dora);
    ClaimedTiles(melds);
  }

  lemma ClaimedTiles(melds: seq<Meld>)
    requires NoBlankMeld(melds)
    ensures forall n | 0 <= n < |OpenMelds(melds)| :: OpenMelds(melds)[n].tile != ""
  {
    forall n | 0 <= n < |melds| ensures OpenMelds(melds)[n].tile != "" { assert melds[n] in melds; }
  }

  // The two one-suit yaku exclude each other, and junchan never comes without chanta.
  lemma YakuTogether(seat: nat, hand: seq<Tile>, melds: seq<Meld>, tsumo: bool, dora: seq<Indicator>)
    requires Judge(seat, hand, melds, tsumo, dora).Wins?
    ensures Compatible(Judge(seat, hand, melds, tsumo, dora).yaku)
  {
    var v := Judge(seat, hand, melds, tsumo, dora);
    if v.yakuman {
      YakumanNames(seat, hand, melds, tsumo, dora);
    } else {
      var r := PricedResult(seat, hand, melds, tsumo, dora);
      PricedNames(r, seat, hand, tsumo, melds == [], dora);
      ListedTogether(r, hand, WinCtx(seat, tsumo, false), ORDER, v.yaku);
    }
  }

  predicate Compatible(yaku: seq<string>)
  {
    && !("honitsu" in yaku && "chinitsu" in yaku)
    && ("junchan" in yaku ==> "chanta" in yaku)
    && ("tanyao" in yaku ==> "chanta" !in yaku && "junchan" !in yaku)
  }

  lemma InList(y: Kind, r: Result, hand: seq<Tile>, c: Ctx, ys: seq<Kind>, yaku: seq<string>)
    requires Priceable(r, hand, c) && !y.ValueTiles? && ys == ORDER
    requires yaku == Names(Collect(ys, r, hand, c)) || yaku == Names(Collect(ys, r, hand, c)) + ["dora"]
    ensures NameOf(y, Closed(r.melds)) in yaku <==> Holds(y, r, hand, c)
  {
    var k := PlaceOf(y);
    NoValueName(y, Closed(r.melds));
    ListedExactly(y, ys, r, hand, c);
  }

  lemma ListedTogether(r: Result, hand: seq<Tile>, c: Ctx, ys: seq<Kind>, yaku: seq<string>)
    requires Priceable(r, hand, c) && ys == ORDER
    requires yaku == Names(Collect(ys, r, hand, c)) || yaku == Names(Collect(ys, r, hand, c)) + ["dora"]
    ensures Compatible(yaku)
  {
    FlushesApart(r, hand, c, ys, yaku);
    EdgesTogether(r, hand, c, ys, yaku);
  }

  lemma FlushesApart(r: Result, hand: seq<Tile>, c: Ctx, ys: seq<Kind>, yaku: seq<string>)
    requires Priceable(r, hand, c) && ys == ORDER
    requires yaku == Names(Collect(ys, r, hand, c)) || yaku == Names(Collect(ys, r, hand, c)) + ["dora"]
    ensures !("honitsu" in yaku && "chinitsu" in yaku)
  {
    InList(HalfFlush, r, hand, c, ys, yaku);
    InList(PureFlush, r, hand, c, ys, yaku);
    Excluded(r, hand, c);
  }

  lemma EdgesTogether(r: Result, hand: seq<Tile>, c: Ctx, ys: seq<Kind>, yaku: seq<string>)
    requires Priceable(r, hand, c) && ys == ORDER
    requires yaku == Names(Collect(ys, r, hand, c)) || yaku == Names(Collect(ys, r, hand, c)) + ["dora"]
    ensures "junchan" in yaku ==> "chanta" in yaku
    ensures "tanyao" in yaku ==> "chanta" !in yaku && "junchan" !in yaku
  {
    InList(Junchan, r, hand, c, ys, yaku);
    InList(Outside, r, hand, c, ys, yaku);
    InList(AllSimples, r, hand, c, ys, yaku);
    Excluded(r, hand, c);
  }

  lemma Excluded(r: Result, hand: seq<Tile>, c: Ctx)
    requires Priceable(r, hand, c)
    ensures !(Holds(HalfFlush, r, hand, c) && Holds(PureFlush, r, hand, c))
    ensures Holds(Junchan, r, hand, c) ==> Holds(Outside, r, hand, c)
    ensures Holds(AllSimples, r, hand, c) ==> !Holds(Outside, r, hand, c) && !Holds(Junchan, r, hand, c)
  {
    if Tanyao(r) { TanyaoExcludes(r, c); }
  }

  lemma YakumanNames(seat: nat, hand: seq<Tile>, melds: seq<Meld>, tsumo: bool, dora: seq<Indicator>)
    requires Judge(seat, hand, melds, tsumo, dora).Wins? && Judge(seat, hand, melds, tsumo, dora).yakuman
    ensures var v := Judge(seat, hand, melds, tsumo, dora);
      v.han >= 13 && |v.yaku| >= 1 && v.yaku[0] == "suuankou" && forall name | name in v.yaku :: name in {"suuankou", "dora"}
  {
    var r := PricedResult(seat, hand, melds, tsumo, dora);
    var fr := FansOf(r, hand, WinCtx(seat, tsumo, false));
    if |hand| == 14 && Orphans(Tally(hand)) { OrphansHaveNoSets(hand); WinsExactly(seat, hand, melds, tsumo, dora); }
    assert fr.fans == [Fan("suuankou", 13)];
    assert Names(fr.fans) == ["suuankou"];
  }

  // ---------- What a win is worth ----------

  lemma {:induction false} TotalAtLeast(fans: seq<Fan>)
    requires forall n | 0 <= n < |fans| :: fans[n].han >= 1
    ensures Total(fans) >= |fans|
  {
    if fans != [] {
      TotalAtLeast(fans[..|fans| - 1]);
    }
  }

  lemma {:induction false} EachOne(names: seq<string>)
    ensures forall n | 0 <= n < |Each(names)| :: Each(names)[n].han == 1
  {
    if names != [] {
      EachOne(names[..|names| - 1]);
    }
  }

  lemma {:induction false} EveryFanCounts(ys: seq<Kind>, r: Result, hand: seq<Tile>, c: Ctx)
    requires Priceable(r, hand, c)
    ensures forall n | 0 <= n < |Collect(ys, r, hand, c)| :: Collect(ys, r, hand, c)[n].han >= 1
  {
    if ys != [] {
      EveryFanCounts(ys[..|ys| - 1], r, hand, c);
      EachOne(Dragons(r.melds) + Winds(r.melds, c));
    }
  }

  // A win has no han exactly when it lists no yaku and no dora; a closed tsumo always has some.
  lemma WorthExactly(seat: nat, hand: seq<Tile>, melds: seq<Meld>, tsumo: bool, dora: seq<Indicator>)
    requires Judge(seat, hand, melds, tsumo, dora).Wins?
    ensures var v := Judge(seat, hand, melds, tsumo, dora);
      && (v.han == 0 <==> v.yaku == []) && (v.yakuman ==> v.han > 0) && v.fu >= 20
      && (melds == [] && tsumo ==> v.han > 0)
  {
    var v := Judge(seat, hand, melds, tsumo, dora);
    var r := PricedResult(seat, hand, melds, tsumo, dora);
    if v.yakuman {
      YakumanNames(seat, hand, melds, tsumo, dora);
    } else {
      PricedWorth(r, seat, hand, tsumo, melds == [], dora, ORDER);
      if melds == [] && tsumo {
        var r' := YakuExactly(MenzenTsumo, seat, hand, melds, tsumo, dora);
      }
    }
    PricedFu(r, seat, hand, tsumo, melds == [], dora);
  }

  lemma PricedFu(r: Result, seat: nat, hand: seq<Tile>, tsumo: bool, closed: bool, dora: seq<Indicator>)
    requires HasTiles(r) && AllCountable(hand)
    ensures Price(r, seat, hand, tsumo, closed, dora, false).fu >= 20
  {
    TensUp(RawFu(r, WinCtx(seat, tsumo, false), !tsumo && closed));
  }

  lemma PricedWorth(r: Result, seat: nat, hand: seq<Tile>, tsumo: bool, closed: bool, dora: seq<Indicator>, ys: seq<Kind>)
    requires HasTiles(r) && AllCountable(hand) && r.melds != [] && ys == ORDER
    requires !Price(r, seat, hand, tsumo, closed, dora, false).yakuman
    ensures var v := Price(r, seat, hand, tsumo, closed, dora, false); v.han == 0 <==> v.yaku == []
  {
    var fans := Collect(ys, r, hand, WinCtx(seat, tsumo, false));
    EveryFanCounts(ys, r, hand, WinCtx(seat, tsumo, false));
    TotalAtLeast(fans);
    PricedNames(r, seat, hand, tsumo, closed, dora);
  }

  // ---------- What it moves ----------

  lemma BaseIsPositive(han: int, fu: nat)
    requires 1 <= han && fu >= 20
    ensures BasePoints(han, fu) >= 20
  {
    if !(han >= 5 || (han >= 4 && fu >= 40)) {
      SmallPowers();
      TimesMonotone(20, 1, fu, Pow2(2 + han));
    }
  }

  lemma PaymentsArePositive(han: int, fu: nat, dealer: bool)
    requires 1 <= han && fu >= 20
    ensures RonPayment(han, fu, dealer) > 0 && TsumoPayment(han, fu, dealer).1 > 0
    ensures !dealer ==> TsumoPayment(han, fu, dealer).0 > 0
  {
    if han < 5 {
      var b := BasePoints(han, fu);
      BaseIsPositive(han, fu);
      RoundUpMonotone(1, b);
      RoundUpMonotone(1, b * 2);
      RoundUpMonotone(1, b * 4);
      RoundUpMonotone(1, b * 6);
    }
  }

  // A reported tsumo leaves the scores alone exactly when it lists no yaku and no dora.
  lemma TsumoMovesPoints(s: State, seat: nat, hand: seq<Tile>, melds: seq<Meld>, dora: seq<Indicator>, v: Verdict)
    requires s.Valid() && |s.seats| >= 2 && seat < |s.seats| && v == Judge(seat, hand, melds, true, dora) && v.Wins?
    ensures TsumoStep(s, seat, WinOf(seat, true, v, -1)) == s <==> v.yaku == []
    ensures melds == [] ==> TsumoStep(s, seat, WinOf(seat, true, v, -1)) != s
  {
    WorthExactly(seat, hand, melds, true, dora);
    TsumoMoves(s, seat, WinOf(seat, true, v, -1));
  }

  lemma TsumoMoves(s: State, seat: nat, w: Win)
    requires s.Valid() && |s.seats| >= 2 && seat < |s.seats| && w.fu >= 20 && (w.yakuman ==> w.han > 0)
    ensures TsumoStep(s, seat, w) == s <==> w.han == 0
  {
    if w.han > 0 {
      PaymentsArePositive(w.han, w.fu, seat == s.dealer);
      var i := if seat == 0 then 1 else 0;
      assert TsumoStep(s, seat, w).scores[i] < s.scores[i];
    }
  }

  // A reported ron leaves the scores alone exactly when it lists nothing or the discarder stands
  // at zero.
  lemma RonMovesPoints(s: State, seat: nat, from: nat, hand: seq<Tile>, melds: seq<Meld>, dora: seq<Indicator>, v: Verdict)
    requires s.Valid() && seat < |s.seats| && from < |s.seats| && seat != from
    requires v == Judge(seat, hand, melds, false, dora) && v.Wins?
    ensures RonStep(s, seat, from, WinOf(seat, false, v, from)) == s <==> v.yaku == [] || s.scores[from] == 0
  {
    WorthExactly(seat, hand, melds, false, dora);
    RonChanges(s, seat, from, WinOf(seat, false, v, from));
  }

  lemma RonChanges(s: State, seat: nat, from: nat, w: Win)
    requires s.Valid() && seat < |s.seats| && from < |s.seats| && seat != from && w.fu >= 20 && (w.yakuman ==> w.han > 0)
    ensures RonStep(s, seat, from, w) == s <==> w.han == 0 || s.scores[from] == 0
  {
    var pay := RonMoves(s, seat, from, w);
    if w.han > 0 {
      PaymentsArePositive(w.han, w.fu, seat == s.dealer);
    }
    assert RonStep(s, seat, from, w).scores[from] == s.scores[from] - pay;
    if pay == 0 {
      assert RonStep(s, seat, from, w).scores == s.scores;
    }
  }
}
