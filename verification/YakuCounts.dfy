/** How often a name is listed (internal/game/yaku/yaku.go, internal/game/engine/win.go). */
module YakuCounts {
  import opened Search
  import opened Analysis
  import opened Tiles
  import opened Score
  import opened Yaku
  import opened RunYaku
  import opened Fans
  import opened Dora
  import opened Table
  import opened WinCheck
  import opened Pricing
  import opened YakuMeanings

  function Times(names: seq<string>, name: string): nat
  {
    multiset(names)[name]
  }

  lemma TimesAppend(a: seq<string>, b: seq<string>, name: string)
    ensures Times(a + b, name) == Times(a, name) + Times(b, name)
  {
  }

  // Triplets of one tile, claimed or not.
  function TripletsOf(ms: seq<Mentsu>, t: Tile): nat
  {
    if ms == [] then 0
    else TripletsOf(ms[..|ms| - 1], t) + if !ms[|ms| - 1].shuntsu && ms[|ms| - 1].tile == t then 1 else 0
  }

  // ---------- Value tiles ----------

  // The tile behind a name, and whether the seat's wind asks for it.
  predicate Stands(name: string, t: Tile, c: Ctx)
    requires c.seatWind < 4
  {
    (name, t) in {("haku", "5z"), ("hatsu", "6z"), ("chun", "7z"), ("yakuhaiSeat", WINDS[c.seatWind]), ("yakuhaiRound", "1z")}
  }

  lemma ValueOnce(m: Mentsu, c: Ctx, name: string, t: Tile)
    requires m.tile != "" && c.seatWind < 4 && c.roundWind == 0 && Stands(name, t, c)
    ensures Times(DragonOf(m), name) + Times(WindsOf(m, c), name) == if !m.shuntsu && m.tile == t then 1 else 0
  {
    OneValue(m, c);
    assert WindsOf(m, c) == (if "yakuhaiSeat" in WindsOf(m, c) then ["yakuhaiSeat"] else [])
      + if "yakuhaiRound" in WindsOf(m, c) then ["yakuhaiRound"] else [];
  }

  lemma {:induction false} ValueTimes(ms: seq<Mentsu>, c: Ctx, name: string, t: Tile)
    requires Tiled(ms) && c.seatWind < 4 && c.roundWind == 0 && Stands(name, t, c)
    ensures Times(Dragons(ms), name) + Times(Winds(ms, c), name) == TripletsOf(ms, t)
  {
    if ms != [] {
      var k := |ms| - 1;
      ValueTimes(ms[..k], c, name, t);
      ValueOnce(ms[k], c, name, t);
      TimesAppend(Dragons(ms[..k]), DragonOf(ms[k]), name);
      TimesAppend(Winds(ms[..k], c), WindsOf(ms[k], c), name);
    }
  }

  lemma {:induction false} EachTimes(names: seq<string>, name: string)
    ensures Times(Names(Each(names)), name) == Times(names, name)
  {
    if names != [] {
      var k := |names| - 1;
      EachTimes(names[..k], name);
      assert names == names[..k] + [names[k]];
      assert Names(Each(names)) == Names(Each(names[..k])) + [names[k]];
    }
  }

  // ---------- Every kind once ----------

  function Occurs(ys: seq<Kind>, y: Kind): nat
  {
    if ys == [] then 0 else Occurs(ys[..|ys| - 1], y) + if ys[|ys| - 1] == y then 1 else 0
  }

  lemma {:induction false} OccursOnce(ys: seq<Kind>, y: Kind, k: nat)
    requires k < |ys| && ys[k] == y && forall i, j | 0 <= i < j < |ys| :: ys[i] != ys[j]
    ensures Occurs(ys, y) == 1
  {
    var n := |ys| - 1;
    if k == n {
      OccursNever(ys[..n], y);
    } else {
      OccursOnce(ys[..n], y, k);
    }
  }

  lemma {:induction false} OccursNever(ys: seq<Kind>, y: Kind)
    requires y !in ys
    ensures Occurs(ys, y) == 0
  {
    if ys != [] {
      OccursNever(ys[..|ys| - 1], y);
    }
  }

  lemma EachOnce(y: Kind, ys: seq<Kind>)
    requires ys == ORDER
    ensures Occurs(ys, y) == 1
  {
    var k := PlaceOf(y);
    OccursOnce(ys, y, k);
  }

  lemma FanTimes(y: Kind, z: Kind, r: Result, hand: seq<Tile>, c: Ctx)
    requires Priceable(r, hand, c) && !y.ValueTiles?
    ensures Times(Names(FanOf(z, r, hand, c)), NameOf(y, Closed(r.melds))) == if y == z && Holds(y, r, hand, c) then 1 else 0
  {
    NamedByOwnFan(y, z, r, hand, c);
    if !z.ValueTiles? {
      NameOfFan(z, r, hand, c);
    }
  }

  lemma {:induction false} CollectTimes(y: Kind, ys: seq<Kind>, r: Result, hand: seq<Tile>, c: Ctx)
    requires Priceable(r, hand, c) && !y.ValueTiles?
    ensures Times(Names(Collect(ys, r, hand, c)), NameOf(y, Closed(r.melds))) == if Holds(y, r, hand, c) then Occurs(ys, y) else 0
  {
    if ys != [] {
      var k, name := |ys| - 1, NameOf(y, Closed(r.melds));
      CollectTimes(y, ys[..k], r, hand, c);
      FanTimes(y, ys[k], r, hand, c);
      NamesJoin(Collect(ys[..k], r, hand, c), FanOf(ys[k], r, hand, c));
      TimesAppend(Names(Collect(ys[..k], r, hand, c)), Names(FanOf(ys[k], r, hand, c)), name);
    }
  }

  lemma NamesJoin(a: seq<Fan>, b: seq<Fan>)
    ensures Names(a + b) == Names(a) + Names(b)
  {
  }

  lemma OtherTimes(z: Kind, name: string, r: Result, hand: seq<Tile>, c: Ctx)
    requires Priceable(r, hand, c) && name in VALUES
    ensures Times(Names(FanOf(z, r, hand, c)), name) == if z.ValueTiles? then Times(Dragons(r.melds), name) + Times(Winds(r.melds, c), name) else 0
  {
    if z.ValueTiles? {
      EachTimes(Dragons(r.melds) + Winds(r.melds, c), name);
      TimesAppend(Dragons(r.melds), Winds(r.melds, c), name);
    } else {
      NotByOthers(name, z, r, hand, c);
    }
  }

  lemma {:induction false} CollectValues(ys: seq<Kind>, name: string, r: Result, hand: seq<Tile>, c: Ctx)
    requires Priceable(r, hand, c) && name in VALUES && Occurs(ys, ValueTiles) <= 1
    ensures Times(Names(Collect(ys, r, hand, c)), name)
      == if Occurs(ys, ValueTiles) == 0 then 0 else Times(Dragons(r.melds), name) + Times(Winds(r.melds, c), name)
  {
    if ys != [] {
      var k := |ys| - 1;
      CollectValues(ys[..k], name, r, hand, c);
      OtherTimes(ys[k], name, r, hand, c);
      NamesJoin(Collect(ys[..k], r, hand, c), FanOf(ys[k], r, hand, c));
      TimesAppend(Names(Collect(ys[..k], r, hand, c)), Names(FanOf(ys[k], r, hand, c)), name);
    }
  }

  // ---------- The names of a reported win ----------

  // A yaku that holds is named once, and one that does not is not named.
  lemma NamedOnce(
    y: Kind, seat: nat, hand: seq<Tile>, melds: seq<Meld>, tsumo: bool, dora: seq<Indicator>, yaku: seq<string>, r: Result, p: nat)
    requires Reports(seat, hand, melds, tsumo, dora, yaku, r, p) && !y.ValueTiles?
    ensures Times(yaku, NameOf(y, melds == [])) == if Holds(y, r, hand, WinCtx(seat, tsumo, false)) then 1 else 0
  {
    ReportedNames(seat, hand, melds, tsumo, dora, yaku, r, p);
    OnceAmong(y, yaku, r, hand, WinCtx(seat, tsumo, false), ORDER);
  }

  predicate Collected(yaku: seq<string>, r: Result, hand: seq<Tile>, c: Ctx, ys: seq<Kind>)
    requires Priceable(r, hand, c)
  {
    yaku == Names(Collect(ys, r, hand, c)) || yaku == Names(Collect(ys, r, hand, c)) + ["dora"]
  }

  lemma OnceAmong(y: Kind, yaku: seq<string>, r: Result, hand: seq<Tile>, c: Ctx, ys: seq<Kind>)
    requires Priceable(r, hand, c) && !y.ValueTiles? && ys == ORDER && Collected(yaku, r, hand, c, ys)
    ensures Times(yaku, NameOf(y, Closed(r.melds))) == if Holds(y, r, hand, c) then 1 else 0
  {
    CollectTimes(y, ys, r, hand, c);
    EachOnce(y, ys);
    NoValueName(y, Closed(r.melds));
    TimesAppend(Names(Collect(ys, r, hand, c)), ["dora"], NameOf(y, Closed(r.melds)));
  }

  // A value tile is named once for each of its triplets; so a wind of both seat and round counts twice.
  lemma NamedPerTriplet(
    name: string, t: Tile, seat: nat, hand: seq<Tile>, melds: seq<Meld>, tsumo: bool, dora: seq<Indicator>, yaku: seq<string>,
    r: Result, p: nat)
    requires Reports(seat, hand, melds, tsumo, dora, yaku, r, p) && Stands(name, t, WinCtx(seat, tsumo, false))
    ensures Times(yaku, name) == TripletsOf(r.melds, t)
  {
    ReportedNames(seat, hand, melds, tsumo, dora, yaku, r, p);
    ValuesAmong(name, t, yaku, r, hand, WinCtx(seat, tsumo, false), ORDER);
  }

  lemma ValuesAmong(name: string, t: Tile, yaku: seq<string>, r: Result, hand: seq<Tile>, c: Ctx, ys: seq<Kind>)
    requires Priceable(r, hand, c) && c.seatWind < 4 && c.roundWind == 0 && Stands(name, t, c)
    requires ys == ORDER && Collected(yaku, r, hand, c, ys)
    ensures Times(yaku, name) == TripletsOf(r.melds, t)
  {
    EachOnce(ValueTiles, ys);
    CollectValues(ys, name, r, hand, c);
    ValueTimes(r.melds, c, name, t);
    TimesAppend(Names(Collect(ys, r, hand, c)), ["dora"], name);
  }

  // ---------- The order of the names ----------

  // Where a name stands in the list: luck, the closed draw, the single yaku, then sets, suits and runs.
  function ListPlace(name: string): nat
  {
    if name == "daburi" then 0 else if name == "riichi" then 2 else if name == "ippatsu" then 4
    else if name == "menzenTsumo" then 6 else if name == "rinshan" then 8 else if name == "chankan" then 10
    else if name == "pinfu" then 12 else if name == "tanyao" then 14
    else if name in {"haku", "hatsu", "chun"} then 16 else if name in {"yakuhaiSeat", "yakuhaiRound"} then 17
    else if name == "toitoi" then 18 else if name == "chanta" then 20 else if name == "junchan" then 22
    else if name == "honitsu" then 24 else if name == "chinitsu" then 26
    else if name in {"sanshoku", "sanshokuOpen"} then 28 else if name == "ittsu" then 30 else 32
  }

  predicate InPlace(names: seq<string>)
  {
    forall i, j | 0 <= i < j < |names| :: ListPlace(names[i]) <= ListPlace(names[j])
  }

  predicate Within(names: seq<string>, low: nat, high: nat)
  {
    forall i | 0 <= i < |names| :: low <= ListPlace(names[i]) < high
  }

  lemma InPlaceAppend(a: seq<string>, b: seq<string>, low: nat, mid: nat, high: nat)
    requires low <= mid <= high && InPlace(a) && InPlace(b) && Within(a, low, mid) && Within(b, mid, high)
    ensures InPlace(a + b) && Within(a + b, low, high)
  {
    var all := a + b;
    assert forall i | 0 <= i < |all| :: all[i] == if i < |a| then a[i] else b[i - |a|];
  }

  lemma {:induction false} ValuePlaces(ms: seq<Mentsu>, c: Ctx)
    requires Tiled(ms) && c.seatWind < 9 && c.roundWind < 9
    ensures forall i | 0 <= i < |Dragons(ms)| :: ListPlace(Dragons(ms)[i]) == 16
    ensures forall i | 0 <= i < |Winds(ms, c)| :: ListPlace(Winds(ms, c)[i]) == 17
  {
    if ms != [] {
      ValuePlaces(ms[..|ms| - 1], c);
    }
  }

  lemma {:induction false} EachInOrder(names: seq<string>)
    ensures Names(Each(names)) == names
  {
    if names != [] {
      EachInOrder(names[..|names| - 1]);
      NamesJoin(Each(names[..|names| - 1]), [Fan(names[|names| - 1], 1)]);
      assert Names([Fan(names[|names| - 1], 1)]) == [names[|names| - 1]];
    }
  }

  function KindPlace(y: Kind): nat
  {
    match y
    case Daburi => 0 case Riichi => 1 case Ippatsu => 2 case MenzenTsumo => 3 case Rinshan => 4 case Chankan => 5
    case Pinfu => 6 case AllSimples => 7 case ValueTiles => 8 case Toitoi => 9 case Outside => 10 case Junchan => 11
    case HalfFlush => 12 case PureFlush => 13 case ThreeColours => 14 case Straight => 15
  }

  lemma OwnPlace(y: Kind, closed: bool)
    requires !y.ValueTiles?
    ensures ListPlace(NameOf(y, closed)) == 2 * KindPlace(y)
  {
  }

  lemma OrderedKinds(ys: seq<Kind>, k: nat)
    requires ys == ORDER && k < |ys|
    ensures KindPlace(ys[k]) == k
  {
  }

  lemma FanPlaces(y: Kind, k: nat, r: Result, hand: seq<Tile>, c: Ctx)
    requires Priceable(r, hand, c) && k == KindPlace(y)
    ensures var names := Names(FanOf(y, r, hand, c)); InPlace(names) && Within(names, 2 * k, 2 * k + 2)
  {
    if y.ValueTiles? {
      ValuePlaces(r.melds, c);
      EachInOrder(Dragons(r.melds) + Winds(r.melds, c));
      InPlaceAppend(Dragons(r.melds), Winds(r.melds, c), 2 * k, 2 * k + 1, 2 * k + 2);
    } else {
      NameOfFan(y, r, hand, c);
      OwnPlace(y, Closed(r.melds));
    }
  }

  lemma {:induction false} CollectPlaces(ys: seq<Kind>, n: nat, r: Result, hand: seq<Tile>, c: Ctx)
    requires Priceable(r, hand, c) && ys == ORDER && n <= |ys|
    ensures var names := Names(Collect(ys[..n], r, hand, c)); InPlace(names) && Within(names, 0, 2 * n)
    decreases n
  {
    if n > 0 {
      var k := n - 1;
      CollectPlaces(ys, k, r, hand, c);
      OrderedKinds(ys, k);
      FanPlaces(ys[k], k, r, hand, c);
      assert ys[..n][..k] == ys[..k];
      NamesJoin(Collect(ys[..k], r, hand, c), FanOf(ys[k], r, hand, c));
      InPlaceAppend(Names(Collect(ys[..k], r, hand, c)), Names(FanOf(ys[k], r, hand, c)), 0, 2 * k, 2 * n);
    }
  }

  // The names of a reported win come in that order, dora last.
  lemma NamedInOrder(
    seat: nat, hand: seq<Tile>, melds: seq<Meld>, tsumo: bool, dora: seq<Indicator>, yaku: seq<string>, r: Result, p: nat)
    requires Reports(seat, hand, melds, tsumo, dora, yaku, r, p)
    ensures InPlace(yaku)
  {
    ReportedNames(seat, hand, melds, tsumo, dora, yaku, r, p);
    PlacedAmong(yaku, r, hand, WinCtx(seat, tsumo, false), ORDER);
  }

  lemma PlacedAmong(yaku: seq<string>, r: Result, hand: seq<Tile>, c: Ctx, ys: seq<Kind>)
    requires Priceable(r, hand, c) && ys == ORDER && Collected(yaku, r, hand, c, ys)
    ensures InPlace(yaku)
  {
    CollectPlaces(ys, |ys|, r, hand, c);
    assert ys[..|ys|] == ys;
    InPlaceAppend(Names(Collect(ys, r, hand, c)), ["dora"], 0, 32, 33);
  }
}
