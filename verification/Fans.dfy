/** Adding up a hand's yaku (internal/game/yaku/yaku.go). */
module Fans {
  import opened Tiles
  import opened Search
  import opened Analysis
  import opened Score
  import opened Yaku
  import opened Flush
  import opened RunYaku

  datatype Fan = Fan(name: string, han: nat)

  datatype FanResult = FanResult(fans: seq<Fan>, total: nat, yakuman: bool)

  function Total(fans: seq<Fan>): nat
  {
    if fans == [] then 0 else Total(fans[..|fans| - 1]) + fans[|fans| - 1].han
  }

  function Runs(ms: seq<Mentsu>): nat
  {
    if ms == [] then 0 else Runs(ms[..|ms| - 1]) + if ms[|ms| - 1].shuntsu then 1 else 0
  }

  predicate Closed(ms: seq<Mentsu>)
  {
    forall n | 0 <= n < |ms| :: !ms[n].open
  }

  // What yaku evaluation reads: a result made of tiles, a hand of tiles, single-digit winds.
  predicate Priceable(r: Result, hand: seq<Tile>, c: Ctx)
  {
    HasTiles(r) && AllCountable(hand) && c.seatWind < 9 && c.roundWind < 9
  }

  // ---------- Value tiles ----------

  function Dragons(ms: seq<Mentsu>): seq<string>
    requires Tiled(ms)
  {
    if ms == [] then [] else Dragons(ms[..|ms| - 1]) + DragonOf(ms[|ms| - 1])
  }

  function Winds(ms: seq<Mentsu>, c: Ctx): seq<string>
    requires Tiled(ms) && c.seatWind < 9 && c.roundWind < 9
  {
    if ms == [] then [] else Winds(ms[..|ms| - 1], c) + WindsOf(ms[|ms| - 1], c)
  }

  method Yakuhai(r: Result, c: Ctx) returns (names: seq<string>)
    requires HasTiles(r) && c.seatWind < 9 && c.roundWind < 9
    ensures Tiled(r.melds) && names == Dragons(r.melds) + Winds(r.melds, c)
  {
    var dragons, winds: seq<string> := [], [];
    for n := 0 to |r.melds|
      invariant dragons == Dragons(r.melds[..n]) && winds == Winds(r.melds[..n], c)
    {
      assert r.melds[..n + 1][..n] == r.melds[..n];
      dragons := dragons + DragonOf(r.melds[n]);
      winds := winds + WindsOf(r.melds[n], c);
    }
    assert r.melds[..|r.melds|] == r.melds;
    names := dragons + winds;
  }

  // One han for every name.
  function Each(names: seq<string>): seq<Fan>
  {
    if names == [] then [] else Each(names[..|names| - 1]) + [Fan(names[|names| - 1], 1)]
  }

  // ---------- Everything that is not a yakuman ----------

  datatype Kind =
    | Daburi | Riichi | Ippatsu | MenzenTsumo | Rinshan | Chankan
    | Pinfu | AllSimples | ValueTiles | Toitoi | Outside | Junchan
    | HalfFlush | PureFlush | ThreeColours | Straight

  // The order in which they are listed.
  const ORDER: seq<Kind> := [
    Daburi, Riichi, Ippatsu, MenzenTsumo, Rinshan, Chankan,
    Pinfu, AllSimples, ValueTiles, Toitoi, Outside, Junchan,
    HalfFlush, PureFlush, ThreeColours, Straight]

  // When a kind of yaku is counted; value tiles are listed by name instead. The pair test of pinfu
  // is the code's: an honor or terminal pair passes.
  predicate Holds(y: Kind, r: Result, hand: seq<Tile>, c: Ctx)
    requires Priceable(r, hand, c) && !y.ValueTiles?
  {
    match y
    case Daburi => c.riichi && c.daburi
    case Riichi => c.riichi && !c.daburi
    case Ippatsu => c.riichi && c.ippatsu
    case MenzenTsumo => c.zimo && Closed(r.melds)
    case Rinshan => c.rinshan
    case Chankan => c.chankan
    case Pinfu => Closed(r.melds) && !c.zimo && Runs(r.melds) == 4 && !(!IsHonor(r.pair) && IsSimple(r.pair))
    case AllSimples => Tanyao(r)
    case Toitoi => Runs(r.melds) == 0 && |r.melds| == 4
    case Outside => Chanta(r, false)
    case Junchan => Chanta(r, true)
    case HalfFlush => HasHonor(hand) && OneSuit(hand)
    case PureFlush => OneNumberSuit(r, hand)
    case ThreeColours => Sanshoku(r.melds)
    case Straight => HasRank(r.melds, 1) && HasRank(r.melds, 4) && HasRank(r.melds, 7)
  }

  function NameOf(y: Kind, closed: bool): string
    requires !y.ValueTiles?
  {
    match y
    case Daburi => "daburi" case Riichi => "riichi" case Ippatsu => "ippatsu"
    case MenzenTsumo => "menzenTsumo" case Rinshan => "rinshan" case Chankan => "chankan"
    case Pinfu => "pinfu" case AllSimples => "tanyao" case Toitoi => "toitoi"
    case Outside => "chanta" case Junchan => "junchan"
    case HalfFlush => "honitsu" case PureFlush => "chinitsu"
    case ThreeColours => if closed then "sanshoku" else "sanshokuOpen"
    case Straight => "ittsu"
  }

  function HanOf(y: Kind, closed: bool): (han: nat)
    requires !y.ValueTiles?
    ensures han >= 1
  {
    match y
    case Daburi | Toitoi => 2
    case Outside | ThreeColours | Straight => if closed then 2 else 1
    case Junchan | HalfFlush => if closed then 3 else 2
    case PureFlush => if closed then 6 else 5
    case _ => 1
  }

  // What one kind of yaku adds.
  function FanOf(y: Kind, r: Result, hand: seq<Tile>, c: Ctx): seq<Fan>
    requires Priceable(r, hand, c)
  {
    if y.ValueTiles? then Each(Dragons(r.melds) + Winds(r.melds, c))
    else if Holds(y, r, hand, c) then [Fan(NameOf(y, Closed(r.melds)), HanOf(y, Closed(r.melds)))]
    else []
  }

  function Collect(ys: seq<Kind>, r: Result, hand: seq<Tile>, c: Ctx): seq<Fan>
    requires Priceable(r, hand, c)
  {
    if ys == [] then [] else Collect(ys[..|ys| - 1], r, hand, c) + FanOf(ys[|ys| - 1], r, hand, c)
  }

  lemma CollectSnoc(ys: seq<Kind>, y: Kind, r: Result, hand: seq<Tile>, c: Ctx)
    requires Priceable(r, hand, c)
    ensures Collect(ys + [y], r, hand, c) == Collect(ys, r, hand, c) + FanOf(y, r, hand, c)
  {
    assert (ys + [y])[..|ys|] == ys;
  }

  predicate SevenPairs(hand: seq<Tile>)
    requires AllCountable(hand)
  {
    |hand| == 14 && AllPairs(Tally(hand))
  }

  predicate Kokushi(hand: seq<Tile>)
    requires AllCountable(hand)
  {
    |hand| == 14 && Orphans(Tally(hand))
  }

  function FansOf(r: Result, hand: seq<Tile>, c: Ctx): FanResult
    requires AllCountable(hand)
    requires Priceable(r, hand, c) || (r.melds == [] && (SevenPairs(hand) || Kokushi(hand)))
  {
    if r.melds == [] && SevenPairs(hand) then FanResult([Fan("chiitoitsu", 2)], 2, false)
    else if Kokushi(hand) then FanResult([Fan("kokushi", 13)], 13, true)
    else if FourConcealedTriplets(r) then FanResult([Fan("suuankou", 13)], 13, true)
    else
      FanResult(Collect(ORDER, r, hand, c), Total(Collect(ORDER, r, hand, c)), false)
  }

  // ---------- The evaluation ----------

  method CountSets(ms: seq<Mentsu>) returns (claimed: nat, runs: nat)
    ensures claimed == 0 <==> Closed(ms)
    ensures runs == Runs(ms)
  {
    claimed, runs := 0, 0;
    for n := 0 to |ms|
      invariant claimed == 0 <==> Closed(ms[..n])
      invariant runs == Runs(ms[..n])
    {
      assert ms[..n + 1][..n] == ms[..n] && ms[..n + 1][n] == ms[n];
      if ms[n].open { claimed := claimed + 1; }
      if ms[n].shuntsu { runs := runs + 1; }
    }
    assert ms[..|ms|] == ms;
  }

  // The fans added so far, kind by kind.
  class FanList {
    ghost const r: Result
    ghost const hand: seq<Tile>
    ghost const c: Ctx
    const menzen: bool
    var fans: seq<Fan>
    ghost var kinds: seq<Kind>

    ghost predicate Valid()
      reads this
    {
      Priceable(r, hand, c) && menzen == Closed(r.melds) && fans == Collect(kinds, r, hand, c)
    }

    constructor (menzen: bool, ghost r: Result, ghost hand: seq<Tile>, ghost c: Ctx)
      requires Priceable(r, hand, c) && menzen == Closed(r.melds)
      ensures Valid() && (this.r, this.hand, this.c) == (r, hand, c) && kinds == []
    {
      this.menzen, this.r, this.hand, this.c, fans, kinds := menzen, r, hand, c, [], [];
    }

    method Add(y: Kind, holds: bool)
      requires Valid() && !y.ValueTiles? && holds == Holds(y, r, hand, c)
      modifies this
      ensures Valid() && kinds == old(kinds) + [y]
    {
      CollectSnoc(kinds, y, r, hand, c);
      fans := fans + if holds then [Fan(NameOf(y, menzen), HanOf(y, menzen))] else [];
      kinds := kinds + [y];
    }

    method AddValues(names: seq<string>)
      requires Valid() && names == Dragons(r.melds) + Winds(r.melds, c)
      modifies this
      ensures Valid() && kinds == old(kinds) + [ValueTiles]
    {
      CollectSnoc(kinds, ValueTiles, r, hand, c);
      var valued := OneEach(names);
      fans := fans + valued;
      kinds := kinds + [ValueTiles];
    }
  }

  method OneEach(names: seq<string>) returns (fans: seq<Fan>)
    ensures fans == Each(names)
  {
    fans := [];
    for n := 0 to |names|
      invariant fans == Each(names[..n])
    {
      assert names[..n + 1][..n] == names[..n];
      fans := fans + [Fan(names[n], 1)];
    }
    assert names[..|names|] == names;
  }

  lemma InOrder(ys: seq<Kind>)
    requires ys == [] + [Daburi] + [Riichi] + [Ippatsu] + [MenzenTsumo] + [Rinshan] + [Chankan]
    ensures ys + [Pinfu] + [AllSimples] + [ValueTiles] + [Toitoi] + [Outside] + [Junchan]
      + [HalfFlush] + [PureFlush] + [ThreeColours] + [Straight] == ORDER
  {
  }

  method Added(fans: seq<Fan>) returns (total: nat)
    ensures total == Total(fans)
  {
    total := 0;
    for n := 0 to |fans|
      invariant total == Total(fans[..n])
    {
      assert fans[..n + 1][..n] == fans[..n];
      total := total + fans[n].han;
    }
    assert fans[..|fans|] == fans;
  }

  method AddLuck(out: FanList, c: Ctx)
    requires out.Valid() && c == out.c
    modifies out
    ensures out.Valid() && out.kinds == old(out.kinds) + [Daburi] + [Riichi] + [Ippatsu] + [MenzenTsumo] + [Rinshan] + [Chankan]
  {
    out.Add(Daburi, c.riichi && c.daburi);
    out.Add(Riichi, c.riichi && !c.daburi);
    out.Add(Ippatsu, c.riichi && c.ippatsu);
    out.Add(MenzenTsumo, c.zimo && out.menzen);
    out.Add(Rinshan, c.rinshan);
    out.Add(Chankan, c.chankan);
  }

  method AddSets(out: FanList, r: Result, c: Ctx, runs: nat)
    requires out.Valid() && (r, c) == (out.r, out.c) && runs == Runs(r.melds)
    modifies out
    ensures out.Valid() && out.kinds == old(out.kinds) + [Pinfu] + [AllSimples] + [ValueTiles]
  {
    var valueless := if IsHonor(r.pair) then false else IsSimple(r.pair);
    out.Add(Pinfu, out.menzen && !c.zimo && runs == 4 && !valueless);
    out.Add(AllSimples, Tanyao(r));
    var names := Yakuhai(r, c);
    out.AddValues(names);
  }

  method AddShapes(out: FanList, r: Result, runs: nat)
    requires out.Valid() && r == out.r && runs == Runs(r.melds)
    modifies out
    ensures out.Valid() && out.kinds == old(out.kinds) + [Toitoi] + [Outside] + [Junchan]
  {
    out.Add(Toitoi, runs == 0 && |r.melds| == 4);
    out.Add(Outside, Chanta(r, false));
    out.Add(Junchan, Chanta(r, true));
  }

  method AddFlushes(out: FanList, r: Result, hand: seq<Tile>)
    requires out.Valid() && (r, hand) == (out.r, out.hand)
    modifies out
    ensures out.Valid() && out.kinds == old(out.kinds) + [HalfFlush] + [PureFlush]
  {
    var half := Honitsu(hand);
    out.Add(HalfFlush, half);
    var full := Chinitsu(r, hand);
    out.Add(PureFlush, full);
  }

  method AddRuns(out: FanList, r: Result)
    requires out.Valid() && r == out.r
    modifies out
    ensures out.Valid() && out.kinds == old(out.kinds) + [ThreeColours] + [Straight]
  {
    var three := SanshokuDoujun(r.melds);
    out.Add(ThreeColours, three);
    var straight := Ittsu(r.melds);
    out.Add(Straight, straight);
  }

  method Ordinary(r: Result, hand: seq<Tile>, c: Ctx) returns (fans: seq<Fan>)
    requires Priceable(r, hand, c)
    ensures fans == Collect(ORDER, r, hand, c)
  {
    var claimed, runs := CountSets(r.melds);
    var out := new FanList(claimed == 0, r, hand, c);
    AddLuck(out, c);
    InOrder(out.kinds);
    AddSets(out, r, c, runs);
    AddShapes(out, r, runs);
    AddFlushes(out, r, hand);
    AddRuns(out, r);
    fans := out.fans;
  }

  method Calc(r: Result, hand: seq<Tile>, c: Ctx) returns (fr: FanResult)
    requires AllCountable(hand)
    requires Priceable(r, hand, c) || (r.melds == [] && (SevenPairs(hand) || Kokushi(hand)))
    ensures fr == FansOf(r, hand, c)
  {
    var pairs := Chiitoitsu(hand);
    if |r.melds| == 0 && pairs { return FanResult([Fan("chiitoitsu", 2)], 2, false); }
    var orphans := IsKokushi(hand);
    if orphans { return FanResult([Fan("kokushi", 13)], 13, true); }
    if FourConcealedTriplets(r) { return FanResult([Fan("suuankou", 13)], 13, true); }
    var out := Ordinary(r, hand, c);
    var total := Added(out);
    fr := FanResult(out, total, false);
  }
}
