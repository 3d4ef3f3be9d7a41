/** From a seat's tiles to a priced win (internal/game/engine/win.go). */
module WinCheck {
  import opened Tiles
  import opened Decomposition
  import opened Search
  import opened Analysis
  import opened Coverage
  import opened Score
  import opened Table
  import opened RunYaku
  import opened Fans
  import opened Dora
  import opened Tenpai

  // What checking a hand comes to: nothing, a win worth so much, or an index panic.
  datatype Verdict = NoWin | Wins(fu: nat, han: nat, yakuman: bool, yaku: seq<string>) | Crash

  // Claimed groups as open sets: a kan is stored with three tiles like a pon.
  function OpenMeld(m: Meld): Mentsu
  {
    Mentsu(m.kind == Chi, m.tile, 3, true)
  }

  function OpenMelds(ms: seq<Meld>): (r: seq<Mentsu>)
    ensures |r| == |ms|
  {
    seq(|ms|, n requires 0 <= n < |ms| => OpenMeld(ms[n]))
  }

  // Of how a hand was won only the draw and double riichi are passed on, and never riichi.
  function WinCtx(seat: nat, tsumo: bool, double: bool): Ctx
  {
    Ctx(seat % 4, 0, tsumo, false, double, false, false, false)
  }

  function Names(fans: seq<Fan>): seq<string>
  {
    seq(|fans|, n requires 0 <= n < |fans| => fans[n].name)
  }

  // The first result priced: its fu, its fans and the dora of the concealed tiles.
  function Price(res: Result, seat: nat, hand: seq<Tile>, tsumo: bool, closed: bool, dora: seq<Indicator>, double: bool): (v: Verdict)
    requires HasTiles(res) && AllCountable(hand)
    ensures v.Wins?
  {
    var c := WinCtx(seat, tsumo, double);
    var fr := FansOf(res, hand, c);
    var extra := Reds(hand) + Marked(hand, dora);
    Wins(FuOf(res, c, !tsumo && closed), fr.total + extra, fr.yakuman, Names(fr.fans) + if extra > 0 then ["dora"] else [])
  }

  function Judge(seat: nat, hand: seq<Tile>, melds: seq<Meld>, tsumo: bool, dora: seq<Indicator>): Verdict
  {
    var open := OpenMelds(melds);
    if !Analyzable(hand, |open|) then Crash
    else if Decompositions(hand, open) == [] then NoWin
    else if !HasTiles(Decompositions(hand, open)[0]) then Crash
    else Price(Decompositions(hand, open)[0], seat, hand, tsumo, open == [], dora, false)
  }

  method ContainedTiles(concealed: seq<Tile>, winTile: Tile) returns (out: seq<Tile>)
    ensures out == concealed + [winTile]
  {
    out := concealed;
    out := out + [winTile];
  }

  lemma {:induction false} SameWinds(ms: seq<Mentsu>, c: Ctx, d: Ctx)
    requires Tiled(ms) && c.seatWind == d.seatWind < 9 && c.roundWind == d.roundWind < 9
    ensures Winds(ms, c) == Winds(ms, d)
  {
    if ms != [] {
      SameWinds(ms[..|ms| - 1], c, d);
    }
  }

  lemma SameFan(y: Kind, r: Result, hand: seq<Tile>, c: Ctx, d: Ctx)
    requires Priceable(r, hand, c) && !c.riichi && d == c.(daburi := d.daburi)
    ensures FanOf(y, r, hand, c) == FanOf(y, r, hand, d)
  {
    SameWinds(r.melds, c, d);
  }

  lemma {:induction false} SameFans(ys: seq<Kind>, r: Result, hand: seq<Tile>, c: Ctx, d: Ctx)
    requires Priceable(r, hand, c) && !c.riichi && d == c.(daburi := d.daburi)
    ensures Collect(ys, r, hand, c) == Collect(ys, r, hand, d)
  {
    if ys != [] {
      SameFans(ys[..|ys| - 1], r, hand, c, d);
      SameFan(ys[|ys| - 1], r, hand, c, d);
    }
  }

  // Double riichi counts only beside a riichi flag that is never set.
  lemma DoubleAddsNothing(res: Result, seat: nat, hand: seq<Tile>, tsumo: bool, closed: bool, dora: seq<Indicator>, double: bool)
    requires HasTiles(res) && AllCountable(hand)
    ensures Price(res, seat, hand, tsumo, closed, dora, double) == Price(res, seat, hand, tsumo, closed, dora, false)
  {
    var c, d := WinCtx(seat, tsumo, double), WinCtx(seat, tsumo, false);
    SameFans(ORDER, res, hand, c, d);
    assert FuOf(res, c, !tsumo && closed) == FuOf(res, d, !tsumo && closed);
  }

  method ListNames(fans: seq<Fan>) returns (names: seq<string>)
    ensures names == Names(fans)
  {
    names := [];
    for n := 0 to |fans|
      invariant names == Names(fans[..n])
    {
      names := names + [fans[n].name];
    }
    assert fans[..|fans|] == fans;
  }

  // Scores the first decomposition Analyze returns; a declared double riichi changes nothing.
  method CheckWin(seat: nat, hand: seq<Tile>, melds: seq<Meld>, tsumo: bool, dora: seq<Indicator>, double: bool)
    returns (v: Verdict)
    ensures v == Judge(seat, hand, melds, tsumo, dora)
  {
    var open: seq<Mentsu> := [];
    for n := 0 to |melds|
      invariant open == OpenMelds(melds[..n])
    {
      open := open + [Mentsu(melds[n].kind == Chi, melds[n].tile, 3, true)];
    }
    assert melds[..|melds|] == melds;
    if !Analyzable(hand, |open|) { return Crash; }
    var results := Analyze(hand, open);
    if |results| == 0 { return NoWin; }
    if !HasTiles(results[0]) { return Crash; }
    DoubleAddsNothing(results[0], seat, hand, tsumo, open == [], dora, double);
    v := PriceFirst(results[0], seat, hand, tsumo, |open| == 0, dora, double);
  }

  method PriceFirst(res: Result, seat: nat, hand: seq<Tile>, tsumo: bool, closed: bool, dora: seq<Indicator>, double: bool)
    returns (v: Verdict)
    requires HasTiles(res) && AllCountable(hand)
    ensures v == Price(res, seat, hand, tsumo, closed, dora, double)
  {
    var c := WinCtx(seat, tsumo, double);
    var fr := Calc(res, hand, c);
    var doraN := CountDora(hand, dora);
    var yaku := ListNames(fr.fans);
    if doraN > 0 { yaku := yaku + ["dora"]; }
    var fu := Fu(res, c, !tsumo && closed);
    v := Wins(fu, fr.total + doraN, fr.yakuman, yaku);
  }

  // ---------- When does the check crash? ----------

  predicate NoBlankMeld(melds: seq<Meld>)
  {
    forall m | m in melds :: m.tile != ""
  }

  // Both special shapes carry an empty pair, and pricing a win reads the pair's last byte.
  ghost predicate Panics(hand: seq<Tile>, melds: seq<Meld>)
  {
    && |hand| == 14 - 3 * |melds|
    && (AllCountable(hand) ==>
         || (melds == [] && (Orphans(Tally(hand)) || AllPairs(Tally(hand))))
         || (!NoBlankMeld(melds) && Standard(Tally(hand), 4 - |melds|)))
  }

  // The check panics exactly on hands of the right length that hold a tile that cannot be counted,
  // on closed thirteen orphans and seven pairs, and on wins with a blank claimed tile.
  lemma CrashExactly(seat: nat, hand: seq<Tile>, melds: seq<Meld>, tsumo: bool, dora: seq<Indicator>)
    ensures Judge(seat, hand, melds, tsumo, dora).Crash? <==> Panics(hand, melds)
  {
    if AllCountable(hand) {
      if NoBlankMeld(melds) {
        TilesCrashExactly(seat, hand, melds, tsumo, dora);
      } else {
        BlankCrashExactly(seat, hand, melds, tsumo, dora);
      }
    }
  }

  // A result has the claimed tiles among its sets, blank ones too.
  lemma BlankCrashExactly(seat: nat, hand: seq<Tile>, melds: seq<Meld>, tsumo: bool, dora: seq<Indicator>)
    requires AllCountable(hand) && !NoBlankMeld(melds)
    ensures Judge(seat, hand, melds, tsumo, dora).Crash? <==> |hand| == 14 - 3 * |melds| && Standard(Tally(hand), 4 - |melds|)
  {
    var open := OpenMelds(melds);
    var rs := Decompositions(hand, open);
    AnalysisDecidesWinning(hand, open);
    if rs != [] {
      var p := ListedOrigin(Tally(hand), open, KINDS, rs[0]);
      IndexOfTileAt(p);
      var p', bs := AnalysisSound(hand, open, rs[0]);
      var i :| 0 <= i < |melds| && melds[i].tile == "";
      assert open[i].tile == "" && rs[0].melds[i] == open[i];
    }
  }

  lemma TilesCrashExactly(seat: nat, hand: seq<Tile>, melds: seq<Meld>, tsumo: bool, dora: seq<Indicator>)
    requires AllCountable(hand) && NoBlankMeld(melds)
    ensures Judge(seat, hand, melds, tsumo, dora).Crash? <==>
      |hand| == 14 && melds == [] && (Orphans(Tally(hand)) || AllPairs(Tally(hand)))
  {
    var open := OpenMelds(melds);
    var rs := Decompositions(hand, open);
    if rs != [] && rs[0] != SPECIAL {
      var p, bs := AnalysisSound(hand, open, rs[0]);
      IndexOfTileAt(p);
      forall m | m in rs[0].melds
        ensures |m.tile| > 0
      {
        if m in Melds(bs) {
          BlockTiles(bs, m);
        } else {
          OpenTiles(melds, m);
        }
      }
    }
    if rs != [] && rs[0] == SPECIAL && !(open == [] && (Orphans(Tally(hand)) || AllPairs(Tally(hand)))) {
      var p := ListedOrigin(Tally(hand), open, KINDS, rs[0]);
      IndexOfTileAt(p);
    }
  }

  lemma OpenTiles(melds: seq<Meld>, m: Mentsu)
    requires NoBlankMeld(melds) && m in OpenMelds(melds)
    ensures |m.tile| > 0
  {
    var n :| 0 <= n < |melds| && OpenMelds(melds)[n] == m;
    assert melds[n].tile != "";
  }

  lemma BlockTiles(bs: seq<Block>, m: Mentsu)
    requires AreBlocks(bs) && m in Melds(bs)
    ensures |m.tile| > 0
  {
    var n :| 0 <= n < |bs| && Melds(bs)[n] == m;
    IndexOfTileAt(bs[n].low);
  }

  // A tile added to a closed hand of thirteen makes a hand that is not turned down exactly when
  // the hand waits for it by the declarative definition, if it does not hold four already.
  lemma WaitsWin(seat: nat, concealed: seq<Tile>, t: Tile, tsumo: bool, dora: seq<Indicator>)
    requires AllCountable(concealed) && |concealed| == 13 && Countable(t) && Tally(concealed)[Slot(t)] < 4
    ensures !Judge(seat, concealed + [t], [], tsumo, dora).NoWin? <==> TileAt(Slot(t)) in Waits(concealed)
  {
    var hand, i := concealed + [t], Slot(t);
    forall k | 0 <= k < KINDS
      ensures AllCountable(hand) && Held(hand, k) == Drawn(Tally(concealed), i)[k]
    {
      assert hand[..13] == concealed;
    }
    assert Tally(hand) == Drawn(Tally(concealed), i);
    AnalysisDecidesWinning(hand, []);
    assert OpenMelds([]) == [];
    forall j | 0 <= j < KINDS && TileAt(j) == TileAt(i)
      ensures j == i
    {
      TileAtInjective(i, j);
    }
  }

  // A win is reported exactly for hands in standard form that do not panic.
  lemma WinsExactly(seat: nat, hand: seq<Tile>, melds: seq<Meld>, tsumo: bool, dora: seq<Indicator>)
    ensures Judge(seat, hand, melds, tsumo, dora).Wins? <==>
      && |hand| == 14 - 3 * |melds| && AllCountable(hand) && NoBlankMeld(melds)
      && Standard(Tally(hand), 4 - |melds|)
      && !(melds == [] && AllPairs(Tally(hand)))
  {
    CrashExactly(seat, hand, melds, tsumo, dora);
    if AllCountable(hand) {
      AnalysisDecidesWinning(hand, OpenMelds(melds));
      if |hand| == 14 && Orphans(Tally(hand)) {
        OrphansHaveNoSets(hand);
      }
    }
  }
}
