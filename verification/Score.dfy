/** Fu and payments (internal/game/yaku/score.go). */
module Score {
  import opened Basics
  import opened Tiles
  import opened Search
  import opened Analysis

  // ---------- Payments ----------

  // (non-dealer ron, dealer ron) of a limit hand.
  function LimitPayment(han: int): (nat, nat)
  {
    if han >= 13 then (32000, 48000)
    else if han >= 11 then (24000, 36000)
    else if han >= 8 then (16000, 24000)
    else if han >= 6 then (12000, 18000)
    else (8000, 12000)
  }

  // The shift panics below -2 han.
  function BasePoints(han: int, fu: nat): nat
    requires han >= -2
  {
    if han >= 5 || (han >= 4 && fu >= 40) then 2000
    else
      var bp := fu * Pow2(2 + han);
      if bp > 2000 then 2000 else bp
  }

  function RoundUp(p: nat): nat
  {
    (p + 99) / 100 * 100
  }

  function RonPayment(han: int, fu: nat, byDealer: bool): nat
    requires han >= -2
  {
    if han >= 5 then (if byDealer then LimitPayment(han).1 else LimitPayment(han).0)
    else RoundUp(BasePoints(han, fu) * if byDealer then 6 else 4)
  }

  // (what the dealer pays, what every other loser pays)
  function TsumoPayment(han: int, fu: nat, winnerDealer: bool): (nat, nat)
    requires han >= -2
  {
    if han >= 5 then
      var nd := LimitPayment(han).0;
      if winnerDealer then (0, RoundUp(nd / 2)) else (RoundUp(nd / 2), RoundUp(nd / 4))
    else
      var bp := BasePoints(han, fu);
      if winnerDealer then (0, RoundUp(bp * 2)) else (RoundUp(bp * 2), RoundUp(bp))
  }

  // What a tsumo collects at a table of four.
  function TsumoTotal(han: int, fu: nat, winnerDealer: bool): nat
    requires han >= -2
  {
    var pays := TsumoPayment(han, fu, winnerDealer);
    if winnerDealer then 3 * pays.1 else pays.0 + 2 * pays.1
  }

  // The least multiple of a hundred from p up.
  lemma RoundUpMeans(p: nat) returns (k: nat)
    ensures RoundUp(p) == 100 * k && p <= 100 * k < p + 100 && RoundUp(p) % 100 == 0
  {
    k := (p + 99) / 100;
  }

  lemma RoundUpMonotone(p: nat, q: nat)
    requires p <= q
    ensures RoundUp(p) <= RoundUp(q)
  {
    var k := RoundUpMeans(p);
    var l := RoundUpMeans(q);
  }

  lemma SmallPowers()
    ensures Pow2(0) == 1 && Pow2(1) == 2 && Pow2(2) == 4 && Pow2(3) == 8 && Pow2(4) == 16 && Pow2(5) == 32 && Pow2(6) == 64
  {
  }

  lemma TimesMonotone(a: nat, x: nat, b: nat, y: nat)
    requires a <= b && x <= y
    ensures a * x <= b * y
  {
    assert b * y == a * x + a * (y - x) + (b - a) * y;
    assert a * (y - x) >= 0 && (b - a) * y >= 0;
  }

  lemma BasePointsMonotone(han: int, fu: nat, han': int, fu': nat)
    requires -2 <= han <= han' && fu <= fu'
    ensures BasePoints(han, fu) <= BasePoints(han', fu') <= 2000
  {
    SmallPowers();
    if han' < 5 {
      var x, y := Pow2(2 + han), Pow2(2 + han');
      assert x <= y && y in {1, 2, 4, 8, 16, 32, 64};
      TimesMonotone(fu, x, fu', y);
    }
  }

  // The roundings of one base value, in hundreds.
  lemma Roundings(b: nat) returns (k1: nat, k2: nat, k4: nat, k6: nat)
    ensures RoundUp(b) == 100 * k1 && RoundUp(b * 2) == 100 * k2
    ensures RoundUp(b * 4) == 100 * k4 && RoundUp(b * 6) == 100 * k6
    ensures k4 <= k2 + 2 * k1 <= k4 + 2 && k6 <= 3 * k2 <= k6 + 2
    ensures RoundUp(b) % 100 == RoundUp(b * 2) % 100 == RoundUp(b * 4) % 100 == RoundUp(b * 6) % 100 == 0
  {
    k1 := RoundUpMeans(b);
    k2 := RoundUpMeans(b * 2);
    k4 := RoundUpMeans(b * 4);
    k6 := RoundUpMeans(b * 6);
  }

  lemma LimitInHundreds(han: int)
    ensures var (nd, d) := LimitPayment(han);
      && nd % 400 == 0 && d == nd / 2 * 3 && nd >= 8000
      && RoundUp(nd / 2) == nd / 2 && RoundUp(nd / 4) == nd / 4
  {
  }

  // Every payment is a whole number of hundreds.
  lemma PaymentsInHundreds(han: int, fu: nat, dealer: bool)
    requires han >= -2
    ensures RonPayment(han, fu, dealer) % 100 == 0
    ensures TsumoPayment(han, fu, dealer).0 % 100 == 0 && TsumoPayment(han, fu, dealer).1 % 100 == 0
  {
    if han >= 5 {
      LimitInHundreds(han);
    } else {
      var k1, k2, k4, k6 := Roundings(BasePoints(han, fu));
    }
  }

  // More han or more fu never pays less, across the boundary to the limit hands too.
  lemma PaymentsMonotone(han: int, fu: nat, han': int, fu': nat, dealer: bool)
    requires -2 <= han <= han' && fu <= fu'
    ensures RonPayment(han, fu, dealer) <= RonPayment(han', fu', dealer)
    ensures TsumoPayment(han, fu, dealer).0 <= TsumoPayment(han', fu', dealer).0
    ensures TsumoPayment(han, fu, dealer).1 <= TsumoPayment(han', fu', dealer).1
  {
    var b := if han < 5 then BasePoints(han, fu) else 2000;
    var b' := if han' < 5 then BasePoints(han', fu') else 2000;
    BasePointsMonotone(han, fu, han', fu');
    RoundUpMonotone(b * 6, b' * 6);
    RoundUpMonotone(b * 4, b' * 4);
    RoundUpMonotone(b * 2, b' * 2);
    RoundUpMonotone(b, b');
  }

  // At four players a tsumo collects at least the ron payment and at most 200 more; limit hands
  // collect exactly the same.
  lemma TsumoAgainstRon(han: int, fu: nat, dealer: bool)
    requires han >= -2
    ensures RonPayment(han, fu, dealer) <= TsumoTotal(han, fu, dealer) <= RonPayment(han, fu, dealer) + 200
    ensures han >= 5 ==> TsumoTotal(han, fu, dealer) == RonPayment(han, fu, dealer)
  {
    if han >= 5 {
      LimitInHundreds(han);
    } else {
      var k1, k2, k4, k6 := Roundings(BasePoints(han, fu));
    }
  }

  lemma DealerPaysMore(han: int, fu: nat)
    requires han >= -2
    ensures TsumoPayment(han, fu, false).0 >= TsumoPayment(han, fu, false).1
  {
    if han < 5 {
      RoundUpMonotone(BasePoints(han, fu), BasePoints(han, fu) * 2);
    } else {
      var nd := LimitPayment(han).0;
      RoundUpMonotone(nd / 4, nd / 2);
    }
  }

  // ---------- Fu ----------

  // How a hand was won, as far as pricing reads it.
  datatype Ctx = Ctx(
    seatWind: nat, roundWind: nat, zimo: bool,
    riichi: bool, daburi: bool, ippatsu: bool, rinshan: bool, chankan: bool)

  predicate HasTiles(r: Result)
  {
    |r.pair| > 0 && forall m | m in r.melds :: |m.tile| > 0
  }

  function WindTile(w: nat): Tile
    requires w < 9
  {
    [('1' as int + w) as char, 'z']
  }

  function SetFu(m: Mentsu): nat
    requires |m.tile| > 0
  {
    if m.shuntsu then 0
    else
      var base := if m.n == 4 then 8 else 2;
      var edge := if IsTerminal(m.tile) || IsHonor(m.tile) then 2 * base else base;
      if m.open then edge else 2 * edge
  }

  function SetsFu(ms: seq<Mentsu>): nat
    requires forall m | m in ms :: |m.tile| > 0
  {
    if ms == [] then 0 else SetsFu(ms[..|ms| - 1]) + SetFu(ms[|ms| - 1])
  }

  function RawFu(r: Result, c: Ctx, winOnClosed: bool): nat
    requires HasTiles(r) && c.seatWind < 9 && c.roundWind < 9
  {
    20 + (if c.zimo then 2 else 0) + (if winOnClosed then 10 else 0)
    + (if IsHonor(r.pair) || r.pair == WindTile(c.seatWind) || r.pair == WindTile(c.roundWind) then 2 else 0)
    + SetsFu(r.melds)
  }

  function FuOf(r: Result, c: Ctx, winOnClosed: bool): nat
    requires HasTiles(r) && c.seatWind < 9 && c.roundWind < 9
  {
    (RawFu(r, c, winOnClosed) + 9) / 10 * 10
  }

  lemma TensUp(raw: nat)
    ensures var r := (raw + 9) / 10 * 10;
      r % 10 == 0 && raw <= r < raw + 10 && (raw % 10 == 0 ==> r == raw)
  {
  }

  // Fu is the raw sum raised to a whole ten. It reads the pair's last byte, so it needs a
  // result whose pair is a tile: the special shapes carry the empty one.
  method Fu(r: Result, c: Ctx, winOnClosed: bool) returns (fu: nat)
    requires HasTiles(r) && c.seatWind < 9 && c.roundWind < 9
    ensures fu == FuOf(r, c, winOnClosed)
    ensures fu % 10 == 0 && 20 <= RawFu(r, c, winOnClosed) <= fu < RawFu(r, c, winOnClosed) + 10
  {
    fu := 20;
    if c.zimo { fu := fu + 2; }
    if winOnClosed { fu := fu + 10; }
    if IsHonor(r.pair) || r.pair == WindTile(c.seatWind) || r.pair == WindTile(c.roundWind) { fu := fu + 2; }
    ghost var base := fu;
    for n := 0 to |r.melds|
      invariant fu == base + SetsFu(r.melds[..n])
    {
      var m := r.melds[n];
      assert r.melds[..n + 1][..n] == r.melds[..n];
      if m.shuntsu { continue; }
      var v := 2;
      if m.n == 4 { v := 8; }
      if IsTerminal(m.tile) || IsHonor(m.tile) { v := v * 2; }
      if !m.open { v := v * 2; }
      fu := fu + v;
    }
    assert r.melds[..|r.melds|] == r.melds;
    TensUp(fu);
    if fu % 10 == 0 { return; }
    fu := (fu + 9) / 10 * 10;
  }
}
