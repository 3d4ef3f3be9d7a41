/** What a payment comes to, in points (internal/game/yaku/score.go, internal/game/engine/round.go). */
module Amounts {
  import opened Score
  import opened Table

  // The least whole hundred from x up.
  predicate LeastHundred(p: nat, x: nat)
  {
    p % 100 == 0 && x <= p < x + 100
  }

  // Below five han a point of fu is worth eight, doubled with every further han.
  function PerFu(han: nat): nat
    requires 1 <= han <= 4
  {
    match han case 1 => 8 case 2 => 16 case 3 => 32 case 4 => 64
  }

  // The value that payments below five han are multiples of, with its cap.
  function Value(han: nat, fu: nat): nat
    requires 1 <= han <= 4
  {
    if fu * PerFu(han) < 2000 then fu * PerFu(han) else 2000
  }

  // A limit hand's ron by a non-dealer.
  function Limit(han: nat): nat
    requires han >= 5
  {
    if han == 5 then 8000 else if han <= 7 then 12000 else if han <= 10 then 16000 else if han <= 12 then 24000 else 32000
  }

  lemma ValueIsBase(han: nat, fu: nat)
    requires 1 <= han <= 4
    ensures BasePoints(han, fu) == Value(han, fu)
  {
    SmallPowers();
  }

  lemma RoundUpIsLeast(x: nat)
    ensures LeastHundred(RoundUp(x), x)
  {
    var k := RoundUpMeans(x);
  }

  // A ron costs four times the value, six times for a dealer, rounded up; limit hands have five tiers.
  lemma RonAmount(han: nat, fu: nat, dealer: bool)
    requires han >= 1
    ensures han <= 4 ==> LeastHundred(RonPayment(han, fu, dealer), Value(han, fu) * if dealer then 6 else 4)
    ensures han >= 5 ==> RonPayment(han, fu, dealer) == if dealer then Limit(han) / 2 * 3 else Limit(han)
  {
    if han <= 4 {
      ValueIsBase(han, fu);
      RoundUpIsLeast(Value(han, fu) * if dealer then 6 else 4);
    }
  }

  // A tsumo costs a losing dealer, and everybody who loses to one, twice the value, and the others
  // the value, rounded up; of a limit hand half and a quarter of the ron.
  lemma TsumoAmounts(han: nat, fu: nat, dealer: bool)
    requires han >= 1
    ensures var (fromDealer, fromOther) := TsumoPayment(han, fu, dealer);
      && (dealer ==> fromDealer == 0)
      && (han <= 4 ==>
            && (dealer ==> LeastHundred(fromOther, Value(han, fu) * 2))
            && (!dealer ==> LeastHundred(fromDealer, Value(han, fu) * 2) && LeastHundred(fromOther, Value(han, fu))))
      && (han >= 5 ==>
            && (dealer ==> fromOther == Limit(han) / 2)
            && (!dealer ==> fromDealer == Limit(han) / 2 && fromOther == Limit(han) / 4))
  {
    if han <= 4 {
      ValueIsBase(han, fu);
      RoundUpIsLeast(Value(han, fu) * 2);
      RoundUpIsLeast(Value(han, fu));
    }
  }

  // ---------- What reaches the scores ----------

  predicate Settles(w: Win)
  {
    w.han >= 1 || w.yakuman
  }

  // A ron moves the amount, or what the discarder has, from the discarder to the winner and leaves
  // everybody else alone.
  lemma RonReaches(s: State, seat: nat, from: nat, w: Win, i: nat)
    requires s.Valid() && seat < |s.seats| && from < |s.seats| && seat != from && i < |s.seats|
    ensures var price := if Settles(w) then RonPayment(w.han, w.fu, seat == s.dealer) else 0;
      var moved := if Settles(w) && s.scores[from] < price then s.scores[from] else price;
      RonStep(s, seat, from, w) == s.(scores := RonStep(s, seat, from, w).scores) && |RonStep(s, seat, from, w).scores| == |s.scores|
      && RonStep(s, seat, from, w).scores[i] == s.scores[i] + if i == seat then moved else if i == from then -moved else 0
  {
  }

  function Shares(s: State, n: nat, seat: nat, w: Win): nat
    requires n <= |s.seats|
  {
    if n == 0 then 0 else Shares(s, n - 1, seat, w) + Share(s, n - 1, seat, w)
  }

  // What seat i owes for a tsumo by another seat.
  function Share(s: State, i: nat, seat: nat, w: Win): nat
  {
    var (fromDealer, fromOther) := TsumoPayment(w.han, w.fu, seat == s.dealer);
    if !Settles(w) || i == seat then 0 else if i == s.dealer then fromDealer else fromOther
  }

  lemma {:induction false} SharesArePot(s: State, n: nat, seat: nat, w: Win)
    requires n <= |s.seats| && Settles(w)
    ensures Shares(s, n, seat, w) == TsumoPot(s, n, seat, w)
  {
    if n > 0 {
      SharesArePot(s, n - 1, seat, w);
    }
  }

  // A tsumo takes every other seat's share and gives the winner their sum.
  lemma TsumoReaches(s: State, seat: nat, w: Win, i: nat)
    requires s.Valid() && seat < |s.seats| && i < |s.seats|
    ensures var after := TsumoStep(s, seat, w);
      && after == s.(scores := after.scores) && |after.scores| == |s.scores|
      && after.scores[i] == if i == seat then s.scores[i] + Shares(s, |s.seats|, seat, w) else s.scores[i] - Share(s, i, seat, w)
  {
    if Settles(w) {
      SharesArePot(s, |s.seats|, seat, w);
    } else {
      NoShares(s, |s.seats|, seat, w);
    }
  }

  lemma {:induction false} NoShares(s: State, n: nat, seat: nat, w: Win)
    requires n <= |s.seats| && !Settles(w)
    ensures Shares(s, n, seat, w) == 0
  {
    if n > 0 {
      NoShares(s, n - 1, seat, w);
    }
  }
}
