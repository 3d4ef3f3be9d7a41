/** The state of one round and the effect of each engine step on it (internal/game/engine/round.go). */
module Table {
  import opened Tiles
  import opened Score
  import opened Dora

  datatype MeldType = Chi | Pon | Daiminkan | Ankan | Kakan

  datatype Meld = Meld(kind: MeldType, tile: Tile, tiles: seq<Tile>)

  datatype Seat = Seat(hand: seq<Tile>, melds: seq<Meld>, riichi: bool, discards: seq<Tile>)

  datatype Phase = Dealing | Playing | Ended

  datatype Error = NotTurn | InvalidDiscard | InvalidRiichi | NoTiles

  datatype Status = Done | Failed(error: Error)

  // A priced win.
  datatype Win = Win(seat: nat, tsumo: bool, han: nat, fu: nat, yakuman: bool, ronFrom: int)

  datatype State = State(
    dealer: nat, extra: Tile, seats: seq<Seat>, scores: seq<int>, sticks: nat, winner: int,
    wall: seq<Tile>, current: nat, phase: Phase, doubleRiichi: seq<bool>, dora: seq<Indicator>)
  {
    predicate Valid()
    {
      && |seats| == |scores| == |doubleRiichi|
      && current < |seats| && dealer < |seats|
    }
  }

  // ---------- Taking tiles out of a hand ----------

  function CopiesIn(hand: seq<Tile>, t: Tile): nat
  {
    multiset(hand)[t]
  }

  // The hand without its first n copies of the tile, or all of them when there are fewer.
  function RemoveCopies(hand: seq<Tile>, t: Tile, n: nat): seq<Tile>
  {
    if hand == [] then []
    else if hand[0] == t && n > 0 then RemoveCopies(hand[1..], t, n - 1)
    else [hand[0]] + RemoveCopies(hand[1..], t, n)
  }

  lemma {:induction false} RemoveCopiesCount(hand: seq<Tile>, t: Tile, n: nat, x: Tile)
    requires n <= CopiesIn(hand, t)
    ensures CopiesIn(RemoveCopies(hand, t, n), x) == CopiesIn(hand, x) - if x == t then n else 0
    ensures |RemoveCopies(hand, t, n)| == |hand| - n
  {
    if hand != [] {
      assert hand == [hand[0]] + hand[1..];
      RemoveCopiesCount(hand[1..], t, if hand[0] == t && n > 0 then n - 1 else n, x);
    }
  }

  // ---------- The steps ----------

  function WithSeat(s: State, i: nat, p: Seat): State
    requires i < |s.seats|
  {
    s.(seats := s.seats[i := p])
  }

  function Rotated(s: State): State
    requires s.Valid()
  {
    s.(current := (s.current + 1) % |s.seats|)
  }

  function StartStep(s: State): (State, Status)
    requires s.Valid()
  {
    if !s.phase.Dealing? then (s, Failed(NotTurn))
    else
      var p := s.seats[s.dealer];
      (WithSeat(s, s.dealer, p.(hand := p.hand + [s.extra])).(phase := Playing, current := s.dealer), Done)
  }

  function DrawStep(s: State): (State, Status)
    requires s.Valid()
  {
    if s.wall == [] then (s, Failed(NoTiles))
    else
      var p := s.seats[s.current];
      (WithSeat(s, s.current, p.(hand := p.hand + [s.wall[0]])).(wall := s.wall[1..]), Done)
  }

  function Thrown(p: Seat, t: Tile): Seat
  {
    p.(hand := RemoveCopies(p.hand, t, 1), discards := p.discards + [t])
  }

  function DiscardStep(s: State, t: Tile): (State, Status)
    requires s.Valid()
  {
    var p := s.seats[s.current];
    if !s.phase.Playing? then (s, Failed(NotTurn))
    else if t !in p.hand then (s, Failed(InvalidDiscard))
    else (Rotated(WithSeat(s, s.current, Thrown(p, t))), Done)
  }

  predicate AnyMeld(s: State)
  {
    exists i :: 0 <= i < |s.seats| && s.seats[i].melds != []
  }

  function RiichiStep(s: State, t: Tile): (State, Status)
    requires s.Valid()
  {
    var i, p := s.current, s.seats[s.current];
    if p.melds != [] then (s, Failed(InvalidRiichi))
    else if t !in p.hand then (s, Failed(InvalidDiscard))
    else
      var double := p.discards == [] && !AnyMeld(s);
      var s' := WithSeat(s, i, Thrown(p, t).(riichi := true));
      (Rotated(s'.(
        doubleRiichi := if double then s.doubleRiichi[i := true] else s.doubleRiichi,
        sticks := s.sticks + 1,
        scores := s.scores[i := s.scores[i] - 1000])), Done)
  }

  function Need(k: MeldType): nat
  {
    if k == Daiminkan then 4 else 3
  }

  // The melds a seat may claim: pon on two copies, kan on three, none under riichi.
  function CandidatesOf(p: Seat, claimed: Tile): seq<Meld>
  {
    if p.riichi then []
    else
      (if CopiesIn(p.hand, claimed) >= 2 then [Meld(Pon, claimed, [claimed, claimed, claimed])] else [])
      + (if CopiesIn(p.hand, claimed) >= 3 then [Meld(Daiminkan, claimed, [claimed, claimed, claimed, claimed])] else [])
  }

  // Of the claimed set only the seat's own tiles move; the discarded one stays in its pile.
  function CallStep(s: State, i: nat, m: Meld): (State, Status)
    requires s.Valid() && i < |s.seats|
  {
    var p, n := s.seats[i], Need(m.kind) - 1;
    if CopiesIn(p.hand, m.tile) < n then (s, Failed(InvalidDiscard))
    else
      (WithSeat(s, i, p.(hand := RemoveCopies(p.hand, m.tile, n), melds := p.melds + [m])).(current := i), Done)
  }

  function EndStep(s: State, winner: int): State
  {
    s.(winner := winner, phase := Ended)
  }

  predicate Pays(w: Win)
  {
    w.han > 0 || w.yakuman
  }

  // What seat i pays into a tsumo.
  function TsumoShare(s: State, i: nat, seat: nat, w: Win): nat
  {
    var pays := TsumoPayment(w.han, w.fu, seat == s.dealer);
    if i == seat then 0 else if i == s.dealer then pays.0 else pays.1
  }

  function TsumoPot(s: State, n: nat, seat: nat, w: Win): nat
  {
    if n == 0 then 0 else TsumoPot(s, n - 1, seat, w) + TsumoShare(s, n - 1, seat, w)
  }

  function TsumoStep(s: State, seat: nat, w: Win): State
    requires s.Valid() && seat < |s.seats|
  {
    if !Pays(w) then s
    else
      s.(scores := seq(|s.scores|, i requires 0 <= i < |s.scores| =>
        s.scores[i] - TsumoShare(s, i, seat, w) + if i == seat then TsumoPot(s, |s.scores|, seat, w) else 0))
  }

  // A ron takes at most what the discarder has.
  function RonMoves(s: State, seat: nat, from: nat, w: Win): int
    requires s.Valid() && from < |s.seats|
  {
    var pay := RonPayment(w.han, w.fu, seat == s.dealer);
    if !Pays(w) then 0 else if pay > s.scores[from] then s.scores[from] else pay
  }

  function RonStep(s: State, seat: nat, from: nat, w: Win): State
    requires s.Valid() && seat < |s.seats| && from < |s.seats|
  {
    var pay := RonMoves(s, seat, from, w);
    var paid := s.scores[from := s.scores[from] - pay];
    s.(scores := paid[seat := paid[seat] + pay])
  }

  // ---------- A new round ----------

  datatype Wall = Wall(hands: seq<seq<Tile>>, extra: Tile, stack: seq<Tile>, dead: seq<Tile>)

  const MAX_DORA: nat := 5

  // The first n dora indicators: every second tile of the dead wall from the fifth on, as far as
  // it reaches.
  function Indicators(dead: seq<Tile>, n: nat): seq<Indicator>
  {
    if n == 0 then []
    else
      var pos := 4 + (n - 1) * 2;
      Indicators(dead, n - 1) + if pos < |dead| && dead[pos] != "" then [dead[pos]] else []
  }

  function NewState(n: nat, initialScore: int, kyoku: nat, w: Wall): State
    requires 0 < n <= |w.hands|
  {
    State(
      kyoku % n, w.extra,
      seq(n, i requires 0 <= i < n => Seat(w.hands[i], [], false, [])),
      seq(n, _ => if initialScore == 0 then 25000 else initialScore),
      0, -1, w.stack, kyoku % n, Dealing, seq(n, _ => false), Indicators(w.dead, MAX_DORA))
  }
}
