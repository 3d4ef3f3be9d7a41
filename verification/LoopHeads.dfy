/** Invariants of every loop head of a round (internal/game/loop.go). */
module LoopHeads {
  import opened Tiles
  import opened Table
  import opened Ledger
  import opened WinCheck
  import opened TurnSpec
  import opened TurnRuns

  // ---------- The invariants ----------

  function GivenUp(ms: seq<Meld>): nat
  {
    if ms == [] then 0 else GivenUp(ms[..|ms| - 1]) + Taken(ms[|ms| - 1])
  }

  // Thirteen tiles a seat, those given up for melds included, and one more for the holder.
  predicate Sized(s: State, holder: int)
  {
    forall i | 0 <= i < |s.seats| ::
      |s.seats[i].hand| + GivenUp(s.seats[i].melds) == if i == holder then 14 else 13
  }

  predicate ClosedRiichi(s: State)
  {
    forall i | 0 <= i < |s.seats| && s.seats[i].riichi :: s.seats[i].melds == []
  }

  predicate SeatReadable(p: Seat)
  {
    AllCountable(p.hand) && AllCountable(p.discards) && NoBlankMeld(p.melds)
  }

  predicate Readable(s: State)
  {
    AllCountable(s.wall) && forall i | 0 <= i < |s.seats| :: SeatReadable(s.seats[i])
  }

  // The loop's own seat variable names the engine's current seat while the round is on.
  predicate InStep(s: State, seat: nat)
  {
    s.phase.Playing? ==> seat == s.current
  }

  // The engine at a loop head, whatever seat the loop is at.
  predicate EngineOk(s: State, first: bool)
  {
    && s.Valid() && !s.phase.Dealing? && (first ==> s.phase.Playing?)
    && Sized(s, if first then s.current else -1)
    && ClosedRiichi(s) && DoubleMeansRiichi(s) && Readable(s)
  }

  predicate HeadOk(s: State, seat: nat, first: bool)
  {
    EngineOk(s, first) && seat < |s.seats| && InStep(s, seat)
  }

  // The engine when a decision is due: its seat holds fourteen, everybody else thirteen.
  predicate DecisionOk(s: State)
  {
    && s.Valid() && s.phase.Playing?
    && Sized(s, s.current) && ClosedRiichi(s) && DoubleMeansRiichi(s) && Readable(s)
  }

  function Drawn(s: State, first: bool): State
    requires s.Valid()
  {
    if first then s else DrawStep(s).0
  }

  lemma DrawReachesDecision(s: State, first: bool)
    requires EngineOk(s, first) && GoesOn(s)
    ensures var drawn := Drawn(s, first);
      DecisionOk(drawn) && drawn.current == s.current && |drawn.seats[s.current].hand| + GivenUp(s.seats[s.current].melds) == 14
  {
    if !first {
      var p := s.seats[s.current];
      assert s.wall[1..] == s.wall[1..|s.wall|];
      assert SeatReadable(p.(hand := p.hand + [s.wall[0]]));
    }
  }

  lemma {:induction false} RemovalReadable(hand: seq<Tile>, t: Tile, n: nat)
    requires AllCountable(hand)
    ensures AllCountable(RemoveCopies(hand, t, n))
  {
    if hand != [] {
      RemovalReadable(hand[1..], t, if hand[0] == t && n > 0 then n - 1 else n);
    }
  }

  lemma ThrownOk(p: Seat, t: Tile)
    requires t in p.hand && SeatReadable(p)
    ensures SeatReadable(Thrown(p, t)) && |Thrown(p, t).hand| == |p.hand| - 1
  {
    assert t in multiset(p.hand);
    RemoveCopiesCount(p.hand, t, 1, t);
    RemovalReadable(p.hand, t, 1);
  }

  lemma ThrowOk(s: State, t: Tile, q: Seat, r: State)
    requires DecisionOk(s) && t in s.seats[s.current].hand
    requires q == Thrown(s.seats[s.current], t).(riichi := q.riichi) && (q.riichi ==> q.melds == [])
    requires r.seats == s.seats[s.current := q] && r.wall == s.wall && r.phase == s.phase && r.dealer == s.dealer
    requires r.current == After(s, s.current) && |r.scores| == |r.doubleRiichi| == |s.seats|
    requires forall i | 0 <= i < |s.seats| && r.doubleRiichi[i] :: s.doubleRiichi[i] || (i == s.current && q.riichi)
    requires s.seats[s.current].riichi ==> q.riichi
    ensures EngineOk(r, false)
  {
    ThrownOk(s.seats[s.current], t);
    assert SeatReadable(q);
  }

  // After a play that passes the turn on everybody holds thirteen, and engine and loop have both
  // moved one seat on.
  lemma PlayedOk(s: State, seat: nat, d: Decision)
    requires DecisionOk(s) && seat < |s.seats| && Played(s, seat, d).Next?
    ensures var r := Played(s, seat, d); EngineOk(r.state, false) && r.state.phase.Playing?
    ensures var r := Played(s, seat, d);
      r.seat == After(s, seat) && r.state.current == After(s, s.current) && r.state.wall == s.wall
  {
    var p := s.seats[s.current];
    var t := if d.op == OP_TSUMO then FirstTile(s.seats[seat].hand) else d.tile;
    var q := if d.op == OP_RIICHI then Thrown(p, t).(riichi := true) else Thrown(p, t);
    ThrowOk(s, t, q, Played(s, seat, d).state);
  }

  lemma ClaimOk(p: Seat, m: Meld)
    requires SeatReadable(p) && CopiesIn(p.hand, m.tile) >= Taken(m)
    ensures var q := p.(hand := RemoveCopies(p.hand, m.tile, Taken(m)), melds := p.melds + [m]);
      SeatReadable(q) && |q.hand| + GivenUp(q.melds) == |p.hand| + GivenUp(p.melds)
  {
    var n := Taken(m);
    RemoveCopiesCount(p.hand, m.tile, n, m.tile);
    RemovalReadable(p.hand, m.tile, n);
    assert m.tile in multiset(p.hand);
    assert (p.melds + [m])[..|p.melds|] == p.melds;
    forall x | x in p.melds + [m] ensures x.tile != "" { assert x in p.melds || x == m; }
  }

  lemma CallOk(s: State, k: nat, m: Meld)
    requires EngineOk(s, false) && s.phase.Playing?
    requires k < |s.seats| && !s.seats[k].riichi && CallStep(s, k, m).1.Done?
    ensures EngineOk(CallStep(s, k, m).0, false) && CallStep(s, k, m).0.current == k
  {
    var p := s.seats[k];
    ClaimOk(p, m);
    var q := p.(hand := RemoveCopies(p.hand, m.tile, Taken(m)), melds := p.melds + [m]);
    assert CallStep(s, k, m).0.seats == s.seats[k := q];
  }

  lemma ClaimedOk(s: State, bots: set<nat>, claimed: Tile, from: nat, next: nat, turn: Turn)
    requires EngineOk(s, false) && s.phase.Playing? && from < |s.seats| && next < |s.seats|
    requires Claimed(s, bots, claimed, from, next, turn).Next?
    ensures var r := Claimed(s, bots, claimed, from, next, turn);
      EngineOk(r.state, false) && (InStep(s, next) ==> InStep(r.state, r.seat))
  {
    var k, w := RonPassCases(s, bots, claimed, from, next);
    if RonPass(s, bots, Verdicts(s, claimed), from, next, 1).None? {
      var j, m := CallPassCases(s, bots, claimed, next, 1, turn.calls);
      if CallPass(s, bots, claimed, next, 1, turn.calls) != Next(s, next) {
        CallOk(s, j, m);
      }
    }
  }

  // One turn leads from a good loop head to a good loop head, and stays in step.
  lemma TurnOk(s: State, seat: nat, first: bool, bots: set<nat>, turn: Turn)
    requires EngineOk(s, first) && seat < |s.seats| && GoesOn(s) && TakeTurn(s, seat, first, bots, turn).Next?
    ensures var r := TakeTurn(s, seat, first, bots, turn);
      EngineOk(r.state, false) && (InStep(s, seat) ==> InStep(r.state, r.seat))
  {
    DrawReachesDecision(s, first);
    var drawn := Drawn(s, first);
    var (d, err) := Decide(drawn.seats[seat].hand, turn.choice);
    PlayedOk(drawn, seat, d);
    var played := Played(drawn, seat, d);
    ClaimedOk(played.state, bots, d.tile, seat, played.seat, turn);
  }

  // ---------- All heads of a run ----------

  datatype Head = Head(state: State, seat: nat, first: bool)

  // The loop heads a run passes, in order.
  function Heads(s: State, seat: nat, first: bool, bots: set<nat>, script: seq<Turn>): (hs: seq<Head>)
    requires s.Valid() && seat < |s.seats|
    ensures |hs| >= 1
    decreases |script|
  {
    [Head(s, seat, first)] +
    if !GoesOn(s) || script == [] then []
    else
      match TakeTurn(s, seat, first, bots, script[0])
      case Halt(_, _) => []
      case Next(s', seat') => Heads(s', seat', false, bots, script[1..])
  }

  // Wherever the loop starts, every head finds thirteen tiles a seat, riichi hands closed and every
  // tile countable; started at the engine's seat, loop and engine name the same seat throughout.
  lemma {:induction false} EveryHeadOk(s: State, seat: nat, first: bool, bots: set<nat>, script: seq<Turn>)
    requires EngineOk(s, first) && seat < |s.seats|
    ensures forall h | h in Heads(s, seat, first, bots, script) :: EngineOk(h.state, h.first)
    ensures InStep(s, seat) ==> forall h | h in Heads(s, seat, first, bots, script) :: HeadOk(h.state, h.seat, h.first)
    decreases |script|
  {
    if GoesOn(s) && script != [] {
      var r := TakeTurn(s, seat, first, bots, script[0]);
      if r.Next? {
        TurnOk(s, seat, first, bots, script[0]);
        EveryHeadOk(r.state, r.seat, false, bots, script[1..]);
      }
    }
  }

  // ---------- Riichi, from any seat ----------

  // A seat in riichi has no melds, and double riichi is a riichi with its discard on record.
  predicate RiichiSound(s: State)
    requires s.Valid()
  {
    ClosedRiichi(s) && DoubleMeansRiichi(s)
  }

  lemma PlayedKeepsClosed(s: State, seat: nat, d: Decision)
    requires s.Valid() && seat < |s.seats| && ClosedRiichi(s)
    ensures ClosedRiichi(Played(s, seat, d).state)
  {
  }

  lemma ClaimedKeepsClosed(s: State, bots: set<nat>, claimed: Tile, from: nat, next: nat, turn: Turn)
    requires s.Valid() && from < |s.seats| && next < |s.seats| && ClosedRiichi(s)
    ensures ClosedRiichi(Claimed(s, bots, claimed, from, next, turn).state)
  {
    var k, w := RonPassCases(s, bots, claimed, from, next);
    var j, m := CallPassCases(s, bots, claimed, next, 1, turn.calls);
  }

  // Wherever the loop starts, in step with the engine or not, a turn keeps riichi hands closed.
  lemma TurnKeepsRiichi(s: State, seat: nat, first: bool, bots: set<nat>, turn: Turn)
    requires s.Valid() && seat < |s.seats| && s.wall != [] && RiichiSound(s)
    ensures RiichiSound(TakeTurn(s, seat, first, bots, turn).state)
  {
    var drawn := Drawn(s, first);
    var (d, err) := Decide(drawn.seats[seat].hand, turn.choice);
    if err.None? {
      PlayedKeepsClosed(drawn, seat, d);
      var played := Played(drawn, seat, d);
      if played.Next? {
        ClaimedKeepsClosed(played.state, bots, d.tile, seat, played.seat, turn);
      }
    }
    var ops := TurnIsRun(s, seat, first, bots, turn);
    RunKeepsDoubleRiichi(s, ops);
  }

  // In every run from every seat riichi is sound, at every loop head and at the end.
  lemma {:induction false} RiichiAlwaysSound(s: State, seat: nat, first: bool, bots: set<nat>, script: seq<Turn>)
    requires s.Valid() && seat < |s.seats| && RiichiSound(s)
    ensures forall h | h in Heads(s, seat, first, bots, script) :: h.state.Valid() && RiichiSound(h.state)
    ensures RiichiSound(Play(s, seat, first, bots, script).0)
    decreases |script|
  {
    if GoesOn(s) && script != [] {
      TurnKeepsRiichi(s, seat, first, bots, script[0]);
      var r := TakeTurn(s, seat, first, bots, script[0]);
      if r.Next? {
        RiichiAlwaysSound(r.state, r.seat, false, bots, script[1..]);
      }
    }
  }

  // How many turns the loop takes.
  function Turns(s: State, seat: nat, first: bool, bots: set<nat>, script: seq<Turn>): nat
    requires s.Valid() && seat < |s.seats|
    decreases |script|
  {
    if !GoesOn(s) || script == [] then 0
    else
      match TakeTurn(s, seat, first, bots, script[0])
      case Halt(_, _) => 1
      case Next(s', seat') => 1 + Turns(s', seat', false, bots, script[1..])
  }
}
