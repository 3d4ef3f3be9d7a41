/** The loop that drives a round to its end (internal/game/loop.go). */
module TurnLoop {
  import opened Basics
  import opened Tiles
  import opened Table
  import opened Round
  import opened WinCheck
  import opened TurnSpec

  // How one part of a turn ends: pass the turn on, or stop the loop.
  datatype Outcome = PassTo(seat: nat) | StopWith(ending: Ending)

  ghost function AsStep(s: State, o: Outcome): Step
  {
    match o
    case PassTo(seat) => Next(s, seat)
    case StopWith(ending) => Halt(s, ending)
  }

  method DecidePlay(r: Round, seat: nat, c: Choice) returns (d: Decision, err: Option<PlayError>)
    requires r.Valid() && seat < |r.seats|
    ensures (d, err) == Decide(r.seats[seat].hand, c)
  {
    d, err := Decision(OP_DISCARD, ""), None;
    match c
    case Cancelled => err := Some(NoDecision);
    case Human(op, tile) => d := Decision(op, tile);
    case Bot(self, discard) =>
      if self.Some? {
        if self.value == SelfTsumo { return Decision(OP_TSUMO, ""), None; }
        if self.value == SelfRiichi { return Decision(OP_RIICHI, discard), None; }
      }
      if discard == "" && |r.seats[seat].hand| == 0 { return d, Some(EmptyHand); }
      d := Decision(OP_DISCARD, discard);
  }

  method ThrowTile(r: Round, seat: nat, t: Tile) returns (o: Outcome)
    requires r.Valid() && seat < |r.seats|
    modifies r
    ensures AsStep(r.State(), o) == Throw(old(r.State()), seat, t)
  {
    var status := r.Discard(t);
    if status.Failed? { return StopWith(Stopped(Engine(status.error))); }
    return PassTo((seat + 1) % |r.seats|);
  }

  method ApplyPlay(r: Round, seat: nat, d: Decision) returns (o: Outcome)
    requires r.Valid() && seat < |r.seats|
    modifies r
    ensures AsStep(r.State(), o) == Played(old(r.State()), seat, d)
  {
    if d.op == OP_RIICHI {
      var status := r.DeclareRiichi(d.tile);
      if status.Failed? { return StopWith(Stopped(Engine(status.error))); }
      return PassTo((seat + 1) % |r.seats|);
    }
    var tile := d.tile;
    if d.op == OP_TSUMO {
      var p := r.seats[seat];
      var v := CheckWin(seat, p.hand, p.melds, true, r.dora, r.doubleRiichi[seat]);
      if v.Crash? { return StopWith(Crashed); }
      if v.Wins? {
        r.End(seat);
        r.ResolveTsumo(seat, Win(seat, true, v.han, v.fu, v.yakuman, -1));
        return StopWith(TsumoWin);
      }
      tile := if |p.hand| > 0 then p.hand[0] else "";
    }
    o := ThrowTile(r, seat, tile);
  }

  method AskRon(r: Round, bots: set<nat>, claimed: Tile, from: nat, next: nat) returns (o: Option<Outcome>)
    requires r.Valid() && from < |r.seats| && next < |r.seats|
    modifies r
    ensures var ron := RonPass(old(r.State()), bots, Verdicts(old(r.State()), claimed), from, next, 1);
      if o.Some? then ron == Some(AsStep(r.State(), o.value)) else ron.None? && r.State() == old(r.State())
  {
    ghost var s := r.State();
    ghost var vs := Verdicts(s, claimed);
    var n := |r.seats|;
    var i := 1;
    while i < n
      invariant i >= 1 && r.State() == s && n == |s.seats|
      invariant RonPass(s, bots, vs, from, next, i) == RonPass(s, bots, vs, from, next, 1)
    {
      var k := (next + i - 1) % n;
      var p := r.seats[k];
      i := i + 1;
      if p.riichi { continue; }
      var hand := ContainedTiles(p.hand, claimed);
      var v := CheckWin(k, hand, p.melds, false, r.dora, r.doubleRiichi[k]);
      if v.Crash? { return Some(StopWith(Crashed)); }
      if v.Wins? && k in bots {
        r.End(k);
        r.ResolveRon(k, from, Win(k, false, v.han, v.fu, v.yakuman, from));
        return Some(PassTo(k));
      }
    }
    return None;
  }

  method AskMelds(r: Round, bots: set<nat>, claimed: Tile, next: nat, calls: map<nat, MeldType>) returns (seat: nat)
    requires r.Valid() && next < |r.seats|
    modifies r
    ensures Next(r.State(), seat) == CallPass(old(r.State()), bots, claimed, next, 1, calls)
  {
    ghost var s := r.State();
    var n := |r.seats|;
    var i := 1;
    while i < n
      invariant i >= 1 && r.State() == s && n == |s.seats|
      invariant CallPass(s, bots, claimed, next, i, calls) == CallPass(s, bots, claimed, next, 1, calls)
    {
      var k := (next + i - 1) % n;
      var cands := r.Candidates(k, claimed);
      i := i + 1;
      if |cands| == 0 { continue; }
      if k !in bots || k !in calls { continue; }
      var status := r.Call(k, MeldOf(calls[k], claimed));
      if status.Done? { return k; }
    }
    return next;
  }

  method AskCalls(r: Round, bots: set<nat>, claimed: Tile, from: nat, next: nat, turn: Turn) returns (o: Outcome)
    requires r.Valid() && from < |r.seats| && next < |r.seats|
    modifies r
    ensures AsStep(r.State(), o) == Claimed(old(r.State()), bots, claimed, from, next, turn)
  {
    var ron := AskRon(r, bots, claimed, from, next);
    if ron.Some? { return ron.value; }
    var seat := AskMelds(r, bots, claimed, next, turn.calls);
    return PassTo(seat);
  }

  // The body of the loop once the round is known to go on.
  method OneTurn(r: Round, seat: nat, first: bool, bots: set<nat>, script: seq<Turn>, k: nat) returns (o: Outcome)
    requires r.Valid() && seat < |r.seats| && r.wall != [] && k <= |script|
    modifies r
    ensures k == |script| ==> o == StopWith(Stopped(NoDecision)) && r.State() == if first then old(r.State()) else DrawStep(old(r.State())).0
    ensures k < |script| ==> AsStep(r.State(), o) == TakeTurn(old(r.State()), seat, first, bots, script[k])
  {
    if !first {
      var drawn, status := r.Draw();
    }
    if k == |script| { return StopWith(Stopped(NoDecision)); }
    var d, err := DecidePlay(r, seat, script[k].choice);
    if err.Some? { return StopWith(Stopped(err.value)); }
    o := ApplyPlay(r, seat, d);
    if o.PassTo? {
      o := AskCalls(r, bots, d.tile, seat, o.seat, script[k]);
    }
  }

  method PlayTurns(r: Round, firstSeat: nat, bots: set<nat>, script: seq<Turn>) returns (ending: Ending)
    requires r.Valid() && firstSeat < |r.seats|
    modifies r
    ensures (r.State(), ending) == Play(old(r.State()), firstSeat, true, bots, script)
  {
    ghost var goal := Play(r.State(), firstSeat, true, bots, script);
    var seat: nat, first, k := firstSeat, true, 0;
    while |r.wall| > 0
      invariant r.Valid() && seat < |r.seats| && k <= |script|
      invariant Play(r.State(), seat, first, bots, script[k..]) == goal
      decreases |r.wall| + if first then 1 else 0
    {
      var active := r.Current();
      if active < 0 { break; }
      ghost var head := r.State();
      var o := OneTurn(r, seat, first, bots, script, k);
      if o.StopWith? { return o.ending; }
      WallShrinks(head, seat, first, bots, script[k]);
      assert script[k..][1..] == script[k + 1..];
      seat, first, k := o.seat, false, k + 1;
    }
    r.End(-1);
    return Exhausted;
  }
}
