/** One turn of the round loop, and the whole loop, as functions of the players' answers (internal/game/loop.go). */
module TurnSpec {
  import opened Basics
  import opened Tiles
  import opened Table
  import opened WinCheck

  const OP_DISCARD: nat := 0
  const OP_RIICHI: nat := 1
  const OP_TSUMO: nat := 13

  datatype SelfOp = SelfDiscard | SelfRiichi | SelfAnkan | SelfKakan | SelfTsumo

  // Who answers for the acting seat, and what.
  datatype Choice = Bot(self: Option<SelfOp>, discard: Tile) | Human(op: nat, tile: Tile) | Cancelled

  // Everything the outside decides during one turn: the play, and each bot seat's wish to call.
  datatype Turn = Turn(choice: Choice, calls: map<nat, MeldType>)

  datatype Decision = Decision(op: nat, tile: Tile)

  datatype PlayError = NoDecision | EmptyHand | Engine(error: Error)

  // How the loop stops: wall exhausted (or a ron already ended the round), tsumo, an error, or a panic.
  datatype Ending = Exhausted | TsumoWin | Stopped(error: PlayError) | Crashed

  // What a turn leads to: the next loop head with the seat to act, or the loop's end.
  datatype Step = Next(state: State, seat: nat) | Halt(state: State, ending: Ending)

  // ---------- Deciding ----------

  function Decide(hand: seq<Tile>, c: Choice): (Decision, Option<PlayError>)
  {
    match c
    case Cancelled => (Decision(OP_DISCARD, ""), Some(NoDecision))
    case Human(op, tile) => (Decision(op, tile), None)
    case Bot(self, discard) =>
      if self == Some(SelfTsumo) then (Decision(OP_TSUMO, ""), None)
      else if self == Some(SelfRiichi) then (Decision(OP_RIICHI, discard), None)
      else if discard == "" && hand == [] then (Decision(OP_DISCARD, ""), Some(EmptyHand))
      else (Decision(OP_DISCARD, discard), None)
  }

  function After(s: State, seat: nat): nat
    requires s.Valid()
  {
    (seat + 1) % |s.seats|
  }

  function WinOf(seat: nat, tsumo: bool, v: Verdict, from: int): Win
    requires v.Wins?
  {
    Win(seat, tsumo, v.han, v.fu, v.yakuman, from)
  }

  // ---------- Playing ----------

  function Throw(s: State, seat: nat, t: Tile): (r: Step)
    requires s.Valid() && seat < |s.seats|
    ensures r.state.Valid() && |r.state.seats| == |s.seats| && (r.Next? ==> r.seat < |s.seats|)
  {
    var (s', status) := DiscardStep(s, t);
    if status.Done? then Next(s', After(s, seat)) else Halt(s', Stopped(Engine(status.error)))
  }

  function FirstTile(hand: seq<Tile>): Tile
  {
    if hand == [] then "" else hand[0]
  }

  // applyPlay: Next carries the seat after the discarder.
  function Played(s: State, seat: nat, d: Decision): (r: Step)
    requires s.Valid() && seat < |s.seats|
    ensures r.state.Valid() && |r.state.seats| == |s.seats| && (r.Next? ==> r.seat < |s.seats|)
  {
    var p := s.seats[seat];
    if d.op == OP_RIICHI then
      var (s', status) := RiichiStep(s, d.tile);
      if status.Done? then Next(s', After(s, seat)) else Halt(s', Stopped(Engine(status.error)))
    else if d.op == OP_TSUMO then
      var v := Judge(seat, p.hand, p.melds, true, s.dora);
      match v
      case Crash => Halt(s, Crashed)
      case NoWin => Throw(s, seat, FirstTile(p.hand))
      case Wins(_, _, _, _) => Halt(TsumoStep(EndStep(s, seat), seat, WinOf(seat, true, v, -1)), TsumoWin)
    else Throw(s, seat, d.tile)
  }

  // ---------- Calls on the discard ----------

  // The i-th seat asked: the seats after the discarder, in turn.
  function Asked(s: State, next: nat, i: nat): nat
    requires s.Valid() && i >= 1
  {
    (next + i - 1) % |s.seats|
  }

  // What checking each seat's hand with the tile comes to.
  function Verdicts(s: State, claimed: Tile): (vs: seq<Verdict>)
    ensures |vs| == |s.seats|
  {
    seq(|s.seats|, k requires 0 <= k < |s.seats| => Judge(k, s.seats[k].hand + [claimed], s.seats[k].melds, false, s.dora))
  }

  // The first pass: a bot that can win on the tile does; riichi seats are not even asked.
  // None: nobody wins.
  function RonPass(s: State, bots: set<nat>, vs: seq<Verdict>, from: nat, next: nat, i: nat): (r: Option<Step>)
    requires s.Valid() && |vs| == |s.seats| && i >= 1 && from < |s.seats|
    ensures r.Some? ==> r.value.state.Valid() && |r.value.state.seats| == |s.seats| && (r.value.Next? ==> r.value.seat < |s.seats|)
    decreases |s.seats| - i
  {
    if i >= |s.seats| then None
    else
      var k := Asked(s, next, i);
      if s.seats[k].riichi then RonPass(s, bots, vs, from, next, i + 1)
      else
        match vs[k]
        case Crash => Some(Halt(s, Crashed))
        case Wins(_, _, _, _) =>
          if k in bots then Some(Next(RonStep(EndStep(s, k), k, from, WinOf(k, false, vs[k], from)), k))
          else RonPass(s, bots, vs, from, next, i + 1)
        case NoWin => RonPass(s, bots, vs, from, next, i + 1)
  }

  function MeldOf(kind: MeldType, claimed: Tile): Meld
  {
    Meld(kind, claimed, if kind == Daiminkan then [claimed, claimed, claimed, claimed] else [claimed, claimed, claimed])
  }

  // The second pass: the first bot that wants a claim, and can make it, takes the turn.
  function CallPass(s: State, bots: set<nat>, claimed: Tile, next: nat, i: nat, calls: map<nat, MeldType>): (r: Step)
    requires s.Valid() && i >= 1 && next < |s.seats|
    ensures r.Next? && r.state.Valid() && |r.state.seats| == |s.seats| && r.seat < |s.seats|
    decreases |s.seats| - i
  {
    if i >= |s.seats| then Next(s, next)
    else
      var k := Asked(s, next, i);
      if CandidatesOf(s.seats[k], claimed) != [] && k in bots && k in calls && CallStep(s, k, MeldOf(calls[k], claimed)).1.Done?
      then Next(CallStep(s, k, MeldOf(calls[k], claimed)).0, k)
      else CallPass(s, bots, claimed, next, i + 1, calls)
  }

  function Claimed(s: State, bots: set<nat>, claimed: Tile, from: nat, next: nat, turn: Turn): (r: Step)
    requires s.Valid() && from < |s.seats| && next < |s.seats|
    ensures r.state.Valid() && |r.state.seats| == |s.seats| && (r.Next? ==> r.seat < |s.seats|)
  {
    var ron := RonPass(s, bots, Verdicts(s, claimed), from, next, 1);
    if ron.Some? then ron.value else CallPass(s, bots, claimed, next, 1, turn.calls)
  }

  // ---------- A turn, and the loop ----------

  // From a loop head that goes on: draw (not on the first turn), decide, play, offer the tile.
  // The claim is offered on the tile the player named, even when a failed tsumo threw another.
  function TakeTurn(s: State, seat: nat, first: bool, bots: set<nat>, turn: Turn): (r: Step)
    requires s.Valid() && seat < |s.seats| && s.wall != []
    ensures r.state.Valid() && |r.state.seats| == |s.seats| && (r.Next? ==> r.seat < |s.seats|)
  {
    var drawn := if first then s else DrawStep(s).0;
    var (d, err) := Decide(drawn.seats[seat].hand, turn.choice);
    if err.Some? then Halt(drawn, Stopped(err.value))
    else
      var played := Played(drawn, seat, d);
      if played.Halt? then played
      else Claimed(played.state, bots, d.tile, seat, played.seat, turn)
  }

  predicate GoesOn(s: State)
  {
    s.wall != [] && !s.phase.Ended?
  }

  // The loop, one script entry a turn; running out of entries is a cancelled wait.
  function Play(s: State, seat: nat, first: bool, bots: set<nat>, script: seq<Turn>): (r: (State, Ending))
    requires s.Valid() && seat < |s.seats|
    ensures r.0.Valid() && |r.0.seats| == |s.seats|
    decreases |script|
  {
    if !GoesOn(s) then (EndStep(s, -1), Exhausted)
    else if script == [] then (if first then s else DrawStep(s).0, Stopped(NoDecision))
    else
      match TakeTurn(s, seat, first, bots, script[0])
      case Halt(s', ending) => (s', ending)
      case Next(s', seat') => Play(s', seat', false, bots, script[1..])
  }

  // Only the draw touches the wall.
  lemma {:induction false} CallsKeepWall(s: State, bots: set<nat>, vs: seq<Verdict>, claimed: Tile, from: nat, next: nat, i: nat, turn: Turn)
    requires s.Valid() && |vs| == |s.seats| && i >= 1 && from < |s.seats| && next < |s.seats|
    ensures RonPass(s, bots, vs, from, next, i).Some? ==>
      RonPass(s, bots, vs, from, next, i).value.state.wall == s.wall
    ensures CallPass(s, bots, claimed, next, i, turn.calls).state.wall == s.wall
    decreases |s.seats| - i
  {
    if i < |s.seats| {
      CallsKeepWall(s, bots, vs, claimed, from, next, i + 1, turn);
    }
  }

  lemma PlayedKeepsWall(s: State, seat: nat, d: Decision)
    requires s.Valid() && seat < |s.seats|
    ensures Played(s, seat, d).state.wall == s.wall
  {
  }

  lemma WallShrinks(s: State, seat: nat, first: bool, bots: set<nat>, turn: Turn)
    requires s.Valid() && seat < |s.seats| && s.wall != []
    ensures TakeTurn(s, seat, first, bots, turn).state.wall == if first then s.wall else s.wall[1..]
  {
    var drawn := if first then s else DrawStep(s).0;
    var (d, err) := Decide(drawn.seats[seat].hand, turn.choice);
    var played := Played(drawn, seat, d);
    PlayedKeepsWall(drawn, seat, d);
    if played.Next? {
      CallsKeepWall(played.state, bots, Verdicts(played.state, d.tile), d.tile, seat, played.seat, 1, turn);
    }
  }
}
