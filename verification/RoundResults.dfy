/** What a whole round comes to (internal/game/loop.go, internal/game/ai/builtin.go). */
module RoundResults {
  import opened Basics
  import opened Tiles
  import opened Table
  import opened Ledger
  import opened WinCheck
  import opened TurnSpec
  import opened TurnRuns
  import opened LoopHeads
  import opened Calls
  import opened TurnPanics
  import opened Dora
  import opened Bots
  import opened Deal

  // ---------- Termination ----------

  // At most one turn per live tile and one more; with that many answers nobody is waited for.
  lemma {:induction false} TurnsBounded(s: State, seat: nat, first: bool, bots: set<nat>, script: seq<Turn>)
    requires s.Valid() && seat < |s.seats|
    ensures Turns(s, seat, first, bots, script) <= |s.wall| + if first then 1 else 0
    ensures Turns(s, seat, first, bots, script) <= |script|
    decreases |script|
  {
    if GoesOn(s) && script != [] {
      WallShrinks(s, seat, first, bots, script[0]);
      var r := TakeTurn(s, seat, first, bots, script[0]);
      if r.Next? {
        TurnsBounded(r.state, r.seat, false, bots, script[1..]);
      }
    }
  }

  // With an answer for every turn the loop never waits for one.
  lemma {:induction false} NeverLeftWaiting(s: State, seat: nat, first: bool, bots: set<nat>, script: seq<Turn>)
    requires s.Valid() && seat < |s.seats| && |script| >= |s.wall| + if first then 1 else 0
    requires forall k | 0 <= k < |script| :: !script[k].choice.Cancelled?
    ensures Play(s, seat, first, bots, script).1 != Stopped(NoDecision)
    decreases |script|
  {
    if GoesOn(s) {
      WallShrinks(s, seat, first, bots, script[0]);
      var r := TakeTurn(s, seat, first, bots, script[0]);
      if r.Next? {
        NeverLeftWaiting(r.state, r.seat, false, bots, script[1..]);
      } else {
        HaltCases(s, seat, first, bots, script[0]);
      }
    }
  }

  // ---------- How a round ends ----------

  // Every normal end leaves the round ended, and only a tsumo leaves a winner on record.
  lemma {:induction false} WinnerOnlyByTsumo(s: State, seat: nat, first: bool, bots: set<nat>, script: seq<Turn>)
    requires s.Valid() && seat < |s.seats|
    ensures var (f, e) := Play(s, seat, first, bots, script);
      e in {Exhausted, TsumoWin} ==> f.phase.Ended? && (f.winner >= 0 <==> e == TsumoWin)
    decreases |script|
  {
    if GoesOn(s) && script != [] {
      var r := TakeTurn(s, seat, first, bots, script[0]);
      if r.Next? {
        WinnerOnlyByTsumo(r.state, r.seat, false, bots, script[1..]);
      } else {
        HaltCases(s, seat, first, bots, script[0]);
      }
    }
  }

  lemma HaltCases(s: State, seat: nat, first: bool, bots: set<nat>, turn: Turn)
    requires s.Valid() && seat < |s.seats| && s.wall != []
    ensures var r := TakeTurn(s, seat, first, bots, turn);
      && (r.Halt? && r.ending in {Exhausted, TsumoWin} ==> r.ending == TsumoWin && r.state.phase.Ended? && r.state.winner >= 0)
      && (r.Halt? && r.ending == Stopped(NoDecision) ==> turn.choice.Cancelled?)
  {
    var drawn := if first then s else DrawStep(s).0;
    var (d, err) := Decide(drawn.seats[seat].hand, turn.choice);
    var played := Played(drawn, seat, d);
    if err.None? && played.Next? {
      var k, w := RonPassCases(played.state, bots, d.tile, seat, played.seat);
    }
  }

  // A ron records its winner, and the loop then overwrites it: the round ends as if the wall had
  // run out. This holds wherever the loop started.
  lemma RonIsForgotten(s: State, seat: nat, first: bool, bots: set<nat>, script: seq<Turn>)
    requires s.Valid() && seat < |s.seats| && GoesOn(s) && script != []
    requires var r := TakeTurn(s, seat, first, bots, script[0]); r.Next? && r.state.phase.Ended?
    ensures var r := TakeTurn(s, seat, first, bots, script[0]);
      r.state.winner == r.seat && Play(s, seat, first, bots, script) == (EndStep(r.state, -1), Exhausted)
  {
    var drawn := Drawn(s, first);
    var (d, err) := Decide(drawn.seats[seat].hand, script[0].choice);
    PlayedMoves(drawn, seat, d);
    var played := Played(drawn, seat, d);
    var k, w := RonPassCases(played.state, bots, d.tile, seat, played.seat);
    var j, m := CallPassCases(played.state, bots, d.tile, played.seat, 1, script[0].calls);
  }

  // The engine refuses a decision whose tile the engine's seat does not hold, and a riichi on an
  // open hand.
  predicate Refused(s: State, seat: nat, d: Decision)
    requires s.Valid() && seat < |s.seats|
  {
    var p := s.seats[s.current];
    if d.op == OP_RIICHI then p.melds != [] || d.tile !in p.hand
    else if d.op == OP_TSUMO then
      Judge(seat, s.seats[seat].hand, s.seats[seat].melds, true, s.dora).NoWin? && FirstTile(s.seats[seat].hand) !in p.hand
    else d.tile !in p.hand
  }

  lemma RefusedExactly(s: State, seat: nat, d: Decision)
    requires s.Valid() && seat < |s.seats| && s.phase.Playing?
    ensures var r := Played(s, seat, d);
      && (r.Halt? && r.ending.Stopped? <==> Refused(s, seat, d))
      && (r.Halt? && r.ending.Stopped? ==>
          r.ending.error in {Engine(InvalidRiichi), Engine(InvalidDiscard)}
          && (r.ending.error == Engine(InvalidRiichi) <==> d.op == OP_RIICHI && s.seats[s.current].melds != []))
  {
  }

  // A started round stops on an engine error exactly when a decision is refused, wherever the
  // loop started; a draw or a call never stops it.
  lemma EngineRefusesExactly(s: State, seat: nat, first: bool, bots: set<nat>, turn: Turn)
    requires s.Valid() && seat < |s.seats| && GoesOn(s) && !s.phase.Dealing?
    ensures var r, drawn := TakeTurn(s, seat, first, bots, turn), Drawn(s, first);
      var (d, err) := Decide(drawn.seats[seat].hand, turn.choice);
      r.Halt? && r.ending.Stopped? && r.ending.error.Engine? <==> err.None? && Refused(drawn, seat, d)
  {
    var drawn := Drawn(s, first);
    var (d, err) := Decide(drawn.seats[seat].hand, turn.choice);
    RefusedExactly(drawn, seat, d);
    var played := Played(drawn, seat, d);
    if err.None? && played.Next? {
      var k, w := RonPassCases(played.state, bots, d.tile, seat, played.seat);
      var j, m := CallPassCases(played.state, bots, d.tile, played.seat, 1, turn.calls);
    }
  }

  // Over the whole run: an engine error is a tile not held or a riichi on an open hand.
  lemma {:induction false} OnlyAnswersFail(s: State, seat: nat, first: bool, bots: set<nat>, script: seq<Turn>)
    requires s.Valid() && seat < |s.seats| && !s.phase.Dealing?
    ensures var (f, e) := Play(s, seat, first, bots, script);
      e.Stopped? && e.error.Engine? ==> e.error.error in {InvalidDiscard, InvalidRiichi}
    decreases |script|
  {
    if GoesOn(s) && script != [] {
      var r := TakeTurn(s, seat, first, bots, script[0]);
      var drawn := Drawn(s, first);
      var (d, err) := Decide(drawn.seats[seat].hand, script[0].choice);
      var played := Played(drawn, seat, d);
      RefusedExactly(drawn, seat, d);
      if err.None? && played.Next? {
        PlayedMoves(drawn, seat, d);
        var k, w := RonPassCases(played.state, bots, d.tile, seat, played.seat);
        var j, m := CallPassCases(played.state, bots, d.tile, played.seat, 1, script[0].calls);
      }
      if r.Next? {
        OnlyAnswersFail(r.state, r.seat, false, bots, script[1..]);
      }
    }
  }

  // ---------- Starting anywhere else ----------

  lemma NextSeatInjective(s: State, a: nat, b: nat)
    requires s.Valid() && a < |s.seats| && b < |s.seats|
    ensures After(s, a) == After(s, b) <==> a == b
  {
    Around(a + 1, |s.seats|);
    Around(b + 1, |s.seats|);
  }

  // A loop started at another seat than the engine's stays out of step until a bot other than the
  // acting seat claims the tile it named.
  lemma InStepExactly(s: State, seat: nat, first: bool, bots: set<nat>, turn: Turn)
    requires s.Valid() && seat < |s.seats| && GoesOn(s) && s.phase.Playing?
    requires var r := TakeTurn(s, seat, first, bots, turn); r.Next? && r.state.phase.Playing?
    ensures var r, drawn := TakeTurn(s, seat, first, bots, turn), Drawn(s, first);
      var (d, err) := Decide(drawn.seats[seat].hand, turn.choice);
      var played := Played(drawn, seat, d).state;
      r.seat == r.state.current <==>
        || seat == s.current
        || exists k :: 0 <= k < |played.seats| && k != seat && Claims(played, bots, d.tile, turn.calls, k)
  {
    var drawn := Drawn(s, first);
    var (d, err) := Decide(drawn.seats[seat].hand, turn.choice);
    PlayedMoves(drawn, seat, d);
    var played := Played(drawn, seat, d);
    NextSeatInjective(s, seat, s.current);
    var k, w := RonPassCases(played.state, bots, d.tile, seat, played.seat);
    ClaimedExists(played.state, bots, d.tile, seat, turn.calls);
  }

  // ---------- Claiming a pon gives the win away ----------

  // The turn after a pon draws a tile it should not, so the claimer's length never fits again:
  // whatever it holds, with one tile more than between turns it is no win.
  lemma PonNeverWins(p: Seat, k: nat, hand: seq<Tile>, tsumo: bool, dora: seq<Indicator>)
    requires |hand| + GivenUp(p.melds) == 14 && AllCountable(hand)
    requires exists m :: m in p.melds && m.kind != Daiminkan
    ensures Judge(k, hand, p.melds, tsumo, dora).NoWin?
  {
    GivenUpShort(p.melds);
  }

  // At every head of a run, wherever the loop started, a seat with a pon can neither ron the next
  // discard nor tsumo its next draw.
  lemma PonSeatsLocked(s: State, seat: nat, bots: set<nat>, script: seq<Turn>, h: Head, k: nat, t: Tile, tsumo: bool)
    requires EngineOk(s, true) && seat < |s.seats| && h in Heads(s, seat, true, bots, script) && !h.first
    requires k < |h.state.seats| && Countable(t)
    requires exists m :: m in h.state.seats[k].melds && m.kind != Daiminkan
    ensures Judge(k, h.state.seats[k].hand + [t], h.state.seats[k].melds, tsumo, h.state.dora).NoWin?
  {
    EveryHeadOk(s, seat, true, bots, script);
    PonNeverWins(h.state.seats[k], k, h.state.seats[k].hand + [t], tsumo, h.state.dora);
  }

  // ---------- Rounds among built-in bots ----------

  // A built-in bot never riichis, wins by itself or calls, and throws what its level chooses.
  ghost predicate BuiltinTurn(level: Level, hand: seq<Tile>, turn: Turn)
  {
    && turn.choice.Bot? && turn.choice.self == None && Chooses(level, hand, turn.choice.discard)
    && turn.calls == map[]
  }

  // Every turn of the run is a built-in bot's; levels gives the level at each seat.
  ghost predicate BuiltinPlays(levels: seq<Level>, s: State, seat: nat, first: bool, bots: set<nat>, script: seq<Turn>)
    requires s.Valid() && seat < |s.seats| == |levels|
    decreases |script|
  {
    GoesOn(s) && script != [] ==>
      && BuiltinTurn(levels[seat], Drawn(s, first).seats[seat].hand, script[0])
      && var r := TakeTurn(s, seat, first, bots, script[0]);
         r.Next? ==> BuiltinPlays(levels, r.state, r.seat, false, bots, script[1..])
  }

  // From every state such bots can play on for as many turns as one likes.
  lemma {:induction false} BotsCanPlay(levels: seq<Level>, s: State, seat: nat, first: bool, bots: set<nat>, n: nat)
    returns (script: seq<Turn>)
    requires s.Valid() && seat < |s.seats| == |levels|
    ensures |script| == n && BuiltinPlays(levels, s, seat, first, bots, script)
    decreases n
  {
    script := [];
    if n > 0 {
      var drawn := if GoesOn(s) then Drawn(s, first) else s;
      var t := CanChoose(levels[seat], drawn.seats[seat].hand);
      var turn := Turn(Bot(None, t), map[]);
      var rest := seq(n - 1, _ => turn);
      if GoesOn(s) {
        var r := TakeTurn(s, seat, first, bots, turn);
        if r.Next? {
          rest := BotsCanPlay(levels, r.state, r.seat, false, bots, n - 1);
        }
      }
      script := [turn] + rest;
      assert script[1..] == rest;
    }
  }

  // A built-in bot's turn goes on, or panics because its tile breaks the round.
  lemma BotTurn(level: Level, s: State, seat: nat, first: bool, bots: set<nat>, turn: Turn)
    requires HeadOk(s, seat, first) && GoesOn(s) && (first ==> s.seats[seat].hand != [])
    requires BuiltinTurn(level, Drawn(s, first).seats[seat].hand, turn)
    ensures var r := TakeTurn(s, seat, first, bots, turn);
      && (r.Halt? <==> Breaks(Drawn(s, first), bots, turn.choice.discard, seat))
      && (r.Halt? ==> r.ending == Crashed)
  {
    DrawReachesDecision(s, first);
    var drawn := Drawn(s, first);
    var t := turn.choice.discard;
    ChoosesHeld(level, drawn.seats[seat].hand, t);
    var d := Decision(OP_DISCARD, t);
    assert Decide(drawn.seats[seat].hand, turn.choice) == (d, None);
    PlayedOk(drawn, seat, d);
    var played := Played(drawn, seat, d).state;
    PassBreaksExactly(played, bots, t, seat);
    ThrowKeepsWaits(drawn, bots, t, seat);
    var k, w := RonPassCases(played, bots, t, seat, After(played, seat));
  }

  // Turn i of the run breaks it.
  ghost predicate BreaksAt(s: State, seat: nat, first: bool, bots: set<nat>, script: seq<Turn>, i: nat)
    requires s.Valid() && seat < |s.seats|
  {
    var hs := Heads(s, seat, first, bots, script);
    && i < |hs| && i < |script| && GoesOn(hs[i].state) && hs[i].state.Valid() && hs[i].seat < |hs[i].state.seats|
    && script[i].choice.Bot?
    && Breaks(Drawn(hs[i].state, hs[i].first), bots, script[i].choice.discard, hs[i].seat)
  }

  lemma BreaksLater(s: State, seat: nat, first: bool, bots: set<nat>, script: seq<Turn>, i: nat)
    requires s.Valid() && seat < |s.seats| && GoesOn(s) && script != [] && TakeTurn(s, seat, first, bots, script[0]).Next?
    ensures var r := TakeTurn(s, seat, first, bots, script[0]);
      BreaksAt(s, seat, first, bots, script, i + 1) <==> BreaksAt(r.state, r.seat, false, bots, script[1..], i)
  {
    var r := TakeTurn(s, seat, first, bots, script[0]);
    assert Heads(s, seat, first, bots, script)[1..] == Heads(r.state, r.seat, false, bots, script[1..]);
  }

  // A round among built-in bots never stops on an error: it plays out, and panics exactly when
  // some turn throws a tile that breaks it.
  lemma {:induction false} BotsPlayOut(levels: seq<Level>, s: State, seat: nat, first: bool, bots: set<nat>, script: seq<Turn>)
    requires HeadOk(s, seat, first) && |s.seats| == |levels| && (first ==> s.seats[seat].hand != [])
    requires BuiltinPlays(levels, s, seat, first, bots, script)
    requires |script| >= |s.wall| + if first then 1 else 0
    ensures var (f, e) := Play(s, seat, first, bots, script);
      && e in {Exhausted, Crashed}
      && (e == Crashed <==> exists i :: BreaksAt(s, seat, first, bots, script, i))
    decreases |script|
  {
    if GoesOn(s) {
      BotTurn(levels[seat], s, seat, first, bots, script[0]);
      var r := TakeTurn(s, seat, first, bots, script[0]);
      if r.Next? {
        TurnOk(s, seat, first, bots, script[0]);
        WallShrinks(s, seat, first, bots, script[0]);
        BotsPlayOut(levels, r.state, r.seat, false, bots, script[1..]);
        LaterTurns(s, seat, first, bots, script, r);
      } else {
        assert BreaksAt(s, seat, first, bots, script, 0);
      }
    }
  }

  lemma TurnsMoved(s: State, seat: nat, first: bool, bots: set<nat>, script: seq<Turn>, r: Step, i: nat)
    requires s.Valid() && seat < |s.seats| && GoesOn(s) && script != [] && r == TakeTurn(s, seat, first, bots, script[0]) && r.Next?
    ensures BreaksAt(s, seat, first, bots, script, i + 1) <==> BreaksAt(r.state, r.seat, false, bots, script[1..], i)
  {
    BreaksLater(s, seat, first, bots, script, i);
  }

  // After a turn that does not break the round, the run breaks exactly when its rest does.
  lemma LaterTurns(s: State, seat: nat, first: bool, bots: set<nat>, script: seq<Turn>, r: Step)
    requires s.Valid() && seat < |s.seats| && GoesOn(s) && script != [] && r == TakeTurn(s, seat, first, bots, script[0]) && r.Next?
    requires !BreaksAt(s, seat, first, bots, script, 0)
    ensures (exists i :: BreaksAt(s, seat, first, bots, script, i)) <==> exists i :: BreaksAt(r.state, r.seat, false, bots, script[1..], i)
  {
    if exists i :: BreaksAt(s, seat, first, bots, script, i) {
      var i: nat :| BreaksAt(s, seat, first, bots, script, i);
      TurnsMoved(s, seat, first, bots, script, r, i - 1);
    } else {
      forall i: nat
        ensures !BreaksAt(r.state, r.seat, false, bots, script[1..], i)
      {
        TurnsMoved(s, seat, first, bots, script, r, i);
      }
    }
  }

  // ---------- From the deal ----------

  // Thirteen countable tiles a seat, and countable tiles everywhere else.
  predicate ProperWall(n: nat, w: Wall)
  {
    && n <= |w.hands| && (forall i | 0 <= i < n :: |w.hands[i]| == 13 && AllCountable(w.hands[i]))
    && Countable(w.extra) && AllCountable(w.stack)
  }

  lemma StartIsGood(n: nat, initialScore: int, kyoku: nat, w: Wall)
    requires n > 0 && ProperWall(n, w)
    ensures var s := StartStep(NewState(n, initialScore, kyoku, w)).0;
      HeadOk(s, kyoku % n, true) && s.seats[kyoku % n].hand != [] && s.wall == w.stack
  {
    var s := NewState(n, initialScore, kyoku, w);
    var p := s.seats[s.dealer];
    assert SeatReadable(p.(hand := p.hand + [w.extra]));
    assert forall i | 0 <= i < n :: SeatReadable(s.seats[i]);
  }

  lemma {:induction false} NewSeatsCopies(n: nat, w: Wall, ps: seq<Seat>, hands: seq<seq<Tile>>, t: Tile)
    requires |ps| == |hands| && forall i | 0 <= i < |ps| :: ps[i] == Seat(hands[i], [], false, [])
    ensures AtSeats(ps, t) == CopiesIn(Flat(hands), t)
  {
    if ps != [] {
      var k := |ps| - 1;
      NewSeatsCopies(n, w, ps[..k], hands[..k], t);
    }
  }

  lemma ModeTilesCountable(w: Wall, sanma: bool)
    requires forall t :: InWall(w, t) == if InMode(t, sanma) then 4 else 0
    ensures forall i | 0 <= i < |w.hands| :: AllCountable(w.hands[i])
    ensures Countable(w.extra) && AllCountable(w.stack)
  {
    forall t: Tile | InWall(w, t) > 0
      ensures Countable(t)
    {
      TileAtOfIndex(t);
    }
    forall i, x | 0 <= i < |w.hands| && 0 <= x < |w.hands[i]|
      ensures Countable(w.hands[i][x])
    {
      FlatHas(w.hands, i, x);
      assert InWall(w, w.hands[i][x]) > 0;
    }
    assert InWall(w, w.extra) > 0;
    forall x | 0 <= x < |w.stack|
      ensures Countable(w.stack[x])
    {
      assert w.stack[x] in multiset(w.stack);
      assert InWall(w, w.stack[x]) > 0;
    }
  }

  lemma {:induction false} FlatHas(hands: seq<seq<Tile>>, i: nat, x: nat)
    requires i < |hands| && x < |hands[i]|
    ensures CopiesIn(Flat(hands), hands[i][x]) > 0
  {
    if i < |hands| - 1 {
      FlatHas(hands[..|hands| - 1], i, x);
    } else {
      assert hands[i][x] in multiset(hands[i]);
    }
  }

  // From any shuffled deal, whatever the players do: no tile ever shows more than four times in
  // wall, hands, piles and melds, and the points at the table stay what they were.
  lemma DealtRound(n: nat, initialScore: int, kyoku: nat, w: Wall, sanma: bool, firstSeat: nat, bots: set<nat>, script: seq<Turn>, t: Tile)
    requires 0 < n == |w.hands| && firstSeat < n && forall x :: InWall(w, x) == if InMode(x, sanma) then 4 else 0
    ensures var s := StartStep(NewState(n, initialScore, kyoku, w)).0;
      var f := Play(s, firstSeat, true, bots, script).0;
      && Copies(f, t) + CopiesIn(w.dead, t) == (if InMode(t, sanma) then 4 else 0)
      && Points(f) == n * if initialScore == 0 then 25000 else initialScore
  {
    var s0 := NewState(n, initialScore, kyoku, w);
    var s := StartStep(s0).0;
    NewSeatsCopies(n, w, s0.seats, w.hands, t);
    StartKeepsTiles(s0, t);
    PlayConserves(s, firstSeat, true, bots, script);
    PointsOfEveryRun(n, initialScore, kyoku, w, []);
  }

  // The players' riichi stays sound from any deal and any seat the loop starts at.
  lemma DealtRiichi(n: nat, initialScore: int, kyoku: nat, w: Wall, firstSeat: nat, bots: set<nat>, script: seq<Turn>)
    requires 0 < n == |w.hands| && firstSeat < n
    ensures var s := StartStep(NewState(n, initialScore, kyoku, w)).0;
      && (forall h | h in Heads(s, firstSeat, true, bots, script) :: h.state.Valid() && RiichiSound(h.state))
      && RiichiSound(Play(s, firstSeat, true, bots, script).0)
  {
    RiichiAlwaysSound(StartStep(NewState(n, initialScore, kyoku, w)).0, firstSeat, true, bots, script);
  }

  // A dealt round among built-in bots starts at its dealer and plays out, but for a breaking tile.
  lemma DealtBotRound(levels: seq<Level>, initialScore: int, kyoku: nat, w: Wall, sanma: bool, bots: set<nat>, script: seq<Turn>)
    requires 0 < |levels| == |w.hands| && forall i | 0 <= i < |w.hands| :: |w.hands[i]| == HAND
    requires forall x :: InWall(w, x) == if InMode(x, sanma) then 4 else 0
    requires var n := |levels|;
      BuiltinPlays(levels, StartStep(NewState(n, initialScore, kyoku, w)).0, kyoku % n, true, bots, script)
    requires |script| >= |w.stack| + 1
    ensures var n := |levels|;
      var s := StartStep(NewState(n, initialScore, kyoku, w)).0;
      var (f, e) := Play(s, kyoku % n, true, bots, script);
      && e in {Exhausted, Crashed}
      && (e == Crashed <==> exists i :: BreaksAt(s, kyoku % n, true, bots, script, i))
  {
    var n := |levels|;
    ModeTilesCountable(w, sanma);
    StartIsGood(n, initialScore, kyoku, w);
    BotsPlayOut(levels, StartStep(NewState(n, initialScore, kyoku, w)).0, kyoku % n, true, bots, script);
  }
}
