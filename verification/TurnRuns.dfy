/** Whole rounds: what holds at every loop head and at every end (internal/game/loop.go). */
module TurnRuns {
  import opened Basics
  import opened Tiles
  import opened Table
  import opened Ledger
  import opened WinCheck
  import opened TurnSpec

  // ---------- The loop only takes engine steps ----------

  lemma {:induction false} RunAppend(s: State, a: seq<Op>, b: seq<Op>)
    requires s.Valid() && AllLegal(|s.seats|, a) && AllLegal(|s.seats|, b)
    ensures AllLegal(|s.seats|, a + b) && RunOps(s, a + b) == RunOps(RunOps(s, a), b)
    decreases |a|
  {
    if a == [] {
      assert a + b == b;
    } else {
      RunAppend(Apply(s, a[0]), a[1..], b);
      assert (a + b)[0] == a[0] && (a + b)[1..] == a[1..] + b;
    }
  }

  lemma RunOne(s: State, op: Op)
    requires s.Valid() && Legal(|s.seats|, op)
    ensures AllLegal(|s.seats|, [op]) && RunOps(s, [op]) == Apply(s, op)
  {
    assert [op][1..] == [];
    assert RunOps(Apply(s, op), []) == Apply(s, op);
  }

  lemma RunTwo(s: State, a: Op, b: Op)
    requires s.Valid() && Legal(|s.seats|, a) && Legal(|s.seats|, b)
    ensures AllLegal(|s.seats|, [a, b]) && RunOps(s, [a, b]) == Apply(Apply(s, a), b)
  {
    RunOne(s, a);
    RunOne(Apply(s, a), b);
    RunAppend(s, [a], [b]);
    assert [a] + [b] == [a, b];
  }

  // What the first pass comes to: nobody, a panic, or a ron by a bot that is not in riichi.
  predicate RonOutcome(s: State, bots: set<nat>, vs: seq<Verdict>, from: nat, ron: Option<Step>, k: nat, w: Win)
    requires s.Valid() && from < |s.seats| && k < |s.seats| == |vs|
  {
    || ron.None?
    || (ron == Some(Halt(s, Crashed)) && vs[k].Crash?)
    || (ron == Some(Next(RonStep(EndStep(s, k), k, from, w), k)) && k in bots && !s.seats[k].riichi && vs[k].Wins?)
  }

  lemma {:induction false} RonCases(s: State, bots: set<nat>, vs: seq<Verdict>, from: nat, next: nat, i: nat)
    returns (k: nat, w: Win)
    requires s.Valid() && |vs| == |s.seats| && i >= 1 && from < |s.seats|
    ensures k < |s.seats| && RonOutcome(s, bots, vs, from, RonPass(s, bots, vs, from, next, i), k, w)
    decreases |s.seats| - i
  {
    k, w := 0, Win(0, false, 0, 0, false, 0);
    if i < |s.seats| {
      k := Asked(s, next, i);
      if !s.seats[k].riichi && vs[k].Crash? {
      } else if !s.seats[k].riichi && vs[k].Wins? && k in bots {
        w := WinOf(k, false, vs[k], from);
      } else {
        k, w := RonCases(s, bots, vs, from, next, i + 1);
      }
    }
  }

  lemma RonPassCases(s: State, bots: set<nat>, claimed: Tile, from: nat, next: nat) returns (k: nat, w: Win)
    requires s.Valid() && from < |s.seats|
    ensures var vs := Verdicts(s, claimed);
      k < |s.seats| && RonOutcome(s, bots, vs, from, RonPass(s, bots, vs, from, next, 1), k, w)
  {
    k, w := RonCases(s, bots, Verdicts(s, claimed), from, next, 1);
  }

  // What the second pass comes to: the turn passes on, or a seat that is not in riichi claims.
  lemma {:induction false} CallPassCases(s: State, bots: set<nat>, claimed: Tile, next: nat, i: nat, calls: map<nat, MeldType>)
    returns (k: nat, m: Meld)
    requires s.Valid() && i >= 1 && next < |s.seats|
    ensures k < |s.seats|
    ensures var r := CallPass(s, bots, claimed, next, i, calls);
      || r == Next(s, next)
      || (r == Next(CallStep(s, k, m).0, k) && CallStep(s, k, m).1.Done? && m.tile == claimed && !s.seats[k].riichi)
    decreases |s.seats| - i
  {
    k, m := 0, Meld(Pon, "", []);
    if i < |s.seats| {
      k := Asked(s, next, i);
      if CandidatesOf(s.seats[k], claimed) != [] && k in bots && k in calls && CallStep(s, k, MeldOf(calls[k], claimed)).1.Done? {
        m := MeldOf(calls[k], claimed);
      } else {
        k, m := CallPassCases(s, bots, claimed, next, i + 1, calls);
      }
    }
  }

  lemma ClaimedIsRun(s: State, bots: set<nat>, claimed: Tile, from: nat, next: nat, turn: Turn) returns (ops: seq<Op>)
    requires s.Valid() && from < |s.seats| && next < |s.seats|
    ensures AllLegal(|s.seats|, ops) && RunOps(s, ops) == Claimed(s, bots, claimed, from, next, turn).state
  {
    var k, w := RonPassCases(s, bots, claimed, from, next);
    var ron := RonPass(s, bots, Verdicts(s, claimed), from, next, 1);
    if ron.None? {
      var j, m := CallPassCases(s, bots, claimed, next, 1, turn.calls);
      if CallPass(s, bots, claimed, next, 1, turn.calls) == Next(s, next) {
        return [];
      }
      RunOne(s, Op.Call(j, m));
      return [Op.Call(j, m)];
    } else if ron.value.Halt? {
      return [];
    } else {
      RunTwo(s, Op.End(k), Op.Ron(k, from, w));
      return [Op.End(k), Op.Ron(k, from, w)];
    }
  }

  lemma PlayedIsRun(s: State, seat: nat, d: Decision) returns (ops: seq<Op>)
    requires s.Valid() && seat < |s.seats|
    ensures AllLegal(|s.seats|, ops) && RunOps(s, ops) == Played(s, seat, d).state
  {
    var p := s.seats[seat];
    var v := Judge(seat, p.hand, p.melds, true, s.dora);
    if d.op == OP_RIICHI {
      RunOne(s, Op.Riichi(d.tile));
      return [Op.Riichi(d.tile)];
    } else if d.op == OP_TSUMO && v.Crash? {
      return [];
    } else if d.op == OP_TSUMO && v.Wins? {
      var w := WinOf(seat, true, v, -1);
      RunTwo(s, Op.End(seat), Op.Tsumo(seat, w));
      return [Op.End(seat), Op.Tsumo(seat, w)];
    } else {
      var t := if d.op == OP_TSUMO then FirstTile(p.hand) else d.tile;
      RunOne(s, Op.Discard(t));
      return [Op.Discard(t)];
    }
  }

  lemma DrawnIsRun(s: State, first: bool) returns (ops: seq<Op>)
    requires s.Valid()
    ensures AllLegal(|s.seats|, ops) && RunOps(s, ops) == if first then s else DrawStep(s).0
  {
    if first { return []; }
    RunOne(s, Op.Draw);
    return [Op.Draw];
  }

  lemma TurnIsRun(s: State, seat: nat, first: bool, bots: set<nat>, turn: Turn) returns (ops: seq<Op>)
    requires s.Valid() && seat < |s.seats| && s.wall != []
    ensures AllLegal(|s.seats|, ops) && RunOps(s, ops) == TakeTurn(s, seat, first, bots, turn).state
  {
    var drawn := if first then s else DrawStep(s).0;
    ops := DrawnIsRun(s, first);
    var (d, err) := Decide(drawn.seats[seat].hand, turn.choice);
    if err.None? {
      var played := Played(drawn, seat, d);
      var more := PlayedIsRun(drawn, seat, d);
      RunAppend(s, ops, more);
      ops := ops + more;
      if played.Next? {
        more := ClaimedIsRun(played.state, bots, d.tile, seat, played.seat, turn);
        RunAppend(s, ops, more);
        ops := ops + more;
      }
    }
  }

  // However a round is played, its final state is reached by engine steps alone.
  lemma {:induction false} PlayIsRun(s: State, seat: nat, first: bool, bots: set<nat>, script: seq<Turn>) returns (ops: seq<Op>)
    requires s.Valid() && seat < |s.seats|
    ensures AllLegal(|s.seats|, ops) && RunOps(s, ops) == Play(s, seat, first, bots, script).0
    decreases |script|
  {
    if !GoesOn(s) {
      RunOne(s, Op.End(-1));
      return [Op.End(-1)];
    }
    if script == [] {
      ops := DrawnIsRun(s, first);
      return;
    }
    ops := TurnIsRun(s, seat, first, bots, script[0]);
    var step := TakeTurn(s, seat, first, bots, script[0]);
    if step.Next? {
      var more := PlayIsRun(step.state, step.seat, false, bots, script[1..]);
      RunAppend(s, ops, more);
      ops := ops + more;
    }
  }

  // A started round keeps every tile and every point, whatever the players do.
  lemma PlayConserves(s: State, seat: nat, first: bool, bots: set<nat>, script: seq<Turn>)
    requires s.Valid() && seat < |s.seats| && !s.phase.Dealing?
    ensures forall t :: Copies(Play(s, seat, first, bots, script).0, t) == Copies(s, t)
    ensures Points(Play(s, seat, first, bots, script).0) == Points(s)
    ensures DoubleMeansRiichi(s) ==> DoubleMeansRiichi(Play(s, seat, first, bots, script).0)
  {
    var ops := PlayIsRun(s, seat, first, bots, script);
    DealtStaysDealt(s, ops);
    TilesConservedExactly(s, ops);
    RunKeepsPoints(s, ops);
    if DoubleMeansRiichi(s) { RunKeepsDoubleRiichi(s, ops); }
  }
}
