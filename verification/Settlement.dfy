/** Who is paid what when a round is won (internal/game/loop.go, internal/game/engine/round.go). */
module Settlement {
  import opened Basics
  import opened Tiles
  import opened Score
  import opened Amounts
  import opened Table
  import opened Ledger
  import opened WinCheck
  import opened Pricing
  import opened TurnSpec
  import opened TurnRuns
  import opened LoopHeads
  import opened Calls
  import opened TurnPanics
  import opened RoundResults

  // The win that a verdict is settled as.
  function Settled(k: nat, tsumo: bool, v: Verdict, from: int): Win
    requires v.Wins?
  {
    Win(k, tsumo, v.han, v.fu, v.yakuman, from)
  }

  // ---------- Tsumo ----------

  // Seat k took the whole sum of what the others owe it.
  ghost predicate PaidByAll(before: State, after: State, k: nat, v: Verdict)
  {
    && v.Wins? && k < |before.seats| == |before.scores| == |after.scores|
    && var w := Settled(k, true, v, -1);
       forall i | 0 <= i < |before.scores| ::
         after.scores[i] == if i == k then before.scores[k] + Shares(before, |before.seats|, k, w) else before.scores[i] - Share(before, i, k, w)
  }

  // A turn ends in a tsumo exactly when the seat answers tsumo and its own hand, checked with the
  // round's dora, wins; then it is recorded, the round is over, and all others have paid.
  lemma TsumoTurn(s: State, seat: nat, first: bool, bots: set<nat>, turn: Turn)
    requires s.Valid() && seat < |s.seats| && s.wall != []
    ensures var r, drawn := TakeTurn(s, seat, first, bots, turn), Drawn(s, first);
      var p := drawn.seats[seat];
      var (d, err) := Decide(p.hand, turn.choice);
      var v := Judge(seat, p.hand, p.melds, true, drawn.dora);
      && (r.Halt? && r.ending == TsumoWin <==> err.None? && d.op == OP_TSUMO && v.Wins?)
      && (r.Halt? && r.ending == TsumoWin ==>
            && r.state == drawn.(winner := seat, phase := Ended, scores := r.state.scores)
            && PaidByAll(drawn, r.state, seat, v))
  {
    var drawn := Drawn(s, first);
    var p := drawn.seats[seat];
    var (d, err) := Decide(p.hand, turn.choice);
    var v := Judge(seat, p.hand, p.melds, true, drawn.dora);
    PlayedTsumo(drawn, seat, d, v);
    var played := Played(drawn, seat, d);
    if err.None? && played.Next? {
      var k, w := RonPassCases(played.state, bots, d.tile, seat, played.seat);
      var j, m := CallPassCases(played.state, bots, d.tile, played.seat, 1, turn.calls);
    }
  }

  lemma PlayedTsumo(s: State, seat: nat, d: Decision, v: Verdict)
    requires s.Valid() && seat < |s.seats| && v == Judge(seat, s.seats[seat].hand, s.seats[seat].melds, true, s.dora)
    ensures var r := Played(s, seat, d);
      && (r.Halt? && r.ending == TsumoWin <==> d.op == OP_TSUMO && v.Wins?)
      && (d.op == OP_TSUMO && v.Wins? ==> r.state == s.(winner := seat, phase := Ended, scores := r.state.scores) && PaidByAll(s, r.state, seat, v))
  {
    if d.op == OP_TSUMO && v.Wins? {
      AllPay(s, seat, v);
    }
  }

  lemma AllPay(s: State, k: nat, v: Verdict)
    requires s.Valid() && k < |s.seats| && v.Wins?
    ensures var ended := EndStep(s, k);
      var after := TsumoStep(ended, k, WinOf(k, true, v, -1));
      after == s.(winner := k, phase := Ended, scores := after.scores) && PaidByAll(s, after, k, v)
  {
    var ended := EndStep(s, k);
    forall i | 0 <= i < |s.scores|
      ensures TsumoStep(ended, k, WinOf(k, true, v, -1)).scores[i] ==
        if i == k then s.scores[k] + Shares(s, |s.seats|, k, Settled(k, true, v, -1)) else s.scores[i] - Share(s, i, k, Settled(k, true, v, -1))
    {
      TsumoReaches(ended, k, WinOf(k, true, v, -1), i);
      SameShares(s, ended, |s.seats|, k, Settled(k, true, v, -1));
    }
    TsumoReaches(ended, k, WinOf(k, true, v, -1), 0);
  }

  lemma {:induction false} SameShares(s: State, t: State, n: nat, k: nat, w: Win)
    requires s.seats == t.seats && s.dealer == t.dealer && n <= |s.seats|
    ensures Shares(s, n, k, w) == Shares(t, n, k, w)
  {
    if n > 0 {
      SameShares(s, t, n - 1, k, w);
    }
  }

  // The last loop head of a run.
  function LastHead(s: State, seat: nat, first: bool, bots: set<nat>, script: seq<Turn>): Head
    requires s.Valid() && seat < |s.seats|
  {
    var hs := Heads(s, seat, first, bots, script);
    hs[|hs| - 1]
  }

  lemma LastHeadLater(s: State, seat: nat, first: bool, bots: set<nat>, script: seq<Turn>)
    requires s.Valid() && seat < |s.seats| && GoesOn(s) && script != []
    ensures var r := TakeTurn(s, seat, first, bots, script[0]);
      LastHead(s, seat, first, bots, script) ==
        if r.Next? then LastHead(r.state, r.seat, false, bots, script[1..]) else Head(s, seat, first)
  {
    HeadsLater(s, seat, first, bots, script, TakeTurn(s, seat, first, bots, script[0]));
  }

  lemma HeadsLater(s: State, seat: nat, first: bool, bots: set<nat>, script: seq<Turn>, r: Step)
    requires s.Valid() && seat < |s.seats| && GoesOn(s) && script != [] && r == TakeTurn(s, seat, first, bots, script[0])
    ensures LastHead(s, seat, first, bots, script) ==
        if r.Next? then LastHead(r.state, r.seat, false, bots, script[1..]) else Head(s, seat, first)
  {
    if r.Next? {
      LastBehind(Head(s, seat, first), Heads(r.state, r.seat, false, bots, script[1..]));
    }
  }

  lemma LastBehind(h: Head, rest: seq<Head>)
    requires rest != []
    ensures ([h] + rest)[|[h] + rest| - 1] == rest[|rest| - 1]
  {
  }

  // What a tsumo moves: four seats, the ron price; and nothing only when nothing is listed.
  ghost predicate Worth(before: State, after: State, k: nat, v: Verdict)
    requires before.Valid() && k < |before.seats| && |before.scores| == |after.scores| && v.Wins?
  {
    && (|before.seats| == 4 && v.han > 0 ==>
          var price, gain := RonPayment(v.han, v.fu, k == before.dealer), after.scores[k] - before.scores[k];
          price <= gain <= price + 200)
    && (|before.seats| >= 2 ==> (after.scores == before.scores <==> v.yaku == []))
    && (|before.seats| >= 2 && before.seats[k].melds == [] ==> after.scores != before.scores)
  }

  lemma TsumoWorth(s: State, k: nat, v: Verdict)
    requires s.Valid() && k < |s.seats| && v == Judge(k, s.seats[k].hand, s.seats[k].melds, true, s.dora) && v.Wins?
    ensures Worth(s, TsumoStep(EndStep(s, k), k, WinOf(k, true, v, -1)), k, v)
  {
    var ended, w := EndStep(s, k), WinOf(k, true, v, -1);
    if |s.seats| >= 2 {
      TsumoMovesPoints(ended, k, s.seats[k].hand, s.seats[k].melds, s.dora, v);
      TsumoReaches(ended, k, w, 0);
    }
    if |s.seats| == 4 && v.han > 0 {
      TsumoSettles(ended, k, w, k);
    }
  }

  // A run that ends in a tsumo: at its last decision the acting seat k held a winning hand, and from
  // there to the end the others have paid k what that hand is worth, and nothing else has moved.
  lemma {:induction false} TsumoPaid(s: State, seat: nat, first: bool, bots: set<nat>, script: seq<Turn>)
    requires s.Valid() && seat < |s.seats| && Play(s, seat, first, bots, script).1 == TsumoWin
    ensures var h, f := LastHead(s, seat, first, bots, script), Play(s, seat, first, bots, script).0;
      && h.state.Valid() && h.seat < |h.state.seats|
      && var drawn, k := Drawn(h.state, h.first), h.seat;
         var v := Judge(k, drawn.seats[k].hand, drawn.seats[k].melds, true, drawn.dora);
         && v.Wins? && f == drawn.(winner := k, phase := Ended, scores := f.scores)
         && PaidByAll(drawn, f, k, v) && Worth(drawn, f, k, v)
    decreases |script|
  {
    var r := TakeTurn(s, seat, first, bots, script[0]);
    LastHeadLater(s, seat, first, bots, script);
    if r.Next? {
      TsumoPaid(r.state, r.seat, false, bots, script[1..]);
    } else {
      TsumoTurn(s, seat, first, bots, script[0]);
      LastTurnWorth(s, seat, first, bots, script[0]);
    }
  }

  lemma LastTurnWorth(s: State, seat: nat, first: bool, bots: set<nat>, turn: Turn)
    requires s.Valid() && seat < |s.seats| && s.wall != []
    requires var r := TakeTurn(s, seat, first, bots, turn); r.Halt? && r.ending == TsumoWin
    ensures var drawn := Drawn(s, first);
      var v := Judge(seat, drawn.seats[seat].hand, drawn.seats[seat].melds, true, drawn.dora);
      v.Wins? && |drawn.scores| == |TakeTurn(s, seat, first, bots, turn).state.scores| && Worth(drawn, TakeTurn(s, seat, first, bots, turn).state, seat, v)
  {
    var drawn := Drawn(s, first);
    var v := Judge(seat, drawn.seats[seat].hand, drawn.seats[seat].melds, true, drawn.dora);
    TsumoTurn(s, seat, first, bots, turn);
    TsumoWorth(drawn, seat, v);
    TsumoIsStep(s, seat, first, bots, turn, v);
  }

  lemma TsumoIsStep(s: State, seat: nat, first: bool, bots: set<nat>, turn: Turn, v: Verdict)
    requires s.Valid() && seat < |s.seats| && s.wall != []
    requires var r := TakeTurn(s, seat, first, bots, turn); r.Halt? && r.ending == TsumoWin
    requires v == Judge(seat, Drawn(s, first).seats[seat].hand, Drawn(s, first).seats[seat].melds, true, Drawn(s, first).dora) && v.Wins?
    ensures TakeTurn(s, seat, first, bots, turn).state == TsumoStep(EndStep(Drawn(s, first), seat), seat, WinOf(seat, true, v, -1))
  {
    var drawn := Drawn(s, first);
    var (d, err) := Decide(drawn.seats[seat].hand, turn.choice);
    PlayedTsumo(drawn, seat, d, v);
    var played := Played(drawn, seat, d);
    if err.None? && played.Next? {
      var k, w := RonPassCases(played.state, bots, d.tile, seat, played.seat);
    }
  }

  // ---------- Ron ----------

  // The discarder paid seat k the price of its hand, or all it had.
  ghost predicate PaidByOne(before: State, after: State, k: nat, from: nat, v: Verdict)
  {
    && v.Wins? && k < |before.scores| && from < |before.scores| == |after.scores|
    && var price := if v.han > 0 then RonPayment(v.han, v.fu, k == before.dealer) else 0;
       var moved := if v.han > 0 && before.scores[from] < price then before.scores[from] else price;
       forall i | 0 <= i < |before.scores| ::
         after.scores[i] == before.scores[i] + if i == k then moved else if i == from then -moved else 0
  }

  lemma OnePays(s: State, k: nat, from: nat, v: Verdict)
    requires s.Valid() && k < |s.seats| && from < |s.seats| && k != from && v.Wins? && (v.yakuman ==> v.han > 0)
    ensures var after := RonStep(EndStep(s, k), k, from, WinOf(k, false, v, from));
      after == s.(winner := k, phase := Ended, scores := after.scores) && PaidByOne(s, after, k, from, v)
  {
    var ended := EndStep(s, k);
    forall i | 0 <= i < |s.scores|
      ensures RonStep(ended, k, from, WinOf(k, false, v, from)).scores[i] ==
        s.scores[i] + if i == k then RonMoves(ended, k, from, WinOf(k, false, v, from))
          else if i == from then -RonMoves(ended, k, from, WinOf(k, false, v, from)) else 0
    {
      RonReaches(ended, k, from, WinOf(k, false, v, from), i);
    }
    RonReaches(ended, k, from, WinOf(k, false, v, from), 0);
  }

  // The first pass, when it ends in a win: some other seat's own hand wins on the tile, and the
  // discarder has paid it.
  lemma PassPaid(s: State, bots: set<nat>, t: Tile, from: nat, r: Step)
    requires s.Valid() && from < |s.seats| && RonPass(s, bots, Verdicts(s, t), from, After(s, from), 1) == Some(r) && r.Next?
    ensures var k := r.seat;
      && k < |s.seats| && k != from && k in bots && !s.seats[k].riichi
      && var v := Judge(k, s.seats[k].hand + [t], s.seats[k].melds, false, s.dora);
         v.Wins? && r.state == s.(winner := k, phase := Ended, scores := r.state.scores) && PaidByOne(s, r.state, k, from, v)
  {
    var vs := Verdicts(s, t);
    var d := RonFrom(s, bots, vs, from, 1);
    AskedIsAway(s, from, d);
    var k := Away(s, from, d);
    var v := Judge(k, s.seats[k].hand + [t], s.seats[k].melds, false, s.dora);
    assert vs[k] == v;
    WorthExactly(k, s.seats[k].hand + [t], s.seats[k].melds, false, s.dora);
    OnePays(s, k, from, v);
  }

  // A turn that ends the round without stopping the loop is a ron: another seat, a bot outside
  // riichi, wins on the tile that was offered and is paid by the acting seat; the final scores of
  // the run are these.
  lemma RonPaid(s: State, seat: nat, first: bool, bots: set<nat>, script: seq<Turn>)
    requires s.Valid() && seat < |s.seats| && GoesOn(s) && script != []
    requires var r := TakeTurn(s, seat, first, bots, script[0]); r.Next? && r.state.phase.Ended?
    ensures var r, drawn := TakeTurn(s, seat, first, bots, script[0]), Drawn(s, first);
      var (d, err) := Decide(drawn.seats[seat].hand, script[0].choice);
      var played, k := Played(drawn, seat, d).state, r.seat;
      && k < |played.seats| && k != seat && k in bots && !played.seats[k].riichi
      && var v := Judge(k, played.seats[k].hand + [d.tile], played.seats[k].melds, false, played.dora);
         && v.Wins? && r.state == played.(winner := k, phase := Ended, scores := r.state.scores)
         && PaidByOne(played, r.state, k, seat, v) && Play(s, seat, first, bots, script).0.scores == r.state.scores
  {
    RonIsForgotten(s, seat, first, bots, script);
    var drawn := Drawn(s, first);
    var (d, err) := Decide(drawn.seats[seat].hand, script[0].choice);
    PlayedMoves(drawn, seat, d);
    var played := Played(drawn, seat, d).state;
    var j, m := CallPassCases(played, bots, d.tile, After(played, seat), 1, script[0].calls);
    PassPaid(played, bots, d.tile, seat, TakeTurn(s, seat, first, bots, script[0]));
  }
}
