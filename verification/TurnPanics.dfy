/** When a turn panics (internal/game/loop.go, internal/game/engine/win.go). */
module TurnPanics {
  import opened Basics
  import opened Tiles
  import opened Analysis
  import opened Table
  import opened WinCheck
  import opened TurnSpec
  import opened TurnRuns
  import opened LoopHeads
  import opened Calls

  lemma PlayedMoves(s: State, seat: nat, d: Decision)
    requires s.Valid() && seat < |s.seats| && Played(s, seat, d).Next?
    ensures var r := Played(s, seat, d);
      && r.seat == After(s, seat) && r.state.current == After(s, s.current) && r.state.phase == s.phase
      && forall i | 0 <= i < |s.seats| :: r.state.seats[i].melds == s.seats[i].melds
  {
  }

  // ---------- The pass over the other seats ----------

  // Checking the seat's hand with the tile panics. A seat in riichi is not checked.
  ghost predicate SeatPanics(p: Seat, t: Tile)
  {
    !p.riichi && Panics(p.hand + [t], p.melds)
  }

  // The tile would complete the seat's hand, which is not in riichi, in standard form.
  ghost predicate SeatWaits(p: Seat, t: Tile)
  {
    var hand := p.hand + [t];
    && !p.riichi && |hand| == 14 - 3 * |p.melds| && AllCountable(hand) && NoBlankMeld(p.melds)
    && Standard(Tally(hand), 4 - |p.melds|) && !(p.melds == [] && AllPairs(Tally(hand)))
  }

  ghost predicate PanicWait(s: State, t: Tile, k: nat)
    requires k < |s.seats|
  {
    SeatPanics(s.seats[k], t)
  }

  // Only a bot wins on a discard.
  ghost predicate RonWait(s: State, bots: set<nat>, t: Tile, k: nat)
    requires k < |s.seats|
  {
    k in bots && SeatWaits(s.seats[k], t)
  }

  // Of the seats at which the pass would stop, the nearest after the thrower is one that panics.
  ghost predicate Breaks(s: State, bots: set<nat>, t: Tile, from: nat)
    requires from < |s.seats|
  {
    exists k :: 0 <= k < |s.seats| && k != from && PanicWait(s, t, k)
      && forall j | 0 <= j < |s.seats| && j != from && (PanicWait(s, t, j) || RonWait(s, bots, t, j)) ::
           Distance(s, from, k) <= Distance(s, from, j)
  }

  lemma StopsExactly(s: State, bots: set<nat>, t: Tile, k: nat)
    requires k < |s.seats|
    ensures Stops(s, bots, Verdicts(s, t), k) <==> PanicWait(s, t, k) || RonWait(s, bots, t, k)
    ensures Stops(s, bots, Verdicts(s, t), k) ==> (Verdicts(s, t)[k].Crash? <==> PanicWait(s, t, k))
  {
    CrashExactly(k, s.seats[k].hand + [t], s.seats[k].melds, false, s.dora);
    WinsExactly(k, s.seats[k].hand + [t], s.seats[k].melds, false, s.dora);
  }

  // The pass over the other seats panics exactly when the tile breaks the round.
  lemma PassBreaksExactly(s: State, bots: set<nat>, t: Tile, from: nat)
    requires s.Valid() && from < |s.seats|
    ensures RonPass(s, bots, Verdicts(s, t), from, After(s, from), 1) == Some(Halt(s, Crashed)) <==> Breaks(s, bots, t, from)
  {
    forall k | 0 <= k < |s.seats|
      ensures Stops(s, bots, Verdicts(s, t), k) <==> PanicWait(s, t, k) || RonWait(s, bots, t, k)
      ensures Stops(s, bots, Verdicts(s, t), k) ==> (Verdicts(s, t)[k].Crash? <==> PanicWait(s, t, k))
    {
      StopsExactly(s, bots, t, k);
    }
    NearestWins(s, bots, Verdicts(s, t), from);
    var d := RonFrom(s, bots, Verdicts(s, t), from, 1);
    if d < |s.seats| {
      AskedIsAway(s, from, d);
      var k := Away(s, from, d);
      forall j | 0 <= j < |s.seats| && j != from && Stops(s, bots, Verdicts(s, t), j)
        ensures Distance(s, from, k) <= Distance(s, from, j)
      {
        AwayOfDistance(s, from, j);
      }
    }
  }

  // Nobody panics or waits: the pass comes to nothing.
  lemma PassIsEmpty(s: State, bots: set<nat>, t: Tile, from: nat)
    requires s.Valid() && from < |s.seats|
    requires forall j | 0 <= j < |s.seats| && j != from :: !PanicWait(s, t, j) && !RonWait(s, bots, t, j)
    ensures RonPass(s, bots, Verdicts(s, t), from, After(s, from), 1) == None
  {
    forall j | 0 <= j < |s.seats| && j != from
      ensures !Stops(s, bots, Verdicts(s, t), j)
    {
      StopsExactly(s, bots, t, j);
    }
    NearestWins(s, bots, Verdicts(s, t), from);
  }

  // The nearest seat waits for the tile: it wins.
  lemma PassIsWon(s: State, bots: set<nat>, t: Tile, from: nat, k: nat)
    requires s.Valid() && from < |s.seats| && k < |s.seats| && k != from && RonWait(s, bots, t, k)
    requires forall j | 0 <= j < |s.seats| && j != from && (PanicWait(s, t, j) || RonWait(s, bots, t, j)) ::
      Distance(s, from, k) <= Distance(s, from, j)
    ensures var ron := RonPass(s, bots, Verdicts(s, t), from, After(s, from), 1);
      && ron.Some? && ron.value.Next? && ron.value.seat == k
      && ron.value.state.winner == k && ron.value.state.phase.Ended? && ron.value.state.seats == s.seats
  {
    var vs := Verdicts(s, t);
    forall j | 0 <= j < |s.seats| && Stops(s, bots, vs, j)
      ensures PanicWait(s, t, j) || RonWait(s, bots, t, j)
    {
      StopsExactly(s, bots, t, j);
    }
    StopsToWin(s, bots, t, k, vs);
    NearestWins(s, bots, vs, from);
    RonEnds(s, vs, from, k);
  }

  lemma StopsToWin(s: State, bots: set<nat>, t: Tile, k: nat, vs: seq<Verdict>)
    requires k < |s.seats| && RonWait(s, bots, t, k) && vs == Verdicts(s, t)
    ensures Stops(s, bots, vs, k) && vs[k].Wins?
  {
    WinsExactly(k, s.seats[k].hand + [t], s.seats[k].melds, false, s.dora);
  }

  // Throwing the tile changes nothing the other seats wait for.
  lemma ThrowKeepsWaits(s: State, bots: set<nat>, t: Tile, seat: nat)
    requires s.Valid() && seat == s.current && s.phase.Playing? && t in s.seats[seat].hand
    ensures Breaks(DiscardStep(s, t).0, bots, t, seat) <==> Breaks(s, bots, t, seat)
  {
    var r := DiscardStep(s, t).0;
    forall k | 0 <= k < |s.seats| && k != seat
      ensures PanicWait(r, t, k) <==> PanicWait(s, t, k)
      ensures RonWait(r, bots, t, k) <==> RonWait(s, bots, t, k)
      ensures Distance(r, seat, k) == Distance(s, seat, k)
    {
    }
  }

  // ---------- The whole turn ----------

  // A turn panics exactly on a tsumo whose own hand panics, or when the tile it names breaks the
  // round after the play.
  lemma TurnPanicsExactly(s: State, seat: nat, first: bool, bots: set<nat>, turn: Turn)
    requires s.Valid() && seat < |s.seats| && s.wall != []
    ensures var r, drawn := TakeTurn(s, seat, first, bots, turn), Drawn(s, first);
      var (d, err) := Decide(drawn.seats[seat].hand, turn.choice);
      var p, played := drawn.seats[seat], Played(drawn, seat, d);
      (r.Halt? && r.ending == Crashed) <==>
        (err.None? && ((d.op == OP_TSUMO && Panics(p.hand, p.melds)) || (played.Next? && Breaks(played.state, bots, d.tile, seat))))
  {
    var drawn := Drawn(s, first);
    var (d, err) := Decide(drawn.seats[seat].hand, turn.choice);
    if err.None? {
      OwnPanics(drawn, seat, d);
      var played := Played(drawn, seat, d);
      if played.Next? {
        PassBreaksExactly(played.state, bots, d.tile, seat);
        var k, w := RonPassCases(played.state, bots, d.tile, seat, played.seat);
        var j, m := CallPassCases(played.state, bots, d.tile, played.seat, 1, turn.calls);
      }
    }
  }

  lemma OwnPanics(s: State, seat: nat, d: Decision)
    requires s.Valid() && seat < |s.seats|
    ensures var r, p := Played(s, seat, d), s.seats[seat];
      && (r.Halt? && r.ending == Crashed <==> d.op == OP_TSUMO && Panics(p.hand, p.melds))
      && (r.Next? ==> r.seat == After(r.state, seat) && |r.state.seats| == |s.seats|)
  {
    CrashExactly(seat, s.seats[seat].hand, s.seats[seat].melds, true, s.dora);
  }

  // ---------- A tsumo that is no win ----------

  lemma {:induction false} GivenUpShort(ms: seq<Meld>)
    ensures GivenUp(ms) <= 3 * |ms|
    ensures GivenUp(ms) == 3 * |ms| <==> forall m | m in ms :: m.kind == Daiminkan
  {
    if ms != [] {
      GivenUpShort(ms[..|ms| - 1]);
      assert forall m :: m in ms <==> m in ms[..|ms| - 1] || m == ms[|ms| - 1];
    }
  }

  // With a tile that cannot be counted, checking any hand of the right length panics.
  lemma UncountableBreaks(s: State, bots: set<nat>, t: Tile, from: nat)
    requires s.Valid() && from < |s.seats| && !Countable(t)
    ensures Breaks(s, bots, t, from) <==>
      exists k :: 0 <= k < |s.seats| && k != from && !s.seats[k].riichi && |s.seats[k].hand| + 1 == 14 - 3 * |s.seats[k].melds|
  {
    forall k | 0 <= k < |s.seats|
      ensures !RonWait(s, bots, t, k)
      ensures PanicWait(s, t, k) <==> !s.seats[k].riichi && |s.seats[k].hand| + 1 == 14 - 3 * |s.seats[k].melds|
    {
      var hand := s.seats[k].hand + [t];
      assert hand[|s.seats[k].hand|] == t;
    }
    NearestPanics(s, bots, t, from);
  }

  // Where nobody can win, the pass panics as soon as some seat does.
  lemma NearestPanics(s: State, bots: set<nat>, t: Tile, from: nat)
    requires s.Valid() && from < |s.seats| && forall k | 0 <= k < |s.seats| :: !RonWait(s, bots, t, k)
    ensures Breaks(s, bots, t, from) <==> exists k :: 0 <= k < |s.seats| && k != from && PanicWait(s, t, k)
  {
    var vs := Verdicts(s, t);
    forall k | 0 <= k < |s.seats|
      ensures Stops(s, bots, vs, k) <==> PanicWait(s, t, k)
      ensures Stops(s, bots, vs, k) ==> vs[k].Crash?
    {
      StopsExactly(s, bots, t, k);
    }
    NearestWins(s, bots, vs, from);
    PassBreaksExactly(s, bots, t, from);
    var d := RonFrom(s, bots, vs, from, 1);
    if d < |s.seats| {
      AskedIsAway(s, from, d);
    }
  }

  // Everybody but the thrower holds thirteen, so exactly the seats without a pon have a hand of the
  // right length.
  lemma RightLength(s: State, k: nat)
    requires EngineOk(s, false) && k < |s.seats|
    ensures |s.seats[k].hand| + 1 == 14 - 3 * |s.seats[k].melds| <==> forall m | m in s.seats[k].melds :: m.kind == Daiminkan
  {
    GivenUpShort(s.seats[k].melds);
  }

  // A tsumo that is no win throws the first tile of the hand, and the tile it named is still
  // offered. When that is blank, or no tile at all, the turn panics exactly if some other seat is
  // neither in riichi nor has claimed a pon.
  lemma FailedTsumoPanics(s: State, seat: nat, first: bool, bots: set<nat>, turn: Turn)
    requires HeadOk(s, seat, first) && GoesOn(s)
    requires var p := Drawn(s, first).seats[seat]; p.hand != [] && Judge(seat, p.hand, p.melds, true, s.dora).NoWin?
    requires var (d, err) := Decide(Drawn(s, first).seats[seat].hand, turn.choice);
      err.None? && d.op == OP_TSUMO && !Countable(d.tile)
    ensures var r := TakeTurn(s, seat, first, bots, turn);
      r.Halt? && r.ending == Crashed <==>
        exists k :: 0 <= k < |s.seats| && k != seat && !s.seats[k].riichi && forall m | m in s.seats[k].melds :: m.kind == Daiminkan
  {
    DrawReachesDecision(s, first);
    var drawn := Drawn(s, first);
    var (d, err) := Decide(drawn.seats[seat].hand, turn.choice);
    assert FirstTile(drawn.seats[seat].hand) in drawn.seats[seat].hand;
    PlayedOk(drawn, seat, d);
    var played := Played(drawn, seat, d).state;
    TurnPanicsExactly(s, seat, first, bots, turn);
    CrashExactly(seat, drawn.seats[seat].hand, drawn.seats[seat].melds, true, s.dora);
    UncountableBreaks(played, bots, d.tile, seat);
    forall k | 0 <= k < |s.seats| && k != seat
      ensures played.seats[k] == s.seats[k]
      ensures |played.seats[k].hand| + 1 == 14 - 3 * |played.seats[k].melds| <==>
        forall m | m in s.seats[k].melds :: m.kind == Daiminkan
    {
      RightLength(played, k);
    }
  }

  // The tile offered to the other seats is the one just thrown, unless a tsumo that was no win named
  // another than the first tile of the hand.
  lemma OfferedIsThrown(s: State, seat: nat, d: Decision)
    requires s.Valid() && seat < |s.seats| && Played(s, seat, d).Next?
    ensures var pile := Played(s, seat, d).state.seats[s.current].discards;
      && |pile| == |s.seats[s.current].discards| + 1
      && (pile[|pile| - 1] == d.tile <==> d.op != OP_TSUMO || d.tile == FirstTile(s.seats[seat].hand))
  {
  }
}
