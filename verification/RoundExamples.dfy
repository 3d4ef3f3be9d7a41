/** Dealt rounds on which the program falls short of what its comments promise. */
module RoundExamples {
  import opened Basics
  import opened Tiles
  import opened Decomposition
  import opened Analysis
  import opened Table
  import opened Ledger
  import opened WinCheck
  import opened TurnSpec
  import opened Calls
  import opened LoopHeads
  import opened TurnPanics
  import opened RoundResults
  import opened Bots
  import opened Dora
  import opened Examples

  // ---------- The deals ----------

  // The state in which the loop receives a dealt round of two seats; seat 0 deals.
  function Dealt(w: Wall): State
    requires |w.hands| == 2
  {
    StartStep(NewState(2, 0, 0, w)).0
  }

  predicate Deals(w: Wall, extra: Tile)
  {
    |w.hands| == 2 && w.extra == extra && |w.stack| >= 2 && AllCountable(w.stack)
  }

  lemma DealtIs(w: Wall, extra: Tile)
    requires Deals(w, extra) && Countable(extra)
    requires Proper(w.hands[0]) && Proper(w.hands[1]) && |w.hands[0]| == |w.hands[1]| == 13
    ensures var s := Dealt(w);
      && HeadOk(s, 0, true) && GoesOn(s) && s.phase.Playing? && s.current == s.dealer == 0 && s.wall == w.stack && s.winner == -1
      && s.seats == [Seat(w.hands[0] + [extra], [], false, []), Seat(w.hands[1], [], false, [])]
  {
    StartIsGood(2, 0, 0, w);
  }

  // ---------- The hands, in whatever order they are dealt ----------

  // 123456789p 1234s
  predicate IsOdd(hand: seq<Tile>)
  {
    Proper(hand) && |hand| == 13 && forall k | 0 <= k < KINDS :: Tally(hand)[k] == if 9 <= k <= 21 then 1 else 0
  }

  // 111222333m 123p 7z waits for 7z.
  predicate IsWaiting(hand: seq<Tile>)
  {
    && Proper(hand) && |hand| == 13
    && forall k | 0 <= k < KINDS :: Tally(hand)[k] == if k == 33 then 1 else ThreeRunsCount(k)
  }

  // 112233445566m 7z waits for its seventh pair.
  predicate IsSixPairs(hand: seq<Tile>)
  {
    && Proper(hand) && |hand| == 13
    && forall k | 0 <= k < KINDS :: Tally(hand)[k] == if k <= 5 then 2 else if k == 33 then 1 else 0
  }

  // 11m 56789s 123456z
  predicate IsPonHand(hand: seq<Tile>)
  {
    && Proper(hand) && |hand| == 13
    && forall k | 0 <= k < KINDS :: Tally(hand)[k] == if k == 0 then 2 else if 22 <= k <= 32 then 1 else 0
  }

  // Such hands there are.
  lemma OddAndSixPairs()
    ensures IsOdd(Each(9, 21, 1)) && IsSixPairs(Each(0, 5, 2) + Each(33, 33, 1))
  {
    OneGroup(9, 21, 1);
    OneGroup(0, 5, 2);
    WithGroup(Each(0, 5, 2), 33, 33, 1);
  }

  lemma WaitingAndPonHand()
    ensures IsWaiting(Each(0, 2, 3) + Each(9, 11, 1) + Each(33, 33, 1)) && IsPonHand(Each(0, 0, 2) + Each(22, 32, 1))
  {
    OneGroup(0, 2, 3);
    WithGroup(Each(0, 2, 3), 9, 11, 1);
    WithGroup(Each(0, 2, 3) + Each(9, 11, 1), 33, 33, 1);
    OneGroup(0, 0, 2);
    WithGroup(Each(0, 0, 2), 22, 32, 1);
  }

  lemma OneMore(hand: seq<Tile>, t: Tile)
    requires Proper(hand) && Canonical(t)
    ensures Proper(hand + [t]) && Countable(t)
    ensures forall k | 0 <= k < KINDS :: Tally(hand + [t])[k] == Tally(hand)[k] + if k == Slot(t) then 1 else 0
  {
    TileAtOfIndex(t);
    forall k | 0 <= k < KINDS
      ensures Held(hand + [t], k) == Held(hand, k) + if k == Slot(t) then 1 else 0
    {
      assert (hand + [t])[..|hand|] == hand;
    }
  }

  lemma SlotsOf()
    ensures Slot("7z") == 33 && Slot("9s") == 26 && Slot("1m") == 0 && TileAt(33) == "7z" && TileAt(26) == "9s" && TileAt(0) == "1m"
  {
  }

  // ---------- Hands that do not win ----------

  // Fourteen different kinds without 1m are nothing.
  lemma NothingThere(hand: seq<Tile>, t: Tile)
    requires IsOdd(hand) && t in {"7z", "9s"}
    ensures Proper(hand + [t]) && |hand + [t]| == 14
    ensures var c := Tally(hand + [t]); !Orphans(c) && !AllPairs(c) && !Standard(c, 4)
  {
    OneMore(hand, t);
    SlotsOf();
    var c := Tally(hand + [t]);
    assert c[0] == 0 && c[9] == 1;
  }

  lemma WaitingStandard(hand: seq<Tile>)
    requires IsWaiting(hand)
    ensures var all := hand + ["7z"];
      Proper(all) && |all| == 14 && Standard(Tally(all), 4) && !AllPairs(Tally(all)) && !Orphans(Tally(all))
  {
    OneMore(hand, "7z");
    SlotsOf();
    ThreeRunsStandard(Tally(hand + ["7z"]));
  }

  lemma ThreeRunsStandard(c: Counts)
    requires forall k | 0 <= k < KINDS :: c[k] == ThreeRunsCount(k)
    ensures Standard(c, 4) && !AllPairs(c) && !Orphans(c)
  {
    var runs := [Run(0), Run(0), Run(0), Run(9)];
    FourSets(c, 33, runs);
    assert PairAndSets(c, 33, |runs|);
    assert c[0] == 3 && c[1] == 3;
  }

  lemma WaitingWins(seat: nat, hand: seq<Tile>, melds: seq<Meld>, tsumo: bool, dora: seq<Indicator>)
    requires IsWaiting(hand) && melds == []
    ensures Judge(seat, hand + ["7z"], melds, tsumo, dora).Wins?
  {
    WaitingStandard(hand);
    ClosedWins(seat, hand + ["7z"], melds, tsumo, dora);
  }

  lemma ClosedWins(seat: nat, hand: seq<Tile>, melds: seq<Meld>, tsumo: bool, dora: seq<Indicator>)
    requires AllCountable(hand) && |hand| == 14 && melds == [] && Standard(Tally(hand), 4) && !AllPairs(Tally(hand))
    ensures Judge(seat, hand, melds, tsumo, dora).Wins?
  {
    WinsExactly(seat, hand, melds, tsumo, dora);
  }

  // Who waits for what, and whose check panics.
  lemma WaitingFor(p: Seat)
    requires IsWaiting(p.hand) && p.melds == []
    ensures !SeatPanics(p, "7z") && (SeatWaits(p, "7z") <==> !p.riichi)
  {
    WaitingStandard(p.hand);
    assert NoBlankMeld(p.melds);
  }

  lemma OddWaitsForNothing(p: Seat, t: Tile)
    requires IsOdd(p.hand) && p.melds == [] && t in {"7z", "9s"}
    ensures !SeatPanics(p, t) && !SeatWaits(p, t)
  {
    NothingThere(p.hand, t);
    SeatWithNothing(p, p.hand + [t], t);
  }

  lemma SeatWithNothing(p: Seat, hand: seq<Tile>, t: Tile)
    requires hand == p.hand + [t] && p.melds == [] && AllCountable(hand) && |hand| == 14
    requires !Orphans(Tally(hand)) && !AllPairs(Tally(hand)) && !Standard(Tally(hand), 4)
    ensures !SeatPanics(p, t) && !SeatWaits(p, t)
  {
  }

  // ---------- A bot's turn that panics ----------

  // Seat 1 waits for its seventh pair; a novice bot at seat 0 throws the tile.
  lemma BotRoundPanics(w: Wall, bots: set<nat>, script: seq<Turn>)
    requires Deals(w, "7z") && IsOdd(w.hands[0]) && IsSixPairs(w.hands[1]) && script == [Turn(Bot(None, "7z"), map[])]
    ensures var s := Dealt(w);
      && BuiltinTurn(Novice, s.seats[0].hand, script[0])
      && Play(s, 0, true, bots, script).1 == Crashed
  {
    SlotsOf();
    DealtIs(w, "7z");
    OneMore(w.hands[1], "7z");
    BreakingTile(Dealt(w), "7z", bots);
    NovicePanics(Dealt(w), w.hands[0], "7z", bots, script);
  }

  lemma NovicePanics(s: State, hand: seq<Tile>, t: Tile, bots: set<nat>, script: seq<Turn>)
    requires HeadOk(s, 0, true) && GoesOn(s) && s.seats[0].hand == hand + [t] && Breaks(s, bots, t, 0)
    requires script == [Turn(Bot(None, t), map[])]
    ensures BuiltinTurn(Novice, s.seats[0].hand, script[0]) && Play(s, 0, true, bots, script).1 == Crashed
  {
    assert s.seats[0].hand[|hand|] == t;
    BotTurn(Novice, s, 0, true, bots, script[0]);
  }

  lemma BreakingTile(s: State, t: Tile, bots: set<nat>)
    requires s.Valid() && |s.seats| == 2 && !s.seats[1].riichi && s.seats[1].melds == []
    requires var hand := s.seats[1].hand + [t]; |hand| == 14 && AllCountable(hand) && AllPairs(Tally(hand))
    ensures Breaks(s, bots, t, 0)
  {
    assert PanicWait(s, t, 1);
  }

  // ---------- A tsumo that is no win ----------

  lemma NothingToWin(seat: nat, hand: seq<Tile>, melds: seq<Meld>, tsumo: bool, dora: seq<Indicator>)
    requires AllCountable(hand) && melds == [] && !Orphans(Tally(hand)) && !AllPairs(Tally(hand)) && !Standard(Tally(hand), 4)
    ensures Judge(seat, hand, melds, tsumo, dora).NoWin?
  {
    AnalysisDecidesWinning(hand, OpenMelds(melds));
  }

  lemma OddTsumo(seat: nat, hand: seq<Tile>, t: Tile, melds: seq<Meld>, tsumo: bool, dora: seq<Indicator>)
    requires IsOdd(hand) && melds == [] && t in {"7z", "9s"}
    ensures Judge(seat, hand + [t], melds, tsumo, dora).NoWin?
  {
    NothingThere(hand, t);
    NothingToWin(seat, hand + [t], melds, tsumo, dora);
  }

  // The human dealer claims a win it does not have and names no tile: the round panics.
  lemma BlankTsumoPanics(w: Wall, bots: set<nat>, script: seq<Turn>)
    requires Deals(w, "7z") && IsOdd(w.hands[0]) && Proper(w.hands[1]) && |w.hands[1]| == 13
    requires script == [Turn(Human(OP_TSUMO, ""), map[])]
    ensures Play(Dealt(w), 0, true, bots, script).1 == Crashed
  {
    SlotsOf();
    DealtIs(w, "7z");
    var s := Dealt(w);
    OddTsumo(0, w.hands[0], "7z", s.seats[0].melds, true, s.dora);
    FailedTsumoPanics(s, 0, true, bots, script[0]);
    assert !s.seats[1].riichi && s.seats[1].melds == [];
  }

  // It names 7z, which it does not hold: its first tile is thrown, and seat 1 wins on a 7z that
  // nobody threw.
  lemma RonOnUnthrownTile(w: Wall, turn: Turn)
    requires Deals(w, "9s") && IsOdd(w.hands[0]) && IsWaiting(w.hands[1]) && turn == Turn(Human(OP_TSUMO, "7z"), map[])
    ensures var s, r := Dealt(w), TakeTurn(Dealt(w), 0, true, {1}, turn);
      && r.Next? && r.seat == 1 && r.state.winner == 1
      && "7z" !in s.seats[0].hand && r.state.seats[0].discards == [w.hands[0][0]] && w.hands[0][0] != "7z"
  {
    SlotsOf();
    DealtIs(w, "9s");
    var s := Dealt(w);
    OddTsumo(0, w.hands[0], "9s", s.seats[0].melds, true, s.dora);
    NotAmong(w.hands[0], 33);
    WaitingFor(s.seats[1]);
    FallsBack(s, turn, "7z", w.hands[0][0]);
    SecondSeatRons(s, turn, "7z", w.hands[0][0]);
  }

  // Without a win the first tile is thrown, whatever tile was named.
  lemma FallsBack(s: State, turn: Turn, offered: Tile, thrown: Tile)
    requires s.Valid() && |s.seats| == 2 && s.current == 0 && s.phase.Playing? && s.seats[0].hand != []
    requires FirstTile(s.seats[0].hand) == thrown && turn == Turn(Human(OP_TSUMO, offered), map[])
    requires Judge(0, s.seats[0].hand, s.seats[0].melds, true, s.dora).NoWin?
    ensures var (d, err) := Decide(s.seats[0].hand, turn.choice);
      err.None? && d.tile == offered && Played(s, 0, d) == Next(DiscardStep(s, thrown).0, 1) && thrown in s.seats[0].hand
  {
    assert s.seats[0].hand[0] == thrown;
  }

  // ---------- A ron ----------

  // The play throws one tile and offers another; the second seat, a bot, waits for that.
  lemma SecondSeatRons(s: State, turn: Turn, offered: Tile, thrown: Tile)
    requires HeadOk(s, 0, true) && GoesOn(s) && |s.seats| == 2 && s.current == 0
    requires var (d, err) := Decide(s.seats[0].hand, turn.choice);
      err.None? && d.tile == offered && Played(s, 0, d) == Next(DiscardStep(s, thrown).0, 1) && thrown in s.seats[0].hand
    requires RonWait(s, {1}, offered, 1)
    ensures var r := TakeTurn(s, 0, true, {1}, turn);
      && r.Next? && r.seat == 1 && r.state.phase.Ended? && r.state.winner == 1
      && r.state.seats[0].discards == s.seats[0].discards + [thrown]
  {
    var played := DiscardStep(s, thrown).0;
    OnePile(s, thrown);
    SecondSeatWins(played, offered, turn);
  }

  lemma OnePile(s: State, t: Tile)
    requires s.Valid() && |s.seats| == 2 && s.current == 0 && s.phase.Playing? && t in s.seats[0].hand
    ensures var played := DiscardStep(s, t).0;
      && played.Valid() && |played.seats| == 2 && played.seats[1] == s.seats[1]
      && played.seats[0].discards == s.seats[0].discards + [t] && played.current == After(s, 0) == 1
  {
  }

  lemma SecondSeatWins(s: State, t: Tile, turn: Turn)
    requires s.Valid() && |s.seats| == 2 && RonWait(s, {1}, t, 1)
    ensures var r := Claimed(s, {1}, t, 0, After(s, 0), turn);
      r.Next? && r.seat == 1 && r.state.phase.Ended? && r.state.winner == 1 && r.state.seats == s.seats
  {
    PassIsWon(s, {1}, t, 0, 1);
  }

  // Seat 0 throws the tile that seat 1, a bot, waits for: the winner is recorded, then overwritten.
  lemma RonOverwritten(w: Wall, script: seq<Turn>)
    requires Deals(w, "7z") && IsOdd(w.hands[0]) && IsWaiting(w.hands[1]) && script == [Turn(Human(OP_DISCARD, "7z"), map[])]
    ensures var s, r := Dealt(w), TakeTurn(Dealt(w), 0, true, {1}, script[0]);
      && r.Next? && r.seat == 1 && r.state.winner == 1
      && Play(s, 0, true, {1}, script) == (EndStep(r.state, -1), Exhausted)
  {
    SlotsOf();
    DealtIs(w, "7z");
    WaitingFor(Dealt(w).seats[1]);
    RonThenForgotten(Dealt(w), w.hands[0], "7z", script);
  }

  lemma RonThenForgotten(s: State, hand: seq<Tile>, t: Tile, script: seq<Turn>)
    requires HeadOk(s, 0, true) && GoesOn(s) && |s.seats| == 2 && s.current == 0 && s.seats[0].hand == hand + [t] && RonWait(s, {1}, t, 1)
    requires script == [Turn(Human(OP_DISCARD, t), map[])]
    ensures var r := TakeTurn(s, 0, true, {1}, script[0]);
      && r.Next? && r.seat == 1 && r.state.winner == 1
      && Play(s, 0, true, {1}, script) == (EndStep(r.state, -1), Exhausted)
  {
    PlainDiscard(s, script[0], hand, t);
    SecondSeatRons(s, script[0], t, t);
    RonIsForgotten(s, 0, true, {1}, script);
  }

  lemma PlainDiscard(s: State, turn: Turn, hand: seq<Tile>, t: Tile)
    requires s.Valid() && |s.seats| == 2 && s.current == 0 && s.phase.Playing? && s.seats[0].hand == hand + [t]
    requires turn.choice == Human(OP_DISCARD, t)
    ensures var (d, err) := Decide(s.seats[0].hand, turn.choice);
      err.None? && d.tile == t && Played(s, 0, d) == Next(DiscardStep(s, t).0, 1) && t in s.seats[0].hand
  {
    assert s.seats[0].hand[|hand|] == t;
  }

  // The same deal with a human at seat 1: it could win, nobody does, and the round goes on.
  lemma HumanPassedOver(w: Wall, turn: Turn)
    requires Deals(w, "7z") && IsOdd(w.hands[0]) && IsWaiting(w.hands[1]) && turn == Turn(Human(OP_DISCARD, "7z"), map[])
    ensures var s, r := Dealt(w), TakeTurn(Dealt(w), 0, true, {}, turn);
      && Judge(1, s.seats[1].hand + ["7z"], s.seats[1].melds, false, s.dora).Wins?
      && r.Next? && r.seat == r.state.current == 1 && r.state.phase.Playing? && r.state.winner == -1
  {
    SlotsOf();
    DealtIs(w, "7z");
    var s := Dealt(w);
    WaitingWins(1, s.seats[1].hand, s.seats[1].melds, false, s.dora);
    WaitingFor(s.seats[1]);
    HumanNotAsked(s, w.hands[0], "7z", turn);
  }

  lemma HumanNotAsked(s: State, hand: seq<Tile>, t: Tile, turn: Turn)
    requires s.Valid() && |s.seats| == 2 && s.current == 0 && s.phase.Playing? && s.wall != [] && s.seats[0].hand == hand + [t]
    requires turn == Turn(Human(OP_DISCARD, t), map[]) && !PanicWait(s, t, 1) && !RonWait(s, {}, t, 1)
    ensures var r := TakeTurn(s, 0, true, {}, turn);
      r.Next? && r.seat == r.state.current == 1 && r.state.phase.Playing? && r.state.winner == s.winner
  {
    PlainDiscard(s, turn, hand, t);
    var played := DiscardStep(s, t).0;
    assert played.seats[1] == s.seats[1];
    NobodyStops(s, 0, true, {}, turn, played);
  }

  // With two seats, where the other is not stopped at and nobody calls, the turn passes on.
  lemma NobodyTakes(s: State, bots: set<nat>, t: Tile, from: nat, turn: Turn)
    requires s.Valid() && from < |s.seats| == 2 && turn.calls == map[]
    requires !PanicWait(s, t, 1 - from) && !RonWait(s, bots, t, 1 - from)
    ensures Claimed(s, bots, t, from, After(s, from), turn) == Next(s, After(s, from))
  {
    PassIsEmpty(s, bots, t, from);
    ClaimedExists(s, bots, t, from, turn.calls);
  }

  // The other seat is no bot, or its hand is turned down, or it is in riichi: the turn is the play.
  lemma NobodyStops(s: State, seat: nat, first: bool, bots: set<nat>, turn: Turn, played: State)
    requires s.Valid() && seat < |s.seats| == 2 && s.wall != [] && turn.calls == map[] && played.Valid() && |played.seats| == 2
    requires var (d, err) := Decide(Drawn(s, first).seats[seat].hand, turn.choice);
      && err.None? && Played(Drawn(s, first), seat, d) == Next(played, 1 - seat)
      && !PanicWait(played, d.tile, 1 - seat) && !RonWait(played, bots, d.tile, 1 - seat)
    ensures TakeTurn(s, seat, first, bots, turn) == Next(played, 1 - seat)
  {
    var (d, err) := Decide(Drawn(s, first).seats[seat].hand, turn.choice);
    NobodyTakes(played, bots, d.tile, seat, turn);
  }

  // ---------- Riichi ----------

  lemma {:induction false} RemoveLast(hand: seq<Tile>, t: Tile)
    requires t !in hand
    ensures RemoveCopies(hand + [t], t, 1) == hand
  {
    if hand == [] {
      assert RemoveCopies([], t, 0) == [];
    } else {
      assert (hand + [t])[1..] == hand[1..] + [t];
      RemoveLast(hand[1..], t);
    }
  }

  lemma NotAmong(hand: seq<Tile>, i: nat)
    requires Proper(hand) && i < KINDS && Tally(hand)[i] == 0
    ensures TileAt(i) !in hand
  {
    if TileAt(i) in hand {
      var n :| 0 <= n < |hand| && hand[n] == TileAt(i);
      SuitOfSlot(hand, n);
      IndexOfTileAt(i);
    }
  }

  lemma RiichiTaken(s: State, hand: seq<Tile>, t: Tile, other: Seat, turn: Turn)
    requires s.Valid() && s.current == 0 && s.phase.Playing? && s.wall != [] && t !in hand && turn == Turn(Human(OP_RIICHI, t), map[])
    requires s.seats == [Seat(hand + [t], [], false, []), other]
    requires !SeatPanics(other, t) && !SeatWaits(other, t)
    ensures var r := TakeTurn(s, 0, true, {0, 1}, turn);
      && r.Next? && r.seat == r.state.current == 1 && r.state.phase.Playing? && r.state.winner == s.winner && r.state.wall == s.wall
      && r.state.dora == s.dora && r.state.Valid() && r.state.seats == [Seat(hand, [], true, [t]), other]
  {
    var played := RiichiStep(s, t).0;
    RiichiIs(s, hand, t, other);
    NobodyStops(s, 0, true, {0, 1}, turn, played);
  }

  lemma RiichiIs(s: State, hand: seq<Tile>, t: Tile, other: Seat)
    requires s.Valid() && s.current == 0 && s.phase.Playing? && t !in hand && s.seats == [Seat(hand + [t], [], false, []), other]
    ensures var played := RiichiStep(s, t).0;
      && Played(s, 0, Decision(OP_RIICHI, t)) == Next(played, 1) && played.Valid() && played.current == 1
      && played.phase == s.phase && played.winner == s.winner && played.wall == s.wall && played.dora == s.dora
      && played.seats == [Seat(hand, [], true, [t]), other]
  {
    RemoveLast(hand, t);
    assert s.seats[0].hand[|hand|] == t;
    var played := RiichiStep(s, t).0;
    assert s.seats[0].discards + [t] == [t];
    assert played.seats[0] == Seat(hand, [], true, [t]) && played.seats[1] == other;
  }

  // Seat 0 declares riichi, waiting for 7z.
  lemma RiichiDeclared(w: Wall, turn: Turn)
    requires Deals(w, "9s") && IsWaiting(w.hands[0]) && IsOdd(w.hands[1]) && turn == Turn(Human(OP_RIICHI, "9s"), map[])
    ensures var r := TakeTurn(Dealt(w), 0, true, {0, 1}, turn);
      && r.Next? && r.seat == r.state.current == 1 && r.state.phase.Playing? && r.state.winner == -1 && r.state.wall == w.stack
      && r.state.Valid() && r.state.seats == [Seat(w.hands[0], [], true, ["9s"]), Seat(w.hands[1], [], false, [])]
  {
    SlotsOf();
    DealtIs(w, "9s");
    NotAmong(w.hands[0], 26);
    OddWaitsForNothing(Dealt(w).seats[1], "9s");
    RiichiTaken(Dealt(w), w.hands[0], "9s", Dealt(w).seats[1], turn);
  }

  lemma RiichiNotAsked(s: State, t: Tile, turn: Turn)
    requires s.Valid() && |s.seats| == 2 && s.current == 1 && s.phase.Playing? && s.wall != [] && s.seats[0].riichi
    requires s.wall[0] == t && turn == Turn(Human(OP_DISCARD, t), map[])
    ensures var r := TakeTurn(s, 1, false, {0, 1}, turn);
      r.Next? && r.seat == r.state.current == 0 && r.state.phase.Playing? && r.state.winner == s.winner
  {
    var drawn := Drawn(s, false);
    assert drawn.seats[1].hand[|s.seats[1].hand|] == t;
    NobodyStops(s, 1, false, {0, 1}, turn, DiscardStep(drawn, t).0);
  }

  // Seat 1 then draws that tile and throws it: seat 0, a bot, is not asked, and the round goes on.
  lemma RiichiPassedOver(w: Wall, script: seq<Turn>)
    requires Deals(w, "9s") && IsWaiting(w.hands[0]) && IsOdd(w.hands[1]) && w.stack[0] == "7z"
    requires script == [Turn(Human(OP_RIICHI, "9s"), map[]), Turn(Human(OP_DISCARD, "7z"), map[])]
    ensures var s := TakeTurn(Dealt(w), 0, true, {0, 1}, script[0]).state;
      && s.wall != [] && s.Valid() && |s.seats| == 2
      && s.seats[0].riichi && Judge(0, s.seats[0].hand + ["7z"], s.seats[0].melds, false, s.dora).Wins?
      && var r := TakeTurn(s, 1, false, {0, 1}, script[1]);
         r.Next? && r.seat == r.state.current == 0 && r.state.phase.Playing? && r.state.winner == -1
  {
    RiichiDeclared(w, script[0]);
    var s := TakeTurn(Dealt(w), 0, true, {0, 1}, script[0]).state;
    WaitingWins(0, s.seats[0].hand, s.seats[0].melds, false, s.dora);
    RiichiNotAsked(s, "7z", script[1]);
  }

  // ---------- Out of step ----------

  lemma WrongHand(s: State, hand: seq<Tile>, t: Tile, turn: Turn)
    requires s.Valid() && s.current == 0 && s.phase.Playing? && s.wall != [] && |s.seats| == 2 && t !in hand
    requires s.seats[0] == Seat(hand + [t], [], false, []) && turn == Turn(Human(OP_DISCARD, t), map[])
    requires var thrower := Seat(hand, [], false, [t]); !SeatPanics(thrower, t) && !SeatWaits(thrower, t)
    ensures var r := TakeTurn(s, 1, true, {0}, turn);
      && r.Next? && r.seat == 0 && r.state.current == 1 && r.state.phase.Playing? && r.state.wall == s.wall
      && r.state.seats == [Seat(hand, [], false, [t]), s.seats[1]]
  {
    RemoveLast(hand, t);
    assert s.seats[0].hand[|hand|] == t;
    var played := DiscardStep(s, t).0;
    assert s.seats[0].discards + [t] == [t];
    assert played.seats[0] == Seat(hand, [], false, [t]) && played.seats[1] == s.seats[1];
    NobodyStops(s, 1, true, {0}, turn, played);
  }

  // The engine is at the dealer, seat 0, and the loop starts at the human's seat 1: the 7z that seat 1
  // names is taken from seat 0's hand, and loop and engine stay one seat apart.
  lemma OutOfStep(w: Wall, turn: Turn)
    requires Deals(w, "7z") && IsOdd(w.hands[0]) && IsSixPairs(w.hands[1]) && turn == Turn(Human(OP_DISCARD, "7z"), map[])
    ensures var s, r := Dealt(w), TakeTurn(Dealt(w), 1, true, {0}, turn);
      && r.Next? && r.seat == 0 && r.state.current == 1 && GoesOn(r.state)
      && r.state.seats[1] == s.seats[1] && r.state.seats[0].discards == ["7z"]
  {
    SlotsOf();
    DealtIs(w, "7z");
    NotAmong(w.hands[0], 33);
    OddWaitsForNothing(Seat(w.hands[0], [], false, ["7z"]), "7z");
    WrongHand(Dealt(w), w.hands[0], "7z", turn);
  }

  // ---------- A pon ----------

  // With one tile held three times, none at the next kind and all others single there is no win.
  lemma TripleAlone(c: Counts)
    requires c[0] == 3 && c[1] == 0 && c[22] == 1 && forall k | 1 <= k < KINDS :: c[k] <= 1
    ensures !Standard(c, 4) && !AllPairs(c) && !Orphans(c)
  {
    forall p: nat, bs | p < KINDS && c[p] >= 2 && Partition(TakePair(c, p), bs)
      ensures false
    {
      assert p == 0 && Lowest(TakePair(c, p)) == 0;
      var j := LowestStartsBlock(TakePair(c, p), bs);
      TakeOut(TakePair(c, p), bs, j);
    }
  }

  lemma PonHandNoWin(seat: nat, hand: seq<Tile>, melds: seq<Meld>, tsumo: bool, dora: seq<Indicator>)
    requires IsPonHand(hand) && melds == []
    ensures Judge(seat, hand + ["1m"], melds, tsumo, dora).NoWin?
  {
    SlotsOf();
    OneMore(hand, "1m");
    TripleAlone(Tally(hand + ["1m"]));
    NothingToWin(seat, hand + ["1m"], melds, tsumo, dora);
  }

  // A kind without a red five is held as often as its tile.
  lemma {:induction false} HeldIsCopies(hand: seq<Tile>, k: nat)
    requires Proper(hand) && k in {0, 33}
    ensures Held(hand, k) == CopiesIn(hand, TileAt(k))
  {
    if hand != [] {
      var n := |hand| - 1;
      HeldIsCopies(hand[..n], k);
      assert hand == hand[..n] + [hand[n]];
      OnlyTileAt(hand[n], k);
    }
  }

  lemma OnlyTileAt(t: Tile, k: nat)
    requires Canonical(t) && k in {0, 33}
    ensures Slot(t) == k <==> t == TileAt(k)
  {
    TileAtOfIndex(t);
  }

  lemma PonTaken(s: State, t: Tile, turn: Turn)
    requires HeadOk(s, 0, true) && GoesOn(s) && |s.seats| == 2 && t in s.seats[0].hand
    requires !s.seats[1].riichi && CopiesIn(s.seats[1].hand, t) >= 2
    requires Judge(1, s.seats[1].hand + [t], s.seats[1].melds, false, s.dora).NoWin?
    requires turn == Turn(Human(OP_DISCARD, t), map[1 := Pon])
    ensures var r := TakeTurn(s, 0, true, {1}, turn);
      r.Next? && r.seat == 1 && r.state.phase.Playing? && r.state.wall == s.wall
      && r.state.seats[1].melds == s.seats[1].melds + [MeldOf(Pon, t)]
  {
    var d := Decision(OP_DISCARD, t);
    assert Decide(s.seats[0].hand, turn.choice) == (d, None);
    var played := Played(s, 0, d).state;
    assert played.seats[1] == s.seats[1];
    var vs := Verdicts(played, t);
    assert !Stops(played, {1}, vs, 1);
    assert Claims(played, {1}, t, turn.calls, 1);
    NearestClaims(played, {1}, t, 0, turn, 1);
  }

  // Seat 1, a bot, claims a pon of 1m from the first discard.
  lemma PonClaimed(w: Wall, turn: Turn)
    requires Deals(w, "1m") && IsOdd(w.hands[0]) && IsPonHand(w.hands[1]) && turn == Turn(Human(OP_DISCARD, "1m"), map[1 := Pon])
    ensures var s, r := Dealt(w), TakeTurn(Dealt(w), 0, true, {1}, turn);
      HeadOk(s, 0, true) && r.Next? && r.seat == 1 && GoesOn(r.state) && MeldOf(Pon, "1m") in r.state.seats[1].melds
  {
    SlotsOf();
    DealtIs(w, "1m");
    var s := Dealt(w);
    assert s.seats[0].hand[13] == "1m";
    HeldIsCopies(w.hands[1], 0);
    assert Tally(w.hands[1])[0] == 2;
    PonHandNoWin(1, w.hands[1], s.seats[1].melds, false, s.dora);
    PonTaken(s, "1m", turn);
  }

  // At the next loop head it is to act and can no longer win, with whatever tile it draws.
  lemma PonThenLocked(w: Wall, turn: Turn, t: Tile)
    requires Deals(w, "1m") && IsOdd(w.hands[0]) && IsPonHand(w.hands[1]) && turn == Turn(Human(OP_DISCARD, "1m"), map[1 := Pon]) && Countable(t)
    ensures var s, r := Dealt(w), TakeTurn(Dealt(w), 0, true, {1}, turn);
      && r.Next? && r.seat == 1 && GoesOn(r.state)
      && Head(r.state, 1, false) in Heads(s, 0, true, {1}, [turn])
      && Judge(1, r.state.seats[1].hand + [t], r.state.seats[1].melds, true, r.state.dora).NoWin?
  {
    PonClaimed(w, turn);
    var s, r := Dealt(w), TakeTurn(Dealt(w), 0, true, {1}, turn);
    SecondHead(s, {1}, turn);
    PonSeatsLocked(s, 0, {1}, [turn], Head(r.state, 1, false), 1, t, true);
  }

  lemma SecondHead(s: State, bots: set<nat>, turn: Turn)
    requires s.Valid() && 0 < |s.seats| && GoesOn(s) && TakeTurn(s, 0, true, bots, turn).Next?
    ensures var r := TakeTurn(s, 0, true, bots, turn); Head(r.state, r.seat, false) in Heads(s, 0, true, bots, [turn])
  {
    var r := TakeTurn(s, 0, true, bots, turn);
    var later := Heads(r.state, r.seat, false, bots, [turn][1..]);
    assert later[0] == Head(r.state, r.seat, false);
    assert Heads(s, 0, true, bots, [turn]) == [Head(s, 0, true)] + later;
    assert Heads(s, 0, true, bots, [turn])[1] == later[0];
  }

  // ---------- The extra tile ----------

  // A new round that is ended at once is one copy short of its extra tile.
  lemma ExtraLost(n: nat, initialScore: int, kyoku: nat, w: Wall, ops: seq<Op>)
    requires 0 < n <= |w.hands| && ops == [Op.End(-1)]
    ensures AllLegal(n, ops)
    ensures var s := NewState(n, initialScore, kyoku, w); Copies(RunOps(s, ops), w.extra) == Copies(s, w.extra) - 1
  {
    var s := NewState(n, initialScore, kyoku, w);
    assert LosesExtra(s, ops);
    RunKeepsTiles(s, ops, w.extra);
  }
}
