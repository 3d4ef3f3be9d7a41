/** What each engine step changes, and who declared what over a run (internal/game/engine/round.go, internal/game/loop.go). */
module StepEffects {
  import opened Basics
  import opened Tiles
  import opened Table
  import opened Round
  import opened Ledger
  import opened TurnSpec

  // ---------- One step ----------

  function FollowedBy(i: nat, n: nat): nat
  {
    if i + 1 == n then 0 else i + 1
  }

  // The first copy of the tile is gone and the rest stands as it did.
  predicate CutOut(hand: seq<Tile>, t: Tile, rest: seq<Tile>)
  {
    exists n :: 0 <= n < |hand| && hand[n] == t && t !in hand[..n] && rest == hand[..n] + hand[n + 1..]
  }

  // Seat i threw the tile, and everything else at the seats is as it was.
  predicate Threw(before: seq<Seat>, after: seq<Seat>, i: nat, t: Tile)
    requires i < |before| == |after|
  {
    && CutOut(before[i].hand, t, after[i].hand)
    && after[i].discards == before[i].discards + [t] && after[i].melds == before[i].melds
    && forall k | 0 <= k < |before| && k != i :: after[k] == before[k]
  }

  lemma CutsFirst(hand: seq<Tile>, t: Tile)
    requires t in hand
    ensures CutOut(hand, t, RemoveCopies(hand, t, 1))
  {
    var n := FirstAt(hand, t);
    CutIsRemoval(hand, t, n);
  }

  lemma {:induction false} FirstAt(hand: seq<Tile>, t: Tile) returns (n: nat)
    requires t in hand
    ensures n < |hand| && hand[n] == t && t !in hand[..n]
  {
    n := 0;
    if hand[0] != t {
      n := FirstAt(hand[1..], t);
      n := n + 1;
      assert hand[..n] == [hand[0]] + hand[1..][..n - 1];
    }
  }

  lemma NextAround(i: nat, n: nat)
    requires i < n
    ensures (i + 1) % n == FollowedBy(i, n)
  {
    if i + 1 < n {
      SmallRemainder(i + 1, n);
    }
  }

  lemma SmallRemainder(x: nat, n: nat)
    requires x < n
    ensures x % n == x
  {
  }

  // The dealer gets the extra tile and begins.
  lemma StartEffect(s: State)
    requires s.Valid()
    ensures var (s', status) := StartStep(s);
      if s.phase.Dealing? then
        && status == Done && s'.phase.Playing? && s'.current == s.dealer
        && s'.seats[s.dealer].hand == s.seats[s.dealer].hand + [s.extra]
        && s' == s.(phase := Playing, current := s.dealer, seats := s.seats[s.dealer := s'.seats[s.dealer]])
        && s'.seats[s.dealer] == s.seats[s.dealer].(hand := s'.seats[s.dealer].hand)
      else status == Failed(NotTurn) && s' == s
  {
  }

  // The first live tile goes behind the current hand.
  lemma DrawEffect(s: State)
    requires s.Valid()
    ensures var (s', status) := DrawStep(s);
      if s.wall == [] then status == Failed(NoTiles) && s' == s
      else
        && status == Done && [s.wall[0]] + s'.wall == s.wall
        && s'.seats[s.current].hand == s.seats[s.current].hand + [s.wall[0]]
        && s' == s.(wall := s'.wall, seats := s.seats[s.current := s'.seats[s.current]])
        && s'.seats[s.current] == s.seats[s.current].(hand := s'.seats[s.current].hand)
  {
  }

  // A discard: the current seat throws the tile and the turn passes on, nothing else changes.
  lemma DiscardEffect(s: State, t: Tile)
    requires s.Valid()
    ensures var (s', status) := DiscardStep(s, t);
      if s.phase.Playing? && t in s.seats[s.current].hand then
        && status == Done && |s'.seats| == |s.seats| && Threw(s.seats, s'.seats, s.current, t)
        && s'.seats[s.current].riichi == s.seats[s.current].riichi
        && s' == s.(seats := s'.seats, current := FollowedBy(s.current, |s.seats|))
      else status == Failed(if s.phase.Playing? then InvalidDiscard else NotTurn) && s' == s
  {
    NextAround(s.current, |s.seats|);
    if t in s.seats[s.current].hand {
      CutsFirst(s.seats[s.current].hand, t);
    }
  }

  // No meld at the table, and no discard by the seat.
  predicate Undisturbed(s: State, i: nat)
    requires i < |s.seats|
  {
    s.seats[i].discards == [] && forall k | 0 <= k < |s.seats| :: s.seats[k].melds == []
  }

  // A riichi: a discard by a closed hand that costs it 1000 points, banks one stick and marks the
  // seat, doubly when nothing had disturbed it.
  lemma RiichiEffect(s: State, t: Tile)
    requires s.Valid()
    ensures var (s', status), i := RiichiStep(s, t), s.current;
      if s.seats[i].melds == [] && t in s.seats[i].hand then
        && status == Done && |s'.seats| == |s.seats| && Threw(s.seats, s'.seats, i, t) && s'.seats[i].riichi
        && s'.sticks == s.sticks + 1 && s'.scores == s.scores[i := s.scores[i] - 1000]
        && s'.doubleRiichi == (if Undisturbed(s, i) then s.doubleRiichi[i := true] else s.doubleRiichi)
        && s' == s.(seats := s'.seats, current := FollowedBy(i, |s.seats|),
                    sticks := s'.sticks, scores := s'.scores, doubleRiichi := s'.doubleRiichi)
      else status == Failed(if s.seats[i].melds != [] then InvalidRiichi else InvalidDiscard) && s' == s
  {
    NextAround(s.current, |s.seats|);
    if t in s.seats[s.current].hand {
      CutsFirst(s.seats[s.current].hand, t);
    }
  }

  // The hand without its first n copies of the tile, the rest in order.
  predicate CutTimes(hand: seq<Tile>, t: Tile, n: nat, rest: seq<Tile>)
    decreases n
  {
    if n == 0 then rest == hand
    else exists k :: 0 <= k < |hand| && hand[k] == t && t !in hand[..k] && CutTimes(hand[..k] + hand[k + 1..], t, n - 1, rest)
  }

  lemma {:induction false} CutsTimes(hand: seq<Tile>, t: Tile, n: nat, rest: seq<Tile>)
    requires CopiesIn(hand, t) >= n && rest == RemoveCopies(hand, t, n)
    ensures CutTimes(hand, t, n, rest)
    decreases n
  {
    if n == 0 {
      CutsNone(hand, t);
    } else {
      var k, cut := CutOnce(hand, t, n - 1);
      CutsTimes(cut, t, n - 1, rest);
      CutFirstThen(hand, t, k, cut, n, rest);
    }
  }

  lemma CutOnce(hand: seq<Tile>, t: Tile, n: nat) returns (k: nat, cut: seq<Tile>)
    requires CopiesIn(hand, t) > n
    ensures k < |hand| && hand[k] == t && t !in hand[..k] && cut == hand[..k] + hand[k + 1..]
    ensures CopiesIn(cut, t) >= n && RemoveCopies(cut, t, n) == RemoveCopies(hand, t, n + 1)
  {
    assert t in multiset(hand);
    k := FirstAt(hand, t);
    cut := hand[..k] + hand[k + 1..];
    CutIsRemoval(hand, t, k);
    RemoveCopiesCount(hand, t, 1, t);
    CutsOneMore(hand, t, n);
  }

  lemma CutFirstThen(hand: seq<Tile>, t: Tile, k: nat, cut: seq<Tile>, n: nat, rest: seq<Tile>)
    requires k < |hand| && hand[k] == t && t !in hand[..k] && cut == hand[..k] + hand[k + 1..]
    requires n > 0 && CutTimes(cut, t, n - 1, rest)
    ensures CutTimes(hand, t, n, rest)
  {
  }

  lemma {:induction false} CutsNone(hand: seq<Tile>, t: Tile)
    ensures RemoveCopies(hand, t, 0) == hand
  {
    if hand != [] {
      CutsNone(hand[1..], t);
    }
  }

  lemma {:induction false} CutsOneMore(hand: seq<Tile>, t: Tile, n: nat)
    ensures RemoveCopies(RemoveCopies(hand, t, 1), t, n) == RemoveCopies(hand, t, n + 1)
  {
    if hand != [] {
      if hand[0] == t {
        CutsNone(hand[1..], t);
      } else {
        CutsOneMore(hand[1..], t, n);
      }
    }
  }

  // A call: the claimer gives up two copies, three for an open quad, shows the meld and takes the turn.
  lemma CallEffect(s: State, i: nat, m: Meld)
    requires s.Valid() && i < |s.seats|
    ensures var (s', status), n := CallStep(s, i, m), if m.kind == Daiminkan then 3 else 2;
      if CopiesIn(s.seats[i].hand, m.tile) >= n then
        && status == Done && |s'.seats| == |s.seats| && s'.current == i
        && CutTimes(s.seats[i].hand, m.tile, n, s'.seats[i].hand)
        && s'.seats[i] == s.seats[i].(hand := s'.seats[i].hand, melds := s.seats[i].melds + [m])
        && s' == s.(current := i, seats := s.seats[i := s'.seats[i]])
      else status == Failed(InvalidDiscard) && s' == s
  {
    var n := if m.kind == Daiminkan then 3 else 2;
    if CopiesIn(s.seats[i].hand, m.tile) >= n {
      CutsTimes(s.seats[i].hand, m.tile, n, RemoveCopies(s.seats[i].hand, m.tile, n));
    }
  }

  // A claimed meld is three of the tile, four of it for an open quad.
  lemma ClaimTiles(p: Seat, kind: MeldType, t: Tile)
    ensures var n := if kind == Daiminkan then 4 else 3;
      |MeldOf(kind, t).tiles| == n && (forall x | x in MeldOf(kind, t).tiles :: x == t) && MeldOf(kind, t).tile == t && MeldOf(kind, t).kind == kind
    ensures forall m | m in CandidatesOf(p, t) :: m == MeldOf(m.kind, t)
  {
  }

  // ---------- Dora indicators ----------

  // How many of the first n places are there.
  function Shown(length: nat, n: nat): (shown: nat)
    ensures shown > 0 ==> 4 + 2 * (shown - 1) < length
  {
    if n == 0 then 0 else if 4 + 2 * (n - 1) < length then n else Shown(length, n - 1)
  }

  // The places four, six, eight and so on of the dead wall, as many as asked for and as it has.
  lemma {:induction false} IndicatorsAt(dead: seq<Tile>, n: nat)
    requires forall k | 0 <= k < |dead| :: dead[k] != ""
    ensures |Indicators(dead, n)| == Shown(|dead|, n)
    ensures forall k | 0 <= k < Shown(|dead|, n) :: Indicators(dead, n)[k] == dead[4 + 2 * k]
  {
    if n > 0 {
      IndicatorsAt(dead, n - 1);
    }
  }

  // A new round shows five indicators of its fourteen tiles set aside.
  lemma NewRoundShows(n: nat, initialScore: int, kyoku: nat, w: Wall)
    requires 0 < n <= |w.hands| && |w.dead| == 14 && forall k | 0 <= k < 14 :: w.dead[k] != ""
    ensures NewState(n, initialScore, kyoku, w).dora == [w.dead[4], w.dead[6], w.dead[8], w.dead[10], w.dead[12]]
  {
    IndicatorsAt(w.dead, MAX_DORA);
  }

  // A new round: everybody has what was dealt and nothing else, the dealer is first, nothing is at stake.
  lemma NewRoundDealt(n: nat, initialScore: int, kyoku: nat, w: Wall, i: nat)
    requires 0 < n <= |w.hands| && i < n
    ensures var s := NewState(n, initialScore, kyoku, w);
      && s.Valid() && |s.seats| == n && s.seats[i] == Seat(w.hands[i], [], false, [])
      && s.wall == w.stack && s.extra == w.extra && s.phase.Dealing? && s.winner == -1 && s.sticks == 0 && !s.doubleRiichi[i]
      && s.current == s.dealer == kyoku % n
      && s.scores[i] == if initialScore == 0 then 25000 else initialScore
  {
  }

  // ---------- Riichi over runs ----------

  // The step is an accepted riichi of seat i.
  predicate Declares(s: State, op: Op, i: nat)
    requires s.Valid()
  {
    op.Riichi? && s.current == i && s.seats[i].melds == [] && op.tile in s.seats[i].hand
  }

  // Somewhere along the run seat i declares riichi; undisturbed, where that is asked.
  ghost predicate Declared(s: State, ops: seq<Op>, i: nat, undisturbed: bool)
    requires s.Valid() && AllLegal(|s.seats|, ops)
  {
    exists k :: 0 <= k < |ops| && DeclaresAt(s, ops, k, i, undisturbed)
  }

  predicate DeclaresAt(s: State, ops: seq<Op>, k: nat, i: nat, undisturbed: bool)
    requires s.Valid() && AllLegal(|s.seats|, ops) && k < |ops|
  {
    var before := RunOps(s, ops[..k]);
    Declares(before, ops[k], i) && (undisturbed ==> Undisturbed(before, i))
  }

  lemma DeclaredLater(s: State, ops: seq<Op>, i: nat, undisturbed: bool)
    requires s.Valid() && AllLegal(|s.seats|, ops) && ops != []
    ensures Declared(s, ops, i, undisturbed) <==>
      (Declares(s, ops[0], i) && (undisturbed ==> Undisturbed(s, i))) || Declared(Apply(s, ops[0]), ops[1..], i, undisturbed)
  {
    assert ops[..0] == [];
    assert DeclaresAt(s, ops, 0, i, undisturbed) <==> Declares(s, ops[0], i) && (undisturbed ==> Undisturbed(s, i));
    forall k | 1 <= k < |ops|
      ensures DeclaresAt(s, ops, k, i, undisturbed) <==> DeclaresAt(Apply(s, ops[0]), ops[1..], k - 1, i, undisturbed)
    {
      assert ops[..k][1..] == ops[1..][..k - 1];
    }
    if k :| 0 <= k < |ops[1..]| && DeclaresAt(Apply(s, ops[0]), ops[1..], k, i, undisturbed) {
      assert DeclaresAt(s, ops, k + 1, i, undisturbed);
    }
  }

  lemma StepRiichi(s: State, op: Op, i: nat)
    requires s.Valid() && Legal(|s.seats|, op) && i < |s.seats|
    ensures Apply(s, op).seats[i].riichi <==> s.seats[i].riichi || Declares(s, op, i)
    ensures Apply(s, op).doubleRiichi[i] <==> s.doubleRiichi[i] || (Declares(s, op, i) && Undisturbed(s, i))
    ensures Apply(s, op).sticks == s.sticks + if Declares(s, op, s.current) then 1 else 0
  {
    if op.Riichi? {
      RiichiEffect(s, op.tile);
    }
  }

  // After any steps a seat is in riichi exactly when it was or declared it on the way, and in
  // double riichi exactly when it was or declared it before any meld and any discard of its own.
  lemma {:induction false} RiichiExactly(s: State, ops: seq<Op>, i: nat)
    requires s.Valid() && AllLegal(|s.seats|, ops) && i < |s.seats|
    ensures RunOps(s, ops).seats[i].riichi <==> s.seats[i].riichi || Declared(s, ops, i, false)
    ensures RunOps(s, ops).doubleRiichi[i] <==> s.doubleRiichi[i] || Declared(s, ops, i, true)
    decreases |ops|
  {
    if ops != [] {
      DeclaredLater(s, ops, i, false);
      DeclaredLater(s, ops, i, true);
      StepRiichi(s, ops[0], i);
      RiichiExactly(Apply(s, ops[0]), ops[1..], i);
    }
  }

  function Declarations(s: State, ops: seq<Op>): nat
    requires s.Valid() && AllLegal(|s.seats|, ops)
    decreases |ops|
  {
    if ops == [] then 0
    else (if Declares(s, ops[0], s.current) then 1 else 0) + Declarations(Apply(s, ops[0]), ops[1..])
  }

  // One stick for every declaration.
  lemma {:induction false} SticksExactly(s: State, ops: seq<Op>)
    requires s.Valid() && AllLegal(|s.seats|, ops)
    ensures RunOps(s, ops).sticks == s.sticks + Declarations(s, ops)
    decreases |ops|
  {
    if ops != [] {
      StepRiichi(s, ops[0], 0);
      SticksExactly(Apply(s, ops[0]), ops[1..]);
    }
  }

  // ---------- Plays ----------

  // What a bot chooses is what a human could have sent; only a bot with no tiles may have nothing to
  // throw, and a human may leave.
  lemma BotIsHuman(hand: seq<Tile>, t: Tile)
    ensures Decide(hand, Bot(Some(SelfTsumo), t)) == Decide(hand, Human(13, ""))
    ensures Decide(hand, Bot(Some(SelfRiichi), t)) == Decide(hand, Human(1, t))
    ensures forall self | self in {None, Some(SelfDiscard), Some(SelfAnkan), Some(SelfKakan)} ::
      if hand == [] && t == "" then Decide(hand, Bot(self, t)).1 == Some(EmptyHand)
      else Decide(hand, Bot(self, t)) == Decide(hand, Human(0, t))
    ensures forall op :: Decide(hand, Human(op, t)) == (Decision(op, t), None)
    ensures Decide(hand, Cancelled).1 == Some(NoDecision)
  {
  }

  // Any operation but riichi and tsumo is a discard, whatever else the client may mean by it.
  lemma OtherwiseDiscard(s: State, seat: nat, op: nat, t: Tile)
    requires s.Valid() && seat < |s.seats| && op != 1 && op != 13
    ensures Played(s, seat, Decision(op, t)) == Played(s, seat, Decision(0, t))
  {
  }

  // A play that goes on has thrown the named tile, or the first of the hand when a tsumo failed;
  // a riichi is paid for, and nothing else changes.
  lemma PlayedEffect(s: State, seat: nat, d: Decision)
    requires s.Valid() && seat < |s.seats| && Played(s, seat, d).Next?
    ensures var r, i, hand := Played(s, seat, d), s.current, s.seats[seat].hand;
      var t := if d.op != 13 then d.tile else if hand == [] then "" else hand[0];
      && r.seat == FollowedBy(seat, |s.seats|) && r.state.current == FollowedBy(i, |s.seats|)
      && |r.state.seats| == |s.seats| && Threw(s.seats, r.state.seats, i, t)
      && r.state.seats[i].riichi == (s.seats[i].riichi || d.op == 1)
      && r.state.sticks == s.sticks + (if d.op == 1 then 1 else 0)
      && r.state.scores == s.scores[i := s.scores[i] - if d.op == 1 then 1000 else 0]
      && r.state == s.(seats := r.state.seats, current := r.state.current, sticks := r.state.sticks,
                       scores := r.state.scores, doubleRiichi := r.state.doubleRiichi)
  {
    NextAround(seat, |s.seats|);
    if d.op == 1 {
      RiichiEffect(s, d.tile);
    } else {
      DiscardEffect(s, if d.op == 13 then FirstTile(s.seats[seat].hand) else d.tile);
      assert s.scores[s.current := s.scores[s.current]] == s.scores;
    }
  }
}
