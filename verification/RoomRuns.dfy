/** What the index of friend rooms knows over whole runs (internal/room/service.go). */
module RoomRuns {
  import opened Rooms

  // ---------- Who has an entry ----------

  // Every human in every room has an entry. Robots never do.
  ghost predicate AllIndexed(l: Lobby)
  {
    forall id, p | id in l.rooms && p in l.rooms[id].players && !p.robot :: p.id in l.member
  }

  // A leave that clears the entry of an account that also sits in another room.
  ghost predicate Forgets(l: Lobby, op: Op)
  {
    && op.Leave? && op.room in l.rooms
    && exists id, p :: id in l.rooms && id != op.room && p in l.rooms[id].players && !p.robot && p.id == op.account
  }

  lemma {:induction false} OthersFrom(players: seq<Player>, a: Id)
    ensures forall p | p in Others(players, a) :: p in players && p.id != a
  {
    if players != [] {
      OthersFrom(players[..|players| - 1], a);
    }
  }

  lemma LeaveIndexed(l: Lobby, room: Id, a: Id)
    requires AllIndexed(l)
    ensures AllIndexed(LeaveStep(l, room, a).0) <==> !Forgets(l, Leave(room, a))
  {
    if room in l.rooms {
      OthersFrom(l.rooms[room].players, a);
      var l' := LeaveStep(l, room, a).0;
      if Forgets(l, Leave(room, a)) {
        var id, p :| id in l.rooms && id != room && p in l.rooms[id].players && !p.robot && p.id == a;
        assert id in l'.rooms && p in l'.rooms[id].players && p.id !in l'.member;
      }
    }
  }

  lemma ReadyIndexed(l: Lobby, room: Id, a: Id, ready: bool)
    requires AllIndexed(l)
    ensures AllIndexed(SetReadyStep(l, room, a, ready).0)
  {
    var l' := SetReadyStep(l, room, a, ready).0;
    if room in l.rooms && Seated(l.rooms[room].players, a) {
      var i := FirstSeat(l.rooms[room].players, a);
      forall p | p in l'.rooms[room].players && !p.robot
        ensures p.id in l'.member
      {
        var n :| 0 <= n < |l'.rooms[room].players| && l'.rooms[room].players[n] == p;
        assert l.rooms[room].players[n] in l.rooms[room].players;
      }
    }
  }

  // A step keeps every human indexed exactly when it is not such a leave.
  lemma StepIndexed(l: Lobby, op: Op)
    requires AllIndexed(l)
    ensures AllIndexed(Apply(l, op)) <==> !Forgets(l, op)
  {
    match op
    case Leave(room, a) => LeaveIndexed(l, room, a);
    case SetReady(room, a, ready) => ReadyIndexed(l, room, a, ready);
    case Create(_, _, _) =>
    case Join(_, _, _) =>
    case AddRobot(_) =>
    case Start(_) =>
  }

  ghost predicate AlwaysIndexed(l: Lobby, ops: seq<Op>)
    decreases |ops|
  {
    AllIndexed(l) && (ops != [] ==> AlwaysIndexed(Apply(l, ops[0]), ops[1..]))
  }

  ghost predicate ForgetsSomewhere(l: Lobby, ops: seq<Op>)
    decreases |ops|
  {
    ops != [] && (Forgets(l, ops[0]) || ForgetsSomewhere(Apply(l, ops[0]), ops[1..]))
  }

  // Over a whole run every human in a room has an entry, at every moment, exactly when no leave
  // cleared the entry of an account that sat elsewhere.
  lemma {:induction false} IndexedExactly(l: Lobby, ops: seq<Op>)
    requires AllIndexed(l)
    ensures AlwaysIndexed(l, ops) <==> !ForgetsSomewhere(l, ops)
    decreases |ops|
  {
    if ops != [] {
      StepIndexed(l, ops[0]);
      if AllIndexed(Apply(l, ops[0])) {
        IndexedExactly(Apply(l, ops[0]), ops[1..]);
      }
    }
  }

  lemma IndexedFromEmpty(ops: seq<Op>)
    ensures AlwaysIndexed(EMPTY_LOBBY, ops) <==> !ForgetsSomewhere(EMPTY_LOBBY, ops)
  {
    IndexedExactly(EMPTY_LOBBY, ops);
  }

  // ---------- The counter comes round ----------

  function Creations(n: nat, p: Profile): seq<Op>
  {
    seq(n, _ => Create(6, 4, p))
  }

  // Rooms numbered from m on, by account 6, leave room 1 and account 5 alone until number 1 is next.
  lemma {:induction false} AfterCreations(l: Lobby, m: nat, n: nat, p: Profile)
    requires l.nextId == m % U32 && 2 <= m && m + n <= U32 + 1 && 1 in l.rooms && 5 in l.member
    ensures var r := Run(l, Creations(n, p));
      r.nextId == (m + n) % U32 && 1 in r.rooms && r.rooms[1] == l.rooms[1] && 5 in r.member && r.member[5] == l.member[5]
    decreases n
  {
    if n > 0 {
      assert Creations(n, p)[1..] == Creations(n - 1, p);
      var next := CreateStep(l, 6, 4, p);
      NextNumber(m);
      AfterCreations(next, m + 1, n - 1, p);
    }
  }

  lemma NextNumber(m: nat)
    requires 2 <= m <= U32
    ensures (m % U32 + 1) % U32 == (m + 1) % U32 && m % U32 != 1
  {
  }

  lemma {:induction false} RunJoined(l: Lobby, a: seq<Op>, b: seq<Op>)
    ensures Run(l, a + b) == Run(Run(l, a), b)
    decreases |a|
  {
    if a == [] {
      assert a + b == b;
    } else {
      assert (a + b)[0] == a[0] && (a + b)[1..] == a[1..] + b;
      RunJoined(Apply(l, a[0]), a[1..], b);
    }
  }

  // Account 5 opens a room and account 6 opens one for every number there is: the last of them
  // takes the number of account 5's room, whose entry now names a room that it does not sit in.
  lemma RoomReplaced(p: Profile, ops: seq<Op>)
    requires ops == [Create(5, 4, p)] + Creations(U32, p)
    ensures var l := Run(EMPTY_LOBBY, ops);
      && 5 in l.member && l.member[5] == 1 && 1 in l.rooms && !Seated(l.rooms[1].players, 5)
      && !LobbyOk(l)
  {
    var first := CreateStep(EMPTY_LOBBY, 5, 4, p);
    var n := U32 - 1;
    assert ops == [Create(5, 4, p)] + Creations(n, p) + Creations(1, p);
    assert ops[0] == Create(5, 4, p) && ops[1..] == Creations(n, p) + Creations(1, p);
    RunJoined(first, Creations(n, p), Creations(1, p));
    AfterCreations(first, 2, n, p);
    var l := Run(first, Creations(n, p));
    assert l.nextId == 1;
    assert Creations(1, p) == [Create(6, 4, p)] && [Create(6, 4, p)][1..] == [];
    assert Run(l, [Create(6, 4, p)]) == CreateStep(l, 6, 4, p);
  }
}
