/** Who enters a friend room, and when nobody does any more (internal/room/service.go). */
module RoomRules {
  import opened Rooms

  predicate StartedIn(l: Lobby, id: Id)
  {
    id in l.rooms && l.rooms[id].started
  }

  predicate HumanIn(l: Lobby, id: Id, a: Id)
  {
    id in l.rooms && HumanAmong(l.rooms[id].players, a)
  }

  predicate HumanAmong(players: seq<Player>, a: Id)
  {
    exists k :: 0 <= k < |players| && IsHuman(players[k], a)
  }

  predicate IsHuman(p: Player, a: Id)
  {
    p.id == a && !p.robot
  }

  predicate HasSpace(r: RoomValue)
  {
    |r.players| < r.capacity
  }

  predicate RobotIn(players: seq<Player>, a: Id)
  {
    exists k :: 0 <= k < |players| && players[k].id == a && players[k].robot
  }

  // ---------- One step ----------

  // Which accounts sit in a room after a step: its creator, a joiner of a room that takes players,
  // and those that were there and do not leave.
  lemma SitsExactly(l: Lobby, op: Op, id: Id, a: Id)
    ensures HumanIn(Apply(l, op), id, a) <==>
      if op.Create? && l.nextId == id then a == op.owner
      else if op == Leave(id, a) then false
      else if op.Join? && op.room == id && op.account == a then
        HumanIn(l, id, a) || (id in l.rooms && !StartedIn(l, id) && HasSpace(l.rooms[id]) && !RobotIn(l.rooms[id].players, a))
      else HumanIn(l, id, a)
  {
    match op
    case Create(owner, _, _) =>
      if l.nextId == id {
        assert Apply(l, op).rooms[id].players[0].id == owner;
      }
    case Join(room, b, profile) =>
      if room == id && id in l.rooms {
        AddedLast(l.rooms[id].players, Human(b, profile), a);
      }
    case Leave(room, b) =>
      if room == id && id in l.rooms {
        OthersHumans(l.rooms[id].players, b, a);
      }
    case SetReady(room, b, ready) =>
      if room == id && id in l.rooms && Seated(l.rooms[id].players, b) {
        ReadyHumans(l.rooms[id].players, FirstSeat(l.rooms[id].players, b), ready, a);
      }
    case AddRobot(room) =>
      if room == id && id in l.rooms {
        AddedLast(l.rooms[id].players, Player(RobotFrom(id, l.rooms[id].players, 1), ROBOT, false, true), a);
      }
    case Start(room) =>
  }

  lemma AddedLast(players: seq<Player>, p: Player, a: Id)
    ensures HumanAmong(players + [p], a) <==> HumanAmong(players, a) || IsHuman(p, a)
  {
    var all := players + [p];
    assert all[|players|] == p && forall i | 0 <= i < |players| :: all[i] == players[i];
  }

  lemma {:induction false} OthersHumans(players: seq<Player>, b: Id, a: Id)
    ensures HumanAmong(Others(players, b), a) <==> a != b && HumanAmong(players, a)
  {
    if players != [] {
      var k := |players| - 1;
      OthersHumans(players[..k], b, a);
      AddedLast(players[..k], players[k], a);
      AddedLast(Others(players[..k], b), players[k], a);
      assert players == players[..k] + [players[k]];
      assert Others(players[..k], b) + [] == Others(players[..k], b);
    }
  }

  lemma ReadyHumans(players: seq<Player>, i: nat, ready: bool, a: Id)
    requires i < |players|
    ensures HumanAmong(players[i := players[i].(ready := ready)], a) <==> HumanAmong(players, a)
  {
    var players' := players[i := players[i].(ready := ready)];
    assert forall k | 0 <= k < |players| :: IsHuman(players'[k], a) <==> IsHuman(players[k], a);
  }

  // Start marks a room, a create puts a new one in its place, and nothing else touches the mark.
  lemma StartedExactly(l: Lobby, op: Op, id: Id)
    requires id in Apply(l, op).rooms
    ensures StartedIn(Apply(l, op), id) <==> !(op.Create? && l.nextId == id) && (StartedIn(l, id) || op == Start(id))
  {
  }

  // The answers to a join: which error, and nothing changed with it.
  lemma JoinAnswers(l: Lobby, room: Id, a: Id, profile: Profile)
    ensures var (l', s) := JoinStep(l, room, a, profile);
      && (s == Failed(NotFound) <==> room !in l.rooms)
      && (s == Failed(Started) <==> StartedIn(l, room))
      && (s == Failed(Full) <==>
          room in l.rooms && !StartedIn(l, room) && !HasSpace(l.rooms[room]) && !HumanIn(l, room, a) && !RobotIn(l.rooms[room].players, a))
      && (s != Done ==> l' == l)
  {
    if room in l.rooms && Seated(l.rooms[room].players, a) {
      var players := l.rooms[room].players;
      var k :| 0 <= k < |players| && players[k].id == a;
      assert IsHuman(players[k], a) || players[k].robot;
    }
  }

  // A join that seats an account puts exactly that player behind the others, and indexes it.
  lemma JoinAddsLast(l: Lobby, room: Id, a: Id, profile: Profile)
    requires room in l.rooms && !StartedIn(l, room) && HasSpace(l.rooms[room]) && !Seated(l.rooms[room].players, a)
    ensures var (l', s) := JoinStep(l, room, a, profile);
      && s == Done && room in l'.rooms && l'.nextId == l.nextId
      && l'.rooms[room].players == l.rooms[room].players + [Player(a, profile, false, false)]
      && l'.rooms[room] == l.rooms[room].(players := l'.rooms[room].players)
      && (forall id | id != room :: id in l'.rooms <==> id in l.rooms)
      && (forall id | id != room && id in l.rooms :: l'.rooms[id] == l.rooms[id])
      && l'.member == l.member[a := room]
  {
  }

  // The numbers for robots of a room, from a thousand times the room's.
  function RobotNumber(room: Id, k: nat): Id
  {
    (1000 * room + k) % U32
  }

  // A robot comes last, under the least number after a thousand times the room's that nobody has.
  lemma RobotAddsLast(l: Lobby, room: Id) returns (i: nat)
    requires room in l.rooms && HasSpace(l.rooms[room])
    ensures 1 <= i <= |l.rooms[room].players| + 1
    ensures var (l', s), players, id := AddRobotStep(l, room), l.rooms[room].players, RobotNumber(room, i);
      && s == Done && !Seated(players, id) && (forall k | 1 <= k < i :: Seated(players, RobotNumber(room, k)))
      && l'.member == l.member && l'.nextId == l.nextId
      && l'.rooms == l.rooms[room := l.rooms[room].(players := players + [Player(id, ROBOT, false, true)])]
  {
    i := LeastFree(room, l.rooms[room].players, 1);
    RobotIsFree(room, l.rooms[room].players, 1);
    forall k | 1 <= k <= i
      ensures Candidate(room, k) == RobotNumber(room, k)
    {
      WrappedSum(room * 1000, k);
    }
  }

  lemma WrappedSum(x: nat, k: nat)
    ensures (x % U32 + k) % U32 == (x + k) % U32
  {
    assert x + k == x % U32 + k + U32 * (x / U32);
  }

  lemma {:induction false} LeastFree(room: Id, players: seq<Player>, n: nat) returns (i: nat)
    requires |players| < U32 && 1 <= n <= |players| + 1 && forall k | 1 <= k < n :: Seated(players, Candidate(room, k))
    ensures n <= i <= |players| + 1 && RobotFrom(room, players, n) == Candidate(room, i)
    ensures forall k | 1 <= k < i :: Seated(players, Candidate(room, k))
    decreases |players| + 1 - n
  {
    if Seated(players, Candidate(room, n)) {
      PigeonHole(room, players, n);
      i := LeastFree(room, players, n + 1);
    } else {
      i := n;
    }
  }

  // A leave takes the player out from between its neighbours; the last one to go takes the room along.
  lemma LeaveTakesOut(l: Lobby, room: Id, before: seq<Player>, p: Player, after: seq<Player>)
    requires room in l.rooms && l.rooms[room].players == before + [p] + after
    requires !Seated(before, p.id) && !Seated(after, p.id)
    ensures var (l', s) := LeaveStep(l, room, p.id);
      && s == Done && (room in l'.rooms <==> before + after != [])
      && (room in l'.rooms ==> l'.rooms[room] == l.rooms[room].(players := before + after))
      && (forall id | id != room :: id in l'.rooms <==> id in l.rooms)
      && (forall id | id != room && id in l.rooms :: l'.rooms[id] == l.rooms[id])
      && l'.member == l.member - {p.id} && l'.nextId == l.nextId
  {
    OthersJoined(before + [p], after, p.id);
    OthersJoined(before, [p], p.id);
    OthersAbsent(before, p.id);
    OthersAbsent(after, p.id);
    assert Others([p], p.id) == Others([p][..0], p.id);
  }

  lemma {:induction false} OthersJoined(xs: seq<Player>, ys: seq<Player>, a: Id)
    ensures Others(xs + ys, a) == Others(xs, a) + Others(ys, a)
    decreases |ys|
  {
    if ys == [] {
      assert xs + ys == xs;
    } else {
      var k := |ys| - 1;
      assert (xs + ys)[..|xs + ys| - 1] == xs + ys[..k];
      OthersJoined(xs, ys[..k], a);
    }
  }

  lemma {:induction false} OthersAbsent(players: seq<Player>, a: Id)
    requires !Seated(players, a)
    ensures Others(players, a) == players
  {
    if players != [] {
      var k := |players| - 1;
      assert players == players[..k] + [players[k]];
      SeatedSnoc(players[..k], players[k]);
      OthersAbsent(players[..k], a);
    }
  }

  // Readiness: the flag of that player and nothing else in the service.
  lemma ReadySets(l: Lobby, room: Id, before: seq<Player>, p: Player, after: seq<Player>, ready: bool)
    requires room in l.rooms && l.rooms[room].players == before + [p] + after && !Seated(before, p.id)
    ensures SetReadyStep(l, room, p.id, ready)
      == (l.(rooms := l.rooms[room := l.rooms[room].(players := before + [Player(p.id, p.profile, ready, p.robot)] + after)]), Done)
  {
    var players := l.rooms[room].players;
    assert players[|before|] == p;
    assert forall k | 0 <= k < |before| :: players[k] == before[k] && players[k].id != p.id;
    var i := FirstSeat(players, p.id);
    assert i == |before|;
    assert players[i := p.(ready := ready)] == before + [Player(p.id, p.profile, ready, p.robot)] + after;
  }

  // The errors of the other operations: a missing room, a full one, an account that is not there.
  lemma OtherAnswers(l: Lobby, room: Id, a: Id, ready: bool)
    ensures LeaveStep(l, room, a).1 == StartStep(l, room).1 == if room in l.rooms then Done else Failed(NotFound)
    ensures SetReadyStep(l, room, a, ready).1 == (if room in l.rooms && Seated(l.rooms[room].players, a) then Done else Failed(NotFound))
    ensures AddRobotStep(l, room).1
      == (if room !in l.rooms then Failed(NotFound) else if HasSpace(l.rooms[room]) then Done else Failed(Full))
    ensures !LeaveStep(l, room, a).1.Done? ==> LeaveStep(l, room, a).0 == StartStep(l, room).0 == l
    ensures !SetReadyStep(l, room, a, ready).1.Done? ==> SetReadyStep(l, room, a, ready).0 == l
    ensures !AddRobotStep(l, room).1.Done? ==> AddRobotStep(l, room).0 == l
  {
  }

  // ---------- Whole runs ----------

  // Some create takes the number of the room.
  predicate Renumbered(l: Lobby, ops: seq<Op>, id: Id)
    decreases |ops|
  {
    ops != [] && ((ops[0].Create? && l.nextId == id) || Renumbered(Apply(l, ops[0]), ops[1..], id))
  }

  // No room under that number takes players: started, or gone.
  predicate Shut(l: Lobby, id: Id)
  {
    id in l.rooms ==> l.rooms[id].started
  }

  // Once a room is started it stays started until it is discarded, and no human enters it.
  lemma {:induction false} StartedStays(l: Lobby, ops: seq<Op>, id: Id)
    requires Shut(l, id) && !Renumbered(l, ops, id)
    ensures Shut(Run(l, ops), id)
    ensures forall a | HumanIn(Run(l, ops), id, a) :: HumanIn(l, id, a)
    decreases |ops|
  {
    if ops != [] {
      ShutStep(l, ops[0], id);
      StartedStays(Apply(l, ops[0]), ops[1..], id);
      forall a | HumanIn(Apply(l, ops[0]), id, a)
        ensures HumanIn(l, id, a)
      {
        SitsExactly(l, ops[0], id, a);
      }
    }
  }

  lemma ShutStep(l: Lobby, op: Op, id: Id)
    requires Shut(l, id) && !(op.Create? && l.nextId == id)
    ensures Shut(Apply(l, op), id)
  {
    if id in Apply(l, op).rooms {
      StartedExactly(l, op, id);
    }
  }

  // Every join after a start fails and changes nothing, whatever happened in between: with Started
  // as long as the room is there, with NotFound after that.
  lemma NoJoinAfterStart(l: Lobby, ops: seq<Op>, id: Id, a: Id, profile: Profile)
    requires StartedIn(l, id) && !Renumbered(l, ops, id)
    ensures var l' := Run(l, ops);
      JoinStep(l', id, a, profile) == (l', Failed(if id in l'.rooms then Started else NotFound))
  {
    StartedStays(l, ops, id);
    JoinAnswers(Run(l, ops), id, a, profile);
  }

  // Numbers are handed out upwards, so no number comes again before the counter wraps.
  lemma {:induction false} NotRenumbered(l: Lobby, ops: seq<Op>, id: Id)
    requires id < l.nextId && l.nextId + Creates(ops) < U32
    ensures !Renumbered(l, ops, id)
    decreases |ops|
  {
    if ops != [] {
      NotRenumbered(Apply(l, ops[0]), ops[1..], id);
    }
  }

  // From the empty service: after any operations, a start of a room that is there, and any more
  // operations, a join of that room fails.
  lemma StartedForGood(before: seq<Op>, id: Id, after: seq<Op>, a: Id, profile: Profile)
    requires RealCapacities(before) && Creates(before) + Creates(after) < U32 - 1
    requires id in Run(EMPTY_LOBBY, before).rooms
    ensures var l := Run(Apply(Run(EMPTY_LOBBY, before), Start(id)), after);
      JoinStep(l, id, a, profile) == (l, Failed(if id in l.rooms then Started else NotFound))
  {
    var l := Run(EMPTY_LOBBY, before);
    NumberedRun(EMPTY_LOBBY, before);
    NotRenumbered(Apply(l, Start(id)), after, id);
    NoJoinAfterStart(Apply(l, Start(id)), after, id, a, profile);
  }

  lemma {:induction false} NumberedRun(l: Lobby, ops: seq<Op>)
    requires LobbyOk(l) && Numbered(l) && RealCapacities(ops) && l.nextId + Creates(ops) < U32
    ensures Numbered(Run(l, ops)) && Run(l, ops).nextId == l.nextId + Creates(ops)
    decreases |ops|
  {
    if ops != [] {
      StepKeeps(l, ops[0]);
      NumberedRun(Apply(l, ops[0]), ops[1..]);
    }
  }

  // ---------- Inputs ----------

  lemma StartedRefuses(p: Profile, ops: seq<Op>)
    requires ops == [Create(1, 4, p), Start(1)]
    ensures var l := Run(EMPTY_LOBBY, ops); JoinStep(l, 1, 2, p) == (l, Failed(Started))
  {
    assert Run(EMPTY_LOBBY, ops) == Run(Apply(EMPTY_LOBBY, ops[0]), ops[1..]);
    StartedForGood(ops[..1], 1, [], 2, p);
    assert ops[..1] == [ops[0]];
    assert Run(EMPTY_LOBBY, ops[..1]) == Run(Apply(EMPTY_LOBBY, ops[0]), ops[..1][1..]) == Apply(EMPTY_LOBBY, ops[0]);
    var l := Apply(EMPTY_LOBBY, ops[0]);
    assert Run(l, ops[1..]) == Run(Apply(l, ops[1..][0]), ops[1..][1..]);
  }

  // A new room waits for its owner, who is alone in it and not ready.
  lemma NewRoom(p: Profile)
    ensures var l := CreateStep(EMPTY_LOBBY, 7, 4, p);
      l.rooms == map[1 := RoomValue(7, [Player(7, p, false, false)], 4, false)] && l.member == map[7 := 1] && l.nextId == 2
  {
  }

  // A room for two is full with two.
  lemma TwoIsFull(p: Profile)
    ensures var l := JoinStep(CreateStep(EMPTY_LOBBY, 1, 2, p), 1, 2, p); l.1 == Done && JoinStep(l.0, 1, 3, p) == (l.0, Failed(Full))
  {
    var l := CreateStep(EMPTY_LOBBY, 1, 2, p);
    JoinAddsLast(l, 1, 2, p);
    var l' := JoinStep(l, 1, 2, p).0;
    assert l'.rooms[1].players == [Human(1, p), Human(2, p)];
    JoinAnswers(l', 1, 3, p);
  }
}
