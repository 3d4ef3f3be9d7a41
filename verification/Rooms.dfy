/** Friend rooms as values: what each operation of the service does (internal/room/service.go). */
module Rooms {
  // Room and account ids, and all arithmetic on them, are unsigned 32-bit.
  const U32: nat := 0x1_0000_0000

  type Id = n: nat | n < U32

  datatype Profile = Profile(nickname: string, avatar: Id)

  datatype Player = Player(id: Id, profile: Profile, ready: bool, robot: bool)

  datatype RoomValue = RoomValue(owner: Id, players: seq<Player>, capacity: Id, started: bool)

  datatype Error = NotFound | Full | Started

  datatype Status = Done | Failed(error: Error)

  // The room table, the index from account to room, and the next room id.
  datatype Lobby = Lobby(rooms: map<Id, RoomValue>, member: map<Id, Id>, nextId: Id)

  const EMPTY_LOBBY := Lobby(map[], map[], 1)

  const ROBOT := Profile("Robot", 400101)

  predicate Seated(players: seq<Player>, a: Id)
  {
    exists i :: 0 <= i < |players| && players[i].id == a
  }

  function Human(a: Id, profile: Profile): Player
  {
    Player(a, profile, false, false)
  }

  function CreateStep(l: Lobby, owner: Id, capacity: Id, profile: Profile): Lobby
  {
    Lobby(
      l.rooms[l.nextId := RoomValue(owner, [Human(owner, profile)], capacity, false)],
      l.member[owner := l.nextId],
      (l.nextId + 1) % U32)
  }

  function Put(l: Lobby, room: Id, players: seq<Player>): Lobby
    requires room in l.rooms
  {
    l.(rooms := l.rooms[room := l.rooms[room].(players := players)])
  }

  function JoinStep(l: Lobby, room: Id, a: Id, profile: Profile): (Lobby, Status)
  {
    if room !in l.rooms then (l, Failed(NotFound))
    else
      var r := l.rooms[room];
      if r.started then (l, Failed(Started))
      else if Seated(r.players, a) then (l, Done)
      else if |r.players| >= r.capacity then (l, Failed(Full))
      else (Put(l, room, r.players + [Human(a, profile)]).(member := l.member[a := room]), Done)
  }

  function Others(players: seq<Player>, a: Id): seq<Player>
  {
    if players == [] then []
    else Others(players[..|players| - 1], a) + if players[|players| - 1].id != a then [players[|players| - 1]] else []
  }

  function LeaveStep(l: Lobby, room: Id, a: Id): (Lobby, Status)
  {
    if room !in l.rooms then (l, Failed(NotFound))
    else
      var left := Others(l.rooms[room].players, a);
      ((if left == [] then l.(rooms := l.rooms - {room}) else Put(l, room, left)).(member := l.member - {a}), Done)
  }

  function SetReadyStep(l: Lobby, room: Id, a: Id, ready: bool): (Lobby, Status)
  {
    if room !in l.rooms || !Seated(l.rooms[room].players, a) then (l, Failed(NotFound))
    else
      var players := l.rooms[room].players;
      var i := FirstSeat(players, a);
      (Put(l, room, players[i := players[i].(ready := ready)]), Done)
  }

  function FirstSeat(players: seq<Player>, a: Id): (i: nat)
    requires Seated(players, a)
    ensures i < |players| && players[i].id == a && forall k | 0 <= k < i :: players[k].id != a
  {
    if players[0].id == a then 0
    else
      assert exists k :: 0 <= k < |players[1..]| && players[1..][k].id == a by {
        var k :| 0 <= k < |players| && players[k].id == a;
        assert players[1..][k - 1].id == a;
      }
      FirstSeat(players[1..], a) + 1
  }

  // The i-th id tried for a robot of the room.
  function Candidate(room: Id, i: nat): Id
  {
    (room * 1000 % U32 + i) % U32
  }

  // The first candidate nobody in the room has.
  function RobotFrom(room: Id, players: seq<Player>, i: nat): Id
    decreases |players| + 1 - i
  {
    if i > |players| || !Seated(players, Candidate(room, i)) then Candidate(room, i)
    else RobotFrom(room, players, i + 1)
  }

  function AddRobotStep(l: Lobby, room: Id): (Lobby, Status)
  {
    if room !in l.rooms then (l, Failed(NotFound))
    else
      var r := l.rooms[room];
      if |r.players| >= r.capacity then (l, Failed(Full))
      else (Put(l, room, r.players + [Player(RobotFrom(room, r.players, 1), ROBOT, false, true)]), Done)
  }

  function StartStep(l: Lobby, room: Id): (Lobby, Status)
  {
    if room !in l.rooms then (l, Failed(NotFound))
    else (l.(rooms := l.rooms[room := l.rooms[room].(started := true)]), Done)
  }

  // ---------- Pigeonhole ----------

  function Ids(players: seq<Player>): set<Id>
  {
    set i | 0 <= i < |players| :: players[i].id
  }

  function Candidates(room: Id, n: nat): set<Id>
  {
    set i | 1 <= i <= n :: Candidate(room, i)
  }

  lemma {:induction false} IdsBound(players: seq<Player>)
    ensures |Ids(players)| <= |players|
  {
    if players != [] {
      var k := |players| - 1;
      IdsBound(players[..k]);
      assert Ids(players) == Ids(players[..k]) + {players[k].id} by {
        assert forall i | 0 <= i < k :: players[..k][i] == players[i];
      }
    }
  }

  lemma CandidatesDiffer(room: Id, i: nat, j: nat)
    requires 1 <= i < j <= U32
    ensures Candidate(room, i) != Candidate(room, j)
  {
    var base: nat := room * 1000 % U32;
    var x, y := (base + i) / U32, (base + j) / U32;
    assert base + i == x * U32 + (base + i) % U32;
    assert base + j == y * U32 + (base + j) % U32;
  }

  lemma {:induction false} CandidatesCount(room: Id, n: nat)
    requires n <= U32
    ensures |Candidates(room, n)| == n
  {
    if n > 0 {
      CandidatesCount(room, n - 1);
      forall i | 1 <= i <= n - 1
        ensures Candidate(room, i) != Candidate(room, n)
      {
        CandidatesDiffer(room, i, n);
      }
      assert Candidates(room, n) == Candidates(room, n - 1) + {Candidate(room, n)};
    }
  }

  // Among one candidate more than there are players, one is free.
  lemma PigeonHole(room: Id, players: seq<Player>, n: nat)
    requires n <= U32 && forall i | 1 <= i <= n :: Seated(players, Candidate(room, i))
    ensures n <= |players|
  {
    CandidatesCount(room, n);
    IdsBound(players);
    forall c | c in Candidates(room, n)
      ensures c in Ids(players)
    {
      var i :| 1 <= i <= n && c == Candidate(room, i);
      assert Seated(players, Candidate(room, i));
      var k :| 0 <= k < |players| && players[k].id == c;
    }
    SubsetCount(Candidates(room, n), Ids(players));
  }

  lemma {:induction false} SubsetCount(a: set<Id>, b: set<Id>)
    requires a <= b
    ensures |a| <= |b|
    decreases a
  {
    if a != {} {
      var x :| x in a;
      SubsetCount(a - {x}, b - {x});
    }
  }

  lemma {:induction false} RobotIsFree(room: Id, players: seq<Player>, i: nat)
    requires |players| < U32 && 1 <= i <= |players| + 1
    requires forall k | 1 <= k < i :: Seated(players, Candidate(room, k))
    ensures !Seated(players, RobotFrom(room, players, i))
    decreases |players| + 1 - i
  {
    if Seated(players, Candidate(room, i)) {
      PigeonHole(room, players, i);
      RobotIsFree(room, players, i + 1);
    }
  }

  // ---------- The invariant ----------

  predicate DistinctIds(players: seq<Player>)
  {
    forall i, j | 0 <= i < j < |players| :: players[i].id != players[j].id
  }

  predicate RoomOk(r: RoomValue)
  {
    1 <= |r.players| <= r.capacity && DistinctIds(r.players)
  }

  // The index only points at rooms that exist and list the account.
  predicate IndexOk(l: Lobby)
  {
    forall a | a in l.member :: l.member[a] in l.rooms && Seated(l.rooms[l.member[a]].players, a)
  }

  predicate LobbyOk(l: Lobby)
  {
    IndexOk(l) && forall id | id in l.rooms :: RoomOk(l.rooms[id])
  }

  datatype Op =
    | Create(owner: Id, capacity: Id, profile: Profile)
    | Join(room: Id, account: Id, profile: Profile)
    | Leave(room: Id, account: Id)
    | SetReady(room: Id, account: Id, ready: bool)
    | AddRobot(room: Id)
    | Start(room: Id)

  function Apply(l: Lobby, op: Op): Lobby
  {
    match op
    case Create(owner, capacity, profile) => CreateStep(l, owner, capacity, profile)
    case Join(room, a, profile) => JoinStep(l, room, a, profile).0
    case Leave(room, a) => LeaveStep(l, room, a).0
    case SetReady(room, a, ready) => SetReadyStep(l, room, a, ready).0
    case AddRobot(room) => AddRobotStep(l, room).0
    case Start(room) => StartStep(l, room).0
  }

  lemma {:induction false} OthersAre(players: seq<Player>, a: Id)
    ensures forall x :: Seated(Others(players, a), x) <==> x != a && Seated(players, x)
    ensures |Others(players, a)| <= |players|
    ensures DistinctIds(players) ==> DistinctIds(Others(players, a))
  {
    if players != [] {
      var k := |players| - 1;
      OthersAre(players[..k], a);
      assert players == players[..k] + [players[k]];
      SeatedSnoc(players[..k], players[k]);
      if players[k].id != a {
        SeatedSnoc(Others(players[..k], a), players[k]);
        if DistinctIds(players) {
          assert DistinctIds(players[..k]) && !Seated(players[..k], players[k].id);
        }
      } else {
        assert Others(players, a) == Others(players[..k], a);
      }
    }
  }

  lemma SeatedSnoc(players: seq<Player>, p: Player)
    ensures forall x :: Seated(players + [p], x) <==> Seated(players, x) || x == p.id
    ensures DistinctIds(players + [p]) <==> DistinctIds(players) && !Seated(players, p.id)
  {
    var all := players + [p];
    assert all[|players|] == p && forall i | 0 <= i < |players| :: all[i] == players[i];
  }

  lemma CreateKeeps(l: Lobby, owner: Id, capacity: Id, profile: Profile)
    requires LobbyOk(l) && capacity >= 1
    ensures LobbyOk(CreateStep(l, owner, capacity, profile)) <==>
      (l.nextId in l.rooms ==> forall a | a in l.member && l.member[a] == l.nextId :: a == owner)
  {
    var l' := CreateStep(l, owner, capacity, profile);
    assert l'.rooms[l.nextId].players[0].id == owner;
    assert forall x :: Seated(l'.rooms[l.nextId].players, x) <==> x == owner;
    forall a | a in l.member && a != owner
      ensures l'.member[a] == l.member[a]
    {
    }
  }

  lemma JoinKeeps(l: Lobby, room: Id, a: Id, profile: Profile)
    requires LobbyOk(l)
    ensures LobbyOk(JoinStep(l, room, a, profile).0)
  {
    if room in l.rooms {
      SeatedSnoc(l.rooms[room].players, Human(a, profile));
    }
  }

  lemma LeaveKeeps(l: Lobby, room: Id, a: Id)
    requires LobbyOk(l)
    ensures LobbyOk(LeaveStep(l, room, a).0)
  {
    if room in l.rooms {
      OthersAre(l.rooms[room].players, a);
    }
  }

  lemma SetReadyKeeps(l: Lobby, room: Id, a: Id, ready: bool)
    requires LobbyOk(l)
    ensures LobbyOk(SetReadyStep(l, room, a, ready).0)
  {
    if room in l.rooms && Seated(l.rooms[room].players, a) {
      var players := l.rooms[room].players;
      var i := FirstSeat(players, a);
      var players' := players[i := players[i].(ready := ready)];
      assert forall k | 0 <= k < |players| :: players'[k].id == players[k].id;
      forall x | Seated(players, x)
        ensures Seated(players', x)
      {
        var k :| 0 <= k < |players| && players[k].id == x;
        assert players'[k].id == x;
      }
    }
  }

  lemma AddRobotKeeps(l: Lobby, room: Id)
    requires LobbyOk(l)
    ensures LobbyOk(AddRobotStep(l, room).0)
  {
    if room in l.rooms && |l.rooms[room].players| < l.rooms[room].capacity {
      var players := l.rooms[room].players;
      RobotIsFree(room, players, 1);
      SeatedSnoc(players, Player(RobotFrom(room, players, 1), ROBOT, false, true));
    }
  }

  // Ids are handed out in order until the counter wraps.
  predicate Numbered(l: Lobby)
  {
    forall id | id in l.rooms :: id < l.nextId
  }

  function Creates(ops: seq<Op>): nat
  {
    if ops == [] then 0 else (if ops[0].Create? then 1 else 0) + Creates(ops[1..])
  }

  predicate RealCapacities(ops: seq<Op>)
  {
    forall k | 0 <= k < |ops| && ops[k].Create? :: ops[k].capacity >= 1
  }

  function Run(l: Lobby, ops: seq<Op>): Lobby
    decreases |ops|
  {
    if ops == [] then l else Run(Apply(l, ops[0]), ops[1..])
  }

  lemma StepKeeps(l: Lobby, op: Op)
    requires LobbyOk(l) && Numbered(l)
    requires op.Create? ==> op.capacity >= 1 && l.nextId + 1 < U32
    ensures LobbyOk(Apply(l, op)) && Numbered(Apply(l, op))
    ensures Apply(l, op).nextId == l.nextId + if op.Create? then 1 else 0
  {
    match op
    case Create(owner, capacity, profile) => CreateKeeps(l, owner, capacity, profile);
    case Join(room, a, profile) => JoinKeeps(l, room, a, profile);
    case Leave(room, a) => LeaveKeeps(l, room, a);
    case SetReady(room, a, ready) => SetReadyKeeps(l, room, a, ready);
    case AddRobot(room) => AddRobotKeeps(l, room);
    case Start(room) =>
  }

  // After any operations, until the room counter wraps: the index is right, ids in a room are
  // distinct, and every room holds between one player and its capacity.
  lemma {:induction false} RunKeeps(l: Lobby, ops: seq<Op>)
    requires LobbyOk(l) && Numbered(l) && RealCapacities(ops) && l.nextId + Creates(ops) < U32
    ensures LobbyOk(Run(l, ops))
    decreases |ops|
  {
    if ops != [] {
      StepKeeps(l, ops[0]);
      RunKeeps(Apply(l, ops[0]), ops[1..]);
    }
  }

  lemma EveryRunFromEmpty(ops: seq<Op>)
    requires RealCapacities(ops) && Creates(ops) < U32 - 1
    ensures LobbyOk(Run(EMPTY_LOBBY, ops))
  {
    RunKeeps(EMPTY_LOBBY, ops);
  }

  // RoomOf forgets too much: leaving a room clears the account's entry even when the account
  // sits in another room, and exactly then an account that sits somewhere has no entry.
  lemma LeaveForgets(l: Lobby, room: Id, a: Id)
    requires LobbyOk(l) && room in l.rooms
    ensures var l' := LeaveStep(l, room, a).0;
      && a !in l'.member
      && ((exists id :: id in l'.rooms && Seated(l'.rooms[id].players, a))
          <==> exists id :: id in l.rooms && id != room && Seated(l.rooms[id].players, a))
  {
    OthersAre(l.rooms[room].players, a);
    var l' := LeaveStep(l, room, a).0;
    if exists id :: id in l.rooms && id != room && Seated(l.rooms[id].players, a) {
      var id :| id in l.rooms && id != room && Seated(l.rooms[id].players, a);
      assert id in l'.rooms && l'.rooms[id] == l.rooms[id];
    }
  }

  // ---------- Where the index goes wrong ----------

  // Account 1 opens a room, joins account 2's and leaves its own: it sits in room 2 and the index
  // no longer knows.
  lemma SeatedWithoutEntry(p: Profile, ops: seq<Op>)
    requires ops == [Create(1, 4, p), Create(2, 4, p), Join(2, 1, p), Leave(1, 1)]
    ensures var l := Run(EMPTY_LOBBY, ops); 2 in l.rooms && Seated(l.rooms[2].players, 1) && 1 !in l.member
  {
    var a, b, c := ops[1..], ops[1..][1..], ops[1..][1..][1..];
    var l1 := Apply(EMPTY_LOBBY, ops[0]);
    var l2 := Apply(l1, a[0]);
    var l3 := Apply(l2, b[0]);
    var l4 := Apply(l3, c[0]);
    assert Run(EMPTY_LOBBY, ops) == Run(l1, a) == Run(l2, b) == Run(l3, c) == Run(l4, c[1..]) == l4;
    assert l2.rooms[2].players == [Human(2, p)];
    assert l3.rooms[2].players == [Human(2, p), Human(1, p)];
    assert l4.rooms[2].players[1].id == 1;
  }
}
