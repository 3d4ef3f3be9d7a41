/** The room service: room objects updated in place behind two maps (internal/room/service.go). */
module RoomService {
  import opened Rooms

  class Room {
    const id: Id
    const owner: Id
    const capacity: Id
    var players: seq<Player>
    var started: bool

    constructor (id: Id, owner: Id, capacity: Id, profile: Profile)
      ensures this.id == id
      ensures Value() == RoomValue(owner, [Human(owner, profile)], capacity, false)
    {
      this.id, this.owner, this.capacity := id, owner, capacity;
      players := [Player(owner, profile, false, false)];
      started := false;
    }

    ghost function Value(): RoomValue
      reads this
    {
      RoomValue(owner, players, capacity, started)
    }
  }

  class Service {
    var rooms: map<Id, Room>
    var member: map<Id, Id>
    var nextId: Id

    // Every room sits under its own id, so no two entries share an object; and no slice of
    // players outgrows its room.
    ghost predicate Valid()
      reads this, rooms.Values
    {
      forall id | id in rooms ::
        && rooms[id].id == id
        && (|rooms[id].players| <= rooms[id].capacity || |rooms[id].players| == 1)
    }

    ghost function State(): Lobby
      reads this, rooms.Values
    {
      Lobby(map id | id in rooms :: rooms[id].Value(), member, nextId)
    }

    // Updating one room object shows up under its id and nowhere else.
    twostate lemma OnlyOneRoom(room: Id)
      requires old(Valid()) && room in old(rooms) && rooms == old(rooms)
      requires forall id | id in rooms && id != room :: unchanged(rooms[id])
      ensures State().rooms == old(State()).rooms[room := rooms[room].Value()]
    {
    }

    constructor ()
      ensures Valid() && State() == EMPTY_LOBBY
    {
      rooms, member, nextId := map[], map[], 1;
    }

    method RoomOf(a: Id) returns (id: Id)
      ensures id == if a in member then member[a] else 0
    {
      if a in member { return member[a]; }
      return 0;
    }

    method Create(owner: Id, capacity: Id, profile: Profile) returns (r: Room)
      requires Valid()
      modifies this
      ensures Valid() && fresh(r)
      ensures State() == CreateStep(old(State()), owner, capacity, profile)
      ensures old(nextId) in rooms && rooms[old(nextId)] == r
    {
      r := new Room(nextId, owner, capacity, profile);
      nextId := (nextId + 1) % U32;
      rooms := rooms[r.id := r];
      member := member[owner := r.id];
    }

    method IsSeated(r: Room, a: Id) returns (found: bool)
      ensures found <==> Seated(r.players, a)
    {
      for i := 0 to |r.players|
        invariant forall k | 0 <= k < i :: r.players[k].id != a
      {
        if r.players[i].id == a { return true; }
      }
      return false;
    }

    method Join(room: Id, a: Id, profile: Profile) returns (status: Status)
      requires Valid()
      modifies this, rooms.Values
      ensures Valid() && rooms == old(rooms)
      ensures (State(), status) == JoinStep(old(State()), room, a, profile)
    {
      if room !in rooms { return Failed(NotFound); }
      var r := rooms[room];
      if r.started { return Failed(Started); }
      var seated := IsSeated(r, a);
      if seated { return Done; }
      if |r.players| >= r.capacity { return Failed(Full); }
      r.players := r.players + [Player(a, profile, false, false)];
      member := member[a := r.id];
      OnlyOneRoom(room);
      return Done;
    }

    method Filter(players: seq<Player>, a: Id) returns (out: seq<Player>)
      ensures out == Others(players, a) && |out| <= |players|
    {
      out := [];
      for i := 0 to |players|
        invariant out == Others(players[..i], a) && |out| <= i
      {
        assert players[..i + 1][..i] == players[..i];
        if players[i].id != a { out := out + [players[i]]; }
      }
      assert players[..|players|] == players;
    }

    method Leave(room: Id, a: Id) returns (status: Status)
      requires Valid()
      modifies this, rooms.Values
      ensures Valid()
      ensures (State(), status) == LeaveStep(old(State()), room, a)
    {
      if room !in rooms { return Failed(NotFound); }
      var r := rooms[room];
      var out := Filter(r.players, a);
      r.players := out;
      member := member - {a};
      OnlyOneRoom(room);
      if |r.players| == 0 {
        rooms := rooms - {room};
        assert State().rooms == old(State()).rooms - {room};
      }
      return Done;
    }

    method SetReady(room: Id, a: Id, ready: bool) returns (status: Status)
      requires Valid()
      modifies this, rooms.Values
      ensures Valid() && rooms == old(rooms)
      ensures (State(), status) == SetReadyStep(old(State()), room, a, ready)
    {
      if room !in rooms { return Failed(NotFound); }
      var r := rooms[room];
      for i := 0 to |r.players|
        invariant forall k | 0 <= k < i :: r.players[k].id != a
      {
        if r.players[i].id == a {
          r.players := r.players[i := r.players[i].(ready := ready)];
          OnlyOneRoom(room);
          return Done;
        }
      }
      return Failed(NotFound);
    }

    // Tries room*1000+1, +2, ... until an id is free; at most one try more than there are players.
    method RobotId(r: Room) returns (candidate: Id)
      requires |r.players| < U32
      ensures candidate == RobotFrom(r.id, r.players, 1)
      ensures !Seated(r.players, candidate)
    {
      RobotIsFree(r.id, r.players, 1);
      var base := r.id * 1000 % U32;
      var i := 1;
      while true
        invariant 1 <= i <= |r.players| + 1
        invariant forall k | 1 <= k < i :: Seated(r.players, Candidate(r.id, k))
        invariant RobotFrom(r.id, r.players, i) == RobotFrom(r.id, r.players, 1)
        decreases |r.players| + 1 - i
      {
        candidate := (base + i) % U32;
        var found := IsSeated(r, candidate);
        if !found { return; }
        PigeonHole(r.id, r.players, i);
        i := i + 1;
      }
    }

    method AddRobot(room: Id) returns (status: Status)
      requires Valid()
      modifies this, rooms.Values
      ensures Valid() && rooms == old(rooms)
      ensures (State(), status) == AddRobotStep(old(State()), room)
    {
      if room !in rooms { return Failed(NotFound); }
      var r := rooms[room];
      if |r.players| >= r.capacity { return Failed(Full); }
      var id := RobotId(r);
      r.players := r.players + [Player(id, ROBOT, false, true)];
      OnlyOneRoom(room);
      return Done;
    }

    method Start(room: Id) returns (status: Status)
      requires Valid()
      modifies this, rooms.Values
      ensures Valid() && rooms == old(rooms)
      ensures (State(), status) == StartStep(old(State()), room)
    {
      if room !in rooms { return Failed(NotFound); }
      rooms[room].started := true;
      OnlyOneRoom(room);
      return Done;
    }
  }
}
