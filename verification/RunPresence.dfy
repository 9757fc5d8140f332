/** Who is looking at a run: nested maps run -> socket -> participant, refined to a plain
    set of (run, socket, participant) facts. */
module RunPresence {
  import opened Domain

  datatype Participant = Participant(userId: Id, name: string)

  datatype Fact = Fact(runId: Id, socketId: Id, who: Participant)

  type Rooms = map<Id, map<Id, Participant>>

  ghost function FactsOf(rooms: Rooms): set<Fact> {
    set r, s | r in rooms && s in rooms[r] :: Fact(r, s, rooms[r][s])
  }

  /** The facts without those of one socket, in one room or in all. */
  ghost function WithoutIn(facts: set<Fact>, runId: Id, socketId: Id): set<Fact> {
    set f | f in facts && !(f.runId == runId && f.socketId == socketId)
  }

  ghost function Without(facts: set<Fact>, socketId: Id): set<Fact> {
    set f | f in facts && f.socketId != socketId
  }

  lemma InFacts(rooms: Rooms, f: Fact)
    ensures f in FactsOf(rooms) <==>
              f.runId in rooms && f.socketId in rooms[f.runId] && rooms[f.runId][f.socketId] == f.who
  {
    if f.runId in rooms && f.socketId in rooms[f.runId] && rooms[f.runId][f.socketId] == f.who {
      assert f == Fact(f.runId, f.socketId, rooms[f.runId][f.socketId]);
    }
  }

  function RoomOf(rooms: Rooms, runId: Id): map<Id, Participant> {
    if runId in rooms then rooms[runId] else map[]
  }

  lemma JoinAddsFact(rooms: Rooms, runId: Id, socketId: Id, p: Participant)
    ensures FactsOf(rooms[runId := RoomOf(rooms, runId)[socketId := p]])
            == WithoutIn(FactsOf(rooms), runId, socketId) + {Fact(runId, socketId, p)}
  {
    var rooms' := rooms[runId := RoomOf(rooms, runId)[socketId := p]];
    forall f
      ensures f in FactsOf(rooms') <==> f in WithoutIn(FactsOf(rooms), runId, socketId) + {Fact(runId, socketId, p)}
    {
      InFacts(rooms, f);
      InFacts(rooms', f);
      hide FactsOf;
    }
  }

  lemma LeaveDropsFacts(rooms: Rooms, rooms': Rooms, runId: Id, socketId: Id)
    requires forall r :: r != runId ==> (r in rooms <==> r in rooms') && (r in rooms ==> rooms'[r] == rooms[r])
    requires RoomOf(rooms', runId) == RoomOf(rooms, runId) - {socketId}
    ensures FactsOf(rooms') == WithoutIn(FactsOf(rooms), runId, socketId)
  {
    forall f ensures f in FactsOf(rooms') <==> f in WithoutIn(FactsOf(rooms), runId, socketId) {
      InFacts(rooms, f);
      InFacts(rooms', f);
      hide FactsOf;
      if f.runId == runId {
        assert f.socketId in RoomOf(rooms', runId) <==> f.socketId in RoomOf(rooms, runId) && f.socketId != socketId;
      }
    }
  }

  lemma LeaveAllDropsFacts(rooms: Rooms, rooms': Rooms, socketId: Id)
    requires forall r :: RoomOf(rooms', r) == RoomOf(rooms, r) - {socketId}
    ensures FactsOf(rooms') == Without(FactsOf(rooms), socketId)
  {
    forall f ensures f in FactsOf(rooms') <==> f in Without(FactsOf(rooms), socketId) {
      InFacts(rooms, f);
      InFacts(rooms', f);
      hide FactsOf;
      assert RoomOf(rooms', f.runId) == RoomOf(rooms, f.runId) - {socketId};
      assert f.socketId in RoomOf(rooms', f.runId) <==> f.socketId in RoomOf(rooms, f.runId) && f.socketId != socketId;
    }
  }

  /** Rooms in todo are still as before, the others have lost the socket. */
  ghost predicate HalfLeft(rooms: Rooms, before: Rooms, todo: set<Id>, socketId: Id) {
    && (forall r :: r in todo ==> r in rooms)
    && (forall r :: RoomOf(rooms, r) == if r in todo then RoomOf(before, r) else RoomOf(before, r) - {socketId})
    && NoEmptyRoom(rooms)
  }

  lemma LeaveOneRoom(rooms: Rooms, before: Rooms, todo: set<Id>, runId: Id, socketId: Id)
    requires HalfLeft(rooms, before, todo, socketId) && runId in todo
    ensures runId in rooms
    ensures var room := rooms[runId] - {socketId};
            HalfLeft(if room == map[] then rooms - {runId} else rooms[runId := room], before, todo - {runId}, socketId)
    ensures rooms[runId] == RoomOf(before, runId)
  {
  }

  lemma HalfLeftEnds(rooms: Rooms, before: Rooms, socketId: Id)
    ensures HalfLeft(rooms, before, {}, socketId) ==>
              NoEmptyRoom(rooms) && forall r :: RoomOf(rooms, r) == RoomOf(before, r) - {socketId}
    ensures NoEmptyRoom(before) ==> HalfLeft(before, before, before.Keys, socketId)
  {
  }

  lemma RoomHolds(rooms: Rooms, r: Id, socketId: Id)
    ensures r in rooms && socketId in rooms[r] <==>
              exists f :: f in FactsOf(rooms) && f.runId == r && f.socketId == socketId
  {
    if r in rooms && socketId in rooms[r] { InFacts(rooms, Fact(r, socketId, rooms[r][socketId])); }
  }

  ghost predicate NoEmptyRoom(rooms: Rooms) {
    forall r :: r in rooms ==> rooms[r] != map[]
  }

  /** The nested maps are determined by their facts, so nothing is lost in the view. */
  lemma FactsDetermineRooms(a: Rooms, b: Rooms)
    requires NoEmptyRoom(a) && NoEmptyRoom(b) && FactsOf(a) == FactsOf(b)
    ensures a == b
  {
    forall r ensures r in a <==> r in b
             ensures r in a ==> a[r] == b[r] {
      if r in a { SameRoom(a, b, r); }
      if r in b { SameRoom(b, a, r); }
    }
  }

  lemma SameRoom(a: Rooms, b: Rooms, r: Id)
    requires NoEmptyRoom(a) && FactsOf(a) == FactsOf(b) && r in a
    ensures r in b && forall s :: s in a[r] ==> s in b[r] && b[r][s] == a[r][s]
    ensures r in b ==> forall s :: s in b[r] ==> s in a[r]
  {
    forall s | s in a[r] ensures r in b && s in b[r] && b[r][s] == a[r][s] {
      assert Fact(r, s, a[r][s]) in FactsOf(b);
    }
    assert a[r].Keys != {};
    var s0 :| s0 in a[r].Keys;
    forall s | s in b[r] ensures s in a[r] {
      assert Fact(r, s, b[r][s]) in FactsOf(a);
    }
  }

  class RunPresenceService {
    var rooms: Rooms

    ghost function Facts(): set<Fact>
      reads this
    {
      FactsOf(rooms)
    }

    ghost predicate Valid()
      reads this
    {
      NoEmptyRoom(rooms)
    }

    constructor ()
      ensures Valid() && Facts() == {}
    {
      rooms := map[];
    }

    /** A socket is in a room at most once, with the participant it joined as last. */
    method Join(runId: Id, socketId: Id, participant: Participant)
      requires Valid()
      modifies this
      ensures Valid()
      ensures Facts() == WithoutIn(old(Facts()), runId, socketId) + {Fact(runId, socketId, participant)}
    {
      hide FactsOf, WithoutIn;
      JoinAddsFact(rooms, runId, socketId, participant);
      var room: map<Id, Participant> := map[];
      if runId in rooms { room := rooms[runId]; }
      assert socketId in room[socketId := participant];
      rooms := rooms[runId := room[socketId := participant]];
    }

    method Leave(runId: Id, socketId: Id)
      requires Valid()
      modifies this
      ensures Valid()
      ensures Facts() == WithoutIn(old(Facts()), runId, socketId)
    {
      hide FactsOf, WithoutIn;
      if runId !in rooms {
        LeaveDropsFacts(rooms, rooms, runId, socketId);
        return;
      }
      var room := rooms[runId] - {socketId};
      ghost var before := rooms;
      rooms := if room == map[] then rooms - {runId} else rooms[runId := room];
      LeaveDropsFacts(before, rooms, runId, socketId);
    }

    /** Takes the socket out of every room and reports each room that held it, once. */
    method LeaveAll(socketId: Id) returns (affected: seq<Id>)
      requires Valid()
      modifies this
      ensures Valid()
      ensures Facts() == Without(old(Facts()), socketId)
      ensures forall r :: r in affected <==> exists f :: f in old(Facts()) && f.runId == r && f.socketId == socketId
      ensures forall i, j :: 0 <= i < j < |affected| ==> affected[i] != affected[j]
    {
      hide FactsOf, Without, HalfLeft, NoEmptyRoom;
      affected := [];
      var todo := rooms.Keys;
      ghost var before := rooms;
      HalfLeftEnds(rooms, before, socketId);
      while todo != {}
        invariant todo <= before.Keys && HalfLeft(rooms, before, todo, socketId)
        invariant forall r :: r in affected <==> r !in todo && socketId in RoomOf(before, r)
        invariant forall i, j :: 0 <= i < j < |affected| ==> affected[i] != affected[j]
      {
        var runId :| runId in todo;
        LeaveOneRoom(rooms, before, todo, runId, socketId);
        todo := todo - {runId};
        var room := rooms[runId] - {socketId};
        if socketId in rooms[runId] { affected := affected + [runId]; }
        rooms := if room == map[] then rooms - {runId} else rooms[runId := room];
      }
      HalfLeftEnds(rooms, before, socketId);
      LeaveAllDropsFacts(before, rooms, socketId);
      forall r ensures r in affected <==> exists f :: f in FactsOf(before) && f.runId == r && f.socketId == socketId {
        RoomHolds(before, r, socketId);
      }
    }

    /** The values of a map by user, in any order. */
    method ValuesOf(byUser: map<Id, Participant>) returns (participants: seq<Participant>)
      requires forall u :: u in byUser ==> byUser[u].userId == u
      ensures forall p :: p in participants ==> p.userId in byUser && byUser[p.userId] == p
      ensures forall u :: u in byUser ==> byUser[u] in participants
      ensures forall i, j :: 0 <= i < j < |participants| ==> participants[i].userId != participants[j].userId
    {
      participants := [];
      var users := byUser.Keys;
      while users != {}
        invariant users <= byUser.Keys
        invariant forall p :: p in participants ==> p.userId in byUser && p.userId !in users && byUser[p.userId] == p
        invariant forall u :: u in byUser && u !in users ==> byUser[u] in participants
        invariant forall i, j :: 0 <= i < j < |participants| ==> participants[i].userId != participants[j].userId
      {
        var u :| u in users;
        users := users - {u};
        participants := participants + [byUser[u]];
      }
    }

    /** One entry per user with a socket in the room, however many sockets there are. */
    method List(runId: Id) returns (participants: seq<Participant>)
      ensures forall i, j :: 0 <= i < j < |participants| ==> participants[i].userId != participants[j].userId
      ensures forall p :: p in participants ==> exists f :: f in Facts() && f.runId == runId && f.who == p
      ensures forall f :: f in Facts() && f.runId == runId ==> exists p :: p in participants && p.userId == f.who.userId
    {
      if runId !in rooms {
        return [];
      }
      var room := rooms[runId];
      var byUser: map<Id, Participant> := map[];
      var todo := room.Keys;
      while todo != {}
        invariant todo <= room.Keys
        invariant forall u :: u in byUser ==> byUser[u].userId == u && exists s :: s in room && room[s] == byUser[u]
        invariant forall s :: s in room && s !in todo ==> room[s].userId in byUser
      {
        var s :| s in todo;
        todo := todo - {s};
        byUser := byUser[room[s].userId := room[s]];
      }
      participants := ValuesOf(byUser);
      forall p | p in participants ensures exists f :: f in Facts() && f.runId == runId && f.who == p {
        var s :| s in room && room[s] == byUser[p.userId];
        assert Fact(runId, s, room[s]) in Facts();
      }
    }
  }
}
