/**
 The signaling server's table of who is in which call (src/signaling/room.registry.ts). A
 JavaScript Map keeps its entries in order of first insertion, so both levels of the table are
 sequences of entries with distinct keys.
 */
module Registry {
  import opened Common

  datatype RoomMember = RoomMember(socketId: string, userId: string, joinedAt: int)
  datatype Room = Room(callId: string, members: seq<RoomMember>)
  datatype Departure = Departure(callId: string, member: RoomMember)

  type Rooms = seq<Room>

  /** Position of a socket among the members, or -1. */
  function Seat(members: seq<RoomMember>, socketId: string): (i: int)
    ensures -1 <= i < |members|
    ensures i >= 0 ==> members[i].socketId == socketId
    ensures i < 0 ==> forall k :: 0 <= k < |members| ==> members[k].socketId != socketId
  {
    if members == [] then -1
    else if members[0].socketId == socketId then 0
    else
      var i := Seat(members[1..], socketId);
      assert forall k :: 1 <= k < |members| ==> members[k] == members[1..][k - 1];
      if i < 0 then -1 else i + 1
  }

  /** Position of a call among the rooms, or -1. */
  function RoomIndex(rooms: Rooms, callId: string): (i: int)
    ensures -1 <= i < |rooms|
    ensures i >= 0 ==> rooms[i].callId == callId
    ensures i < 0 ==> forall k :: 0 <= k < |rooms| ==> rooms[k].callId != callId
  {
    if rooms == [] then -1
    else if rooms[0].callId == callId then 0
    else
      var i := RoomIndex(rooms[1..], callId);
      assert forall k :: 1 <= k < |rooms| ==> rooms[k] == rooms[1..][k - 1];
      if i < 0 then -1 else i + 1
  }

  function MembersOf(rooms: Rooms, callId: string): seq<RoomMember> {
    var i := RoomIndex(rooms, callId);
    if i < 0 then [] else rooms[i].members
  }

  function MemberOf(rooms: Rooms, callId: string, socketId: string): Option<RoomMember> {
    var members := MembersOf(rooms, callId);
    var i := Seat(members, socketId);
    if i < 0 then None else Some(members[i])
  }

  predicate IsParticipant(rooms: Rooms, callId: string, userId: string) {
    exists i :: 0 <= i < |MembersOf(rooms, callId)| && MembersOf(rooms, callId)[i].userId == userId
  }

  // ---- joining and leaving ----

  /** `room.set(socketId, member)`: in place for a known socket, at the end for a new one. */
  function Seated(members: seq<RoomMember>, m: RoomMember): seq<RoomMember> {
    var i := Seat(members, m.socketId);
    if i < 0 then members + [m] else members[i := m]
  }

  function Unseated(members: seq<RoomMember>, socketId: string): seq<RoomMember> {
    var i := Seat(members, socketId);
    if i < 0 then members else members[..i] + members[i + 1..]
  }

  function JoinRooms(rooms: Rooms, callId: string, m: RoomMember): Rooms {
    var i := RoomIndex(rooms, callId);
    if i < 0 then rooms + [Room(callId, [m])] else rooms[i := Room(callId, Seated(rooms[i].members, m))]
  }

  /** What is left of a room when a socket leaves it: nothing, if that empties it. */
  function RoomWithout(room: Room, socketId: string): Rooms {
    var i := Seat(room.members, socketId);
    if i < 0 then [room]
    else if |room.members| == 1 then []
    else [Room(room.callId, Unseated(room.members, socketId))]
  }

  function LeaveRooms(rooms: Rooms, socketId: string): Rooms {
    if rooms == [] then [] else RoomWithout(rooms[0], socketId) + LeaveRooms(rooms[1..], socketId)
  }

  function DepartureFrom(room: Room, socketId: string): seq<Departure> {
    var i := Seat(room.members, socketId);
    if i < 0 then [] else [Departure(room.callId, room.members[i])]
  }

  function Departures(rooms: Rooms, socketId: string): seq<Departure> {
    if rooms == [] then [] else DepartureFrom(rooms[0], socketId) + Departures(rooms[1..], socketId)
  }

  lemma Splice<T>(all: seq<T>, done: seq<T>, todo: seq<T>, left: seq<T>)
    requires all == done + todo && todo != []
    ensures all[|done|] == todo[0]
    ensures all[..|done|] + left + all[|done| + 1..] == done + left + todo[1..]
  {
  }

  lemma Associative<T>(a: seq<T>, b: seq<T>, c: seq<T>)
    ensures a + (b + c) == a + b + c
  {
  }

  lemma OneRoomOn(done: Rooms, todo: Rooms, out: seq<Departure>, s: string)
    requires todo != []
    ensures done + LeaveRooms(todo, s) == done + RoomWithout(todo[0], s) + LeaveRooms(todo[1..], s)
    ensures out + Departures(todo, s) == out + DepartureFrom(todo[0], s) + Departures(todo[1..], s)
  {
    Associative(done, RoomWithout(todo[0], s), LeaveRooms(todo[1..], s));
    Associative(out, DepartureFrom(todo[0], s), Departures(todo[1..], s));
  }

  class RoomRegistry {
    var rooms: Rooms

    constructor ()
      ensures rooms == []
    {
      rooms := [];
    }

    method Join(callId: string, socketId: string, userId: string, now: int) returns (member: RoomMember)
      modifies this
      ensures member == RoomMember(socketId, userId, now)
      ensures rooms == JoinRooms(old(rooms), callId, member)
    {
      member := RoomMember(socketId, userId, now);
      var i := RoomIndex(rooms, callId);
      if i < 0 {
        rooms := rooms + [Room(callId, [member])];
      } else {
        rooms := rooms[i := Room(callId, Seated(rooms[i].members, member))];
      }
    }

    /** Visits every room, deleting from the table while it goes over it. */
    method Leave(socketId: string) returns (out: seq<Departure>)
      modifies this
      ensures rooms == LeaveRooms(old(rooms), socketId)
      ensures out == Departures(old(rooms), socketId)
    {
      out := [];
      var i := 0;
      ghost var was, done, todo := rooms, [], rooms;
      while i < |rooms|
        invariant rooms == done + todo && i == |done|
        invariant LeaveRooms(was, socketId) == done + LeaveRooms(todo, socketId)
        invariant Departures(was, socketId) == out + Departures(todo, socketId)
        decreases |todo|
      {
        ghost var left := RoomWithout(todo[0], socketId);
        OneRoomOn(done, todo, out, socketId);
        Splice(rooms, done, todo, left);
        var gone, next := LeaveRoom(i, socketId);
        out := out + gone;
        i := next;
        done, todo := done + left, todo[1..];
      }
    }

    /** The loop body of `leave`: one room, which is dropped if that empties it. */
    method LeaveRoom(i: nat, socketId: string) returns (gone: seq<Departure>, next: nat)
      requires i < |rooms|
      modifies this
      ensures rooms == old(rooms)[..i] + RoomWithout(old(rooms)[i], socketId) + old(rooms)[i + 1..]
      ensures gone == DepartureFrom(old(rooms)[i], socketId)
      ensures next == i + |RoomWithout(old(rooms)[i], socketId)|
    {
      var room := rooms[i];
      var seat := Seat(room.members, socketId);
      if seat < 0 { return [], i + 1; }
      gone := [Departure(room.callId, room.members[seat])];
      if |room.members| == 1 {
        rooms := rooms[..i] + rooms[i + 1..];
        return gone, i;
      }
      rooms := rooms[i := Room(room.callId, room.members[..seat] + room.members[seat + 1..])];
      return gone, i + 1;
    }

    method Members(callId: string) returns (members: seq<RoomMember>)
      ensures members == MembersOf(rooms, callId)
    {
      var i := RoomIndex(rooms, callId);
      members := if i < 0 then [] else rooms[i].members;
    }

    method Member(callId: string, socketId: string) returns (member: Option<RoomMember>)
      ensures member == MemberOf(rooms, callId, socketId)
    {
      var i := RoomIndex(rooms, callId);
      if i < 0 { return None; }
      var members := rooms[i].members;
      var seat := Seat(members, socketId);
      return if seat < 0 then None else Some(members[seat]);
    }

    method HasMember(callId: string, userId: string) returns (found: bool)
      ensures found == IsParticipant(rooms, callId, userId)
    {
      var members := MembersOf(rooms, callId);
      for k := 0 to |members|
        invariant forall j :: 0 <= j < k ==> members[j].userId != userId
      {
        if members[k].userId == userId { return true; }
      }
      return false;
    }
  }

  // ---------------------------------------------------------------------------------------
  // The table as a relation between calls, sockets and users
  // ---------------------------------------------------------------------------------------

  predicate DistinctSockets(members: seq<RoomMember>) {
    forall i, j :: 0 <= i < j < |members| ==> members[i].socketId != members[j].socketId
  }

  /** Each call has one room, no room is empty, and each socket sits in a room at most once. */
  predicate Proper(rooms: Rooms) {
    && (forall i, j :: 0 <= i < j < |rooms| ==> rooms[i].callId != rooms[j].callId)
    && (forall i :: 0 <= i < |rooms| ==> rooms[i].members != [] && DistinctSockets(rooms[i].members))
  }

  /** Who is there, by socket. */
  function Roster(members: seq<RoomMember>): map<string, string> {
    if members == [] then map[] else Roster(members[1..])[members[0].socketId := members[0].userId]
  }

  function RosterOf(rooms: Rooms, callId: string): map<string, string> { Roster(MembersOf(rooms, callId)) }

  lemma {:induction false} RosterBySeat(members: seq<RoomMember>, s: string)
    ensures s in Roster(members) <==> Seat(members, s) >= 0
    ensures s in Roster(members) ==> Roster(members)[s] == members[Seat(members, s)].userId
  {
    if members == [] {
    } else {
      RosterBySeat(members[1..], s);
    }
  }

  lemma SeatIs(members: seq<RoomMember>, i: nat)
    requires DistinctSockets(members) && i < |members|
    ensures Seat(members, members[i].socketId) == i
  {
  }

  lemma SeatAfterUnseating(members: seq<RoomMember>, s: string, x: string)
    requires DistinctSockets(members) && Seat(members, s) >= 0
    ensures
      var i, k, after := Seat(members, s), Seat(members, x), Unseated(members, s);
      Seat(after, x) == if x == s then -1 else if k < i then k else k - 1
  {
    var i, k, after := Seat(members, s), Seat(members, x), Unseated(members, s);
    var j := Seat(after, x);
    if j >= 0 { SeatIs(members, if j < i then j else j + 1); }
    if k >= 0 && k != i {
      assert after[if k < i then k else k - 1] == members[k];
    }
  }

  lemma SeatAfterSeating(members: seq<RoomMember>, m: RoomMember, x: string)
    requires DistinctSockets(members)
    ensures
      var i, after := Seat(members, m.socketId), Seated(members, m);
      Seat(after, x) == if x == m.socketId && i < 0 then |members| else Seat(members, x)
  {
    var i, k, after := Seat(members, m.socketId), Seat(members, x), Seated(members, m);
    if k >= 0 { SeatIs(after, k); }
    else if x == m.socketId { SeatIs(after, |members|); }
  }

  lemma SeatedRosterAt(members: seq<RoomMember>, m: RoomMember, x: string)
    requires DistinctSockets(members)
    ensures x in Roster(Seated(members, m)) <==> x in Roster(members) || x == m.socketId
    ensures x in Roster(Seated(members, m)) ==>
              Roster(Seated(members, m))[x] == if x == m.socketId then m.userId else Roster(members)[x]
  {
    SeatAfterSeating(members, m, x);
    RosterBySeat(members, x);
    RosterBySeat(Seated(members, m), x);
  }

  lemma SeatedRoster(members: seq<RoomMember>, m: RoomMember)
    requires DistinctSockets(members)
    ensures Roster(Seated(members, m)) == Roster(members)[m.socketId := m.userId]
  {
    var before, after := Roster(members), Roster(Seated(members, m));
    forall x ensures x in after <==> x in before || x == m.socketId { SeatedRosterAt(members, m, x); }
    forall x | x in after ensures after[x] == if x == m.socketId then m.userId else before[x] {
      SeatedRosterAt(members, m, x);
    }
  }

  lemma UnseatedKeepsDistinct(members: seq<RoomMember>, s: string)
    requires DistinctSockets(members)
    ensures DistinctSockets(Unseated(members, s)) && Seat(Unseated(members, s), s) < 0
  {
    if Seat(members, s) >= 0 { SeatAfterUnseating(members, s, s); }
  }

  lemma UnseatedRosterAt(members: seq<RoomMember>, s: string, x: string)
    requires DistinctSockets(members)
    ensures x in Roster(Unseated(members, s)) <==> x in Roster(members) && x != s
    ensures x in Roster(Unseated(members, s)) ==> Roster(Unseated(members, s))[x] == Roster(members)[x]
  {
    RosterBySeat(members, x);
    RosterBySeat(Unseated(members, s), x);
    if Seat(members, s) >= 0 { SeatAfterUnseating(members, s, x); }
  }

  lemma UnseatedRoster(members: seq<RoomMember>, s: string)
    requires DistinctSockets(members)
    ensures Roster(Unseated(members, s)) == Roster(members) - {s}
  {
    var before, after := Roster(members), Roster(Unseated(members, s));
    forall x ensures x in after <==> x in before && x != s { UnseatedRosterAt(members, s, x); }
    forall x | x in after ensures after[x] == before[x] { UnseatedRosterAt(members, s, x); }
  }

  lemma MembersAreDistinct(rooms: Rooms, c: string)
    requires Proper(rooms)
    ensures DistinctSockets(MembersOf(rooms, c))
  {
  }

  /** What is found for a call is its one room in the table, or nothing if it has none. */
  lemma MembersAreExact(rooms: Rooms, callId: string, members: seq<RoomMember>)
    requires Proper(rooms)
    ensures MembersOf(rooms, callId) == members
       <==> if members == [] then forall r :: r in rooms ==> r.callId != callId else Room(callId, members) in rooms
  {
    var i := RoomIndex(rooms, callId);
    if Room(callId, members) in rooms {
      var k :| 0 <= k < |rooms| && rooms[k] == Room(callId, members);
      assert rooms[k].callId == callId;
    }
    if i >= 0 { assert rooms[i] == Room(callId, rooms[i].members); }
  }

  /** What is found for a socket in a call is the one entry that the call has for it, or nothing. */
  lemma MemberIsExact(rooms: Rooms, callId: string, socketId: string, m: RoomMember)
    requires Proper(rooms)
    ensures MemberOf(rooms, callId, socketId) == Some(m)
       <==> m.socketId == socketId && exists r :: r in rooms && r.callId == callId && m in r.members
  {
    var members := MembersOf(rooms, callId);
    MembersAreExact(rooms, callId, members);
    if r :| m.socketId == socketId && r in rooms && r.callId == callId && m in r.members {
      assert r == Room(callId, r.members);
      MembersAreExact(rooms, callId, r.members);
      var k :| 0 <= k < |members| && members[k] == m;
      SeatIs(members, k);
    }
    if MemberOf(rooms, callId, socketId) == Some(m) {
      assert m == members[Seat(members, socketId)] && Room(callId, members) in rooms;
    }
  }

  /** Joining enters one socket in one call and leaves every other entry as it was. */
  lemma JoinEnters(rooms: Rooms, callId: string, m: RoomMember)
    requires Proper(rooms)
    ensures Proper(JoinRooms(rooms, callId, m))
    ensures MembersOf(JoinRooms(rooms, callId, m), callId) == Seated(MembersOf(rooms, callId), m)
    ensures forall c :: c != callId ==> MembersOf(JoinRooms(rooms, callId, m), c) == MembersOf(rooms, c)
  {
    var i := RoomIndex(rooms, callId);
    var after := JoinRooms(rooms, callId, m);
    assert Proper(after);
    forall c
      ensures MembersOf(after, c) == if c == callId then Seated(MembersOf(rooms, c), m) else MembersOf(rooms, c)
    {
      var k, k' := RoomIndex(rooms, c), RoomIndex(after, c);
      if k >= 0 { assert after[k].callId == c; }
      if k' >= 0 && k' < |rooms| { assert rooms[k'].callId == c; }
      if c == callId && i < 0 { assert after[|rooms|].callId == c; }
    }
  }

  lemma MembersOfTail(rooms: Rooms, c: string)
    requires rooms != []
    ensures MembersOf(rooms, c) == if rooms[0].callId == c then rooms[0].members else MembersOf(rooms[1..], c)
  {
  }

  predicate Absent(rooms: Rooms, c: string) {
    forall i :: 0 <= i < |rooms| ==> rooms[i].callId != c
  }

  lemma {:induction false} LeaveRoomsAddsNoCall(rooms: Rooms, s: string, c: string)
    requires Absent(rooms, c)
    ensures Absent(LeaveRooms(rooms, s), c)
  {
    if rooms == [] {
    } else {
      LeaveRoomsAddsNoCall(rooms[1..], s, c);
    }
  }

  lemma ProperHead(rooms: Rooms)
    requires rooms != [] && Proper(rooms)
    ensures Proper(rooms[1..]) && Absent(rooms[1..], rooms[0].callId)
    ensures DistinctSockets(rooms[0].members) && rooms[0].members != []
  {
  }

  lemma ProperCons(room: Room, rest: Rooms)
    requires Proper(rest) && Absent(rest, room.callId) && DistinctSockets(room.members) && room.members != []
    ensures Proper([room] + rest)
  {
  }

  /** Leaving takes the socket out of every call at once, and drops exactly the rooms it empties. */
  lemma {:induction false} LeaveClears(rooms: Rooms, s: string)
    requires Proper(rooms)
    ensures Proper(LeaveRooms(rooms, s))
    ensures forall c :: MembersOf(LeaveRooms(rooms, s), c) == Unseated(MembersOf(rooms, c), s)
  {
    if rooms == [] {
    } else {
      var room, rest := rooms[0], LeaveRooms(rooms[1..], s);
      ProperHead(rooms);
      LeaveClears(rooms[1..], s);
      LeaveRoomsAddsNoCall(rooms[1..], s, room.callId);
      UnseatedKeepsDistinct(room.members, s);
      assert LeaveRooms(rooms, s) == RoomWithout(room, s) + rest;
      if RoomWithout(room, s) == [] {
        assert LeaveRooms(rooms, s) == rest;
      } else {
        ProperCons(RoomWithout(room, s)[0], rest);
      }
      forall c ensures MembersOf(LeaveRooms(rooms, s), c) == Unseated(MembersOf(rooms, c), s) {
        LeaveClearsCall(rooms, s, c);
      }
    }
  }

  lemma MembersOfCons(room: Room, rest: Rooms, c: string)
    ensures MembersOf([room] + rest, c) == if room.callId == c then room.members else MembersOf(rest, c)
  {
    assert ([room] + rest)[1..] == rest;
    MembersOfTail([room] + rest, c);
  }

  lemma LeaveClearsCall(rooms: Rooms, s: string, c: string)
    requires rooms != [] && Absent(LeaveRooms(rooms[1..], s), rooms[0].callId)
    requires MembersOf(LeaveRooms(rooms[1..], s), c) == Unseated(MembersOf(rooms[1..], c), s)
    ensures MembersOf(LeaveRooms(rooms, s), c) == Unseated(MembersOf(rooms, c), s)
  {
    var room, rest := rooms[0], LeaveRooms(rooms[1..], s);
    MembersOfTail(rooms, c);
    if RoomWithout(room, s) == [] {
      assert LeaveRooms(rooms, s) == rest;
      assert Unseated(room.members, s) == [];
    } else {
      var left := RoomWithout(room, s)[0];
      assert LeaveRooms(rooms, s) == [left] + rest;
      assert left.members == Unseated(room.members, s);
      MembersOfCons(left, rest, c);
    }
  }

  /** The departures name each call the socket was in, once, with its entry there. */
  lemma {:induction false} DeparturesAreExact(rooms: Rooms, s: string)
    requires Proper(rooms)
    ensures forall d :: d in Departures(rooms, s) <==> MemberOf(rooms, d.callId, s) == Some(d.member)
    ensures forall i, j :: 0 <= i < j < |Departures(rooms, s)| ==>
              Departures(rooms, s)[i].callId != Departures(rooms, s)[j].callId
  {
    if rooms == [] {
    } else {
      var ds, rest := Departures(rooms, s), Departures(rooms[1..], s);
      ProperHead(rooms);
      DeparturesAreExact(rooms[1..], s);
      forall d ensures d in ds <==> MemberOf(rooms, d.callId, s) == Some(d.member) {
        MembersOfTail(rooms, d.callId);
        assert d in rest <==> MemberOf(rooms[1..], d.callId, s) == Some(d.member);
      }
      forall i | 0 <= i < |rest| ensures rest[i].callId != rooms[0].callId { assert rest[i] in rest; }
    }
  }
}
