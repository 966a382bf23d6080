/** In what order the registry keeps members and calls; joins and leaves change no more of it than they must. */
module RegistryOrder {
  import opened Common
  import opened Registry
  import StableSort

  predicate IsOther(m: RoomMember, s: string) { m.socketId != s }

  /** A member that joins takes its old place, or comes last. */
  predicate TakesPlace(members: seq<RoomMember>, m: RoomMember, after: seq<RoomMember>) {
    if exists i :: 0 <= i < |members| && members[i].socketId == m.socketId then
      && |after| == |members|
      && forall i :: 0 <= i < |members| ==> after[i] == if members[i].socketId == m.socketId then m else members[i]
    else after == members + [m]
  }

  lemma SeatedTakesPlace(members: seq<RoomMember>, m: RoomMember)
    requires DistinctSockets(members)
    ensures TakesPlace(members, m, Seated(members, m))
  {
  }

  /** The members that are left keep their order. */
  lemma UnseatedKeepsOrder(members: seq<RoomMember>, s: string)
    requires DistinctSockets(members)
    ensures Unseated(members, s) == StableSort.Filter(members, (m: RoomMember) => IsOther(m, s))
  {
    var p, i := (m: RoomMember) => IsOther(m, s), Seat(members, s);
    if i < 0 {
      StableSort.FilterAll(members, p);
    } else {
      var before, after := members[..i], members[i + 1..];
      assert members == before + ([members[i]] + after);
      StableSort.FilterTwoParts(before, [members[i]] + after, p);
      StableSort.FilterAll(before, p);
      StableSort.FilterAll(after, p);
      StableSort.FilterCons(members[i], after, p);
    }
  }

  function CallOf(r: Room): string { r.callId }

  predicate HasSocket(r: Room, s: string) { Seat(r.members, s) >= 0 }

  predicate IsKept(r: Room, s: string) { !HasSocket(r, s) || |r.members| > 1 }

  /** Calls keep their order when a socket leaves; those that it empties are dropped. */
  lemma {:induction false} CallsKeepOrder(rooms: Rooms, s: string)
    ensures StableSort.Map(LeaveRooms(rooms, s), CallOf)
         == StableSort.Map(StableSort.Filter(rooms, (r: Room) => IsKept(r, s)), CallOf)
  {
    var p := (r: Room) => IsKept(r, s);
    if rooms == [] {
    } else {
      CallsKeepOrder(rooms[1..], s);
      StableSort.MapTwoParts(RoomWithout(rooms[0], s), LeaveRooms(rooms[1..], s), CallOf);
      StableSort.MapTwoParts([rooms[0]], StableSort.Filter(rooms[1..], p), CallOf);
    }
  }

  function CallLeft(d: Departure): string { d.callId }

  /** Departures are answered in the order of the calls. */
  lemma {:induction false} DeparturesKeepOrder(rooms: Rooms, s: string)
    ensures StableSort.Map(Departures(rooms, s), CallLeft)
         == StableSort.Map(StableSort.Filter(rooms, (r: Room) => HasSocket(r, s)), CallOf)
  {
    var p := (r: Room) => HasSocket(r, s);
    if rooms == [] {
    } else {
      DeparturesKeepOrder(rooms[1..], s);
      StableSort.MapTwoParts(DepartureFrom(rooms[0], s), Departures(rooms[1..], s), CallLeft);
      StableSort.MapTwoParts([rooms[0]], StableSort.Filter(rooms[1..], p), CallOf);
    }
  }

  /** A call that is new to the registry comes last. */
  lemma NewCallComesLast(rooms: Rooms, c: string, m: RoomMember)
    ensures StableSort.Map(JoinRooms(rooms, c, m), CallOf)
         == StableSort.Map(rooms, CallOf) + if RoomIndex(rooms, c) < 0 then [c] else []
  {
  }
}
