/**
 The call table, the room-code index and the event log (src/calls/calls.service.ts and
 src/calls/call.types.ts).

 Random identifiers and room codes are inputs of the operations that draw them. Each operation
 reads the clock once; times are integer milliseconds.
 */
module Calls {
  import opened Common
  import opened RoomCodes
  import StableSort

  datatype Status = Pending | Active | Ended

  datatype Visibility = Private | Link

  datatype Role = Creator | Invitee

  datatype ParticipantStatus = Invited | Joined | Left | Declined

  datatype Participant = Participant(
    userId: string, role: Role, status: ParticipantStatus,
    invitedAt: int, joinedAt: Option<int>, leftAt: Option<int>)

  /** The fields of a call at one moment. */
  datatype CallRecord = CallRecord(
    id: string, roomId: string, status: Status, visibility: Visibility, creatorId: string,
    participants: seq<Participant>, createdAt: int,
    startedAt: Option<int>, endedAt: Option<int>, endedBy: Option<string>)

  datatype Kind = CreatedEvent | InvitedEvent | AcceptedEvent | JoinedEvent | LeftEvent | EndedEvent

  datatype Payload = NoPayload | Room(roomId: string, visibility: Visibility) | By(userId: string) | ViaLink

  datatype Event = Event(id: nat, callId: string, kind: Kind, userId: string, payload: Payload, createdAt: int)

  datatype Error = NotFound(what: string) | Forbidden | Conflict | InvalidState | CodeCollision

  /** `order` lists the keys of `calls` in insertion order, as a JavaScript Map does. */
  datatype State = State(
    calls: map<string, CallRecord>, order: seq<string>, codeIndex: map<string, string>,
    events: seq<Event>, nextId: nat)

  const EMPTY := State(map[], [], map[], [], 1)

  // ---------------------------------------------------------------------------------------
  // Operations on values
  // ---------------------------------------------------------------------------------------

  function Append(s: State, callId: string, kind: Kind, userId: string, payload: Payload, now: int): State {
    s.(events := s.events + [Event(s.nextId, callId, kind, userId, payload, now)], nextId := s.nextId + 1)
  }

  function Put(s: State, c: CallRecord): State { s.(calls := s.calls[c.id := c]) }

  function ForCall(events: seq<Event>, callId: string): seq<Event> {
    if events == [] then [] else
    var e := events[|events| - 1];
    var before := ForCall(events[..|events| - 1], callId);
    if e.callId == callId then before + [e] else before
  }

  /** The first participant with this user id, or -1. */
  function IndexOf(ps: seq<Participant>, userId: string): (i: int)
    ensures -1 <= i < |ps|
    ensures i >= 0 ==> ps[i].userId == userId
    ensures i < 0 <==> forall k :: 0 <= k < |ps| ==> ps[k].userId != userId
  {
    if ps == [] then -1
    else
      var i := IndexOf(ps[..|ps| - 1], userId);
      if i >= 0 then i else if ps[|ps| - 1].userId == userId then |ps| - 1 else -1
  }

  predicate IsParticipant(c: CallRecord, userId: string) { IndexOf(c.participants, userId) >= 0 }

  function PickCode(codeIndex: map<string, string>, draws: seq<Draw>): Option<string> {
    if draws == [] then None
    else if RoomCode(draws[0]) !in codeIndex then Some(RoomCode(draws[0]))
    else PickCode(codeIndex, draws[1..])
  }

  function InviteInternal(s: State, callId: string, invitee: string, now: int): (r: State)
    requires callId in s.calls
    ensures callId in r.calls
  {
    var c := s.calls[callId];
    if IsParticipant(c, invitee) then s else
    var p := Participant(invitee, Invitee, Invited, now, None, None);
    Append(Put(s, c.(participants := c.participants + [p])), callId, InvitedEvent, invitee, By(c.creatorId), now)
  }

  function InviteAll(s: State, callId: string, creatorId: string, invitees: seq<string>, now: int): (r: State)
    requires callId in s.calls
    ensures callId in r.calls
  {
    if invitees == [] then s else
    var last := invitees[|invitees| - 1];
    var before := InviteAll(s, callId, creatorId, invitees[..|invitees| - 1], now);
    if last == creatorId then before else InviteInternal(before, callId, last, now)
  }

  /** A call as `createCall` builds it. */
  function NewCall(id: string, creatorId: string, visibility: Visibility, code: string, now: int): CallRecord {
    var creator := Participant(creatorId, Creator, Joined, now, Some(now), None);
    CallRecord(id, code, Pending, visibility, creatorId, [creator], now, None, None, None)
  }

  /** The state right after `createCall` has recorded the call and before it invites anybody. */
  function Created(s: State, c: CallRecord, now: int): (r: State)
    ensures c.id in r.calls
  {
    var order := if c.id in s.calls then s.order else s.order + [c.id];
    Append(Put(s, c).(order := order, codeIndex := s.codeIndex[c.roomId := c.id]),
           c.id, CreatedEvent, c.creatorId, Room(c.roomId, c.visibility), now)
  }

  /** Each operation answers with the identifier of the call object it returns, or an error. */
  type Outcome = Result<string, Error>

  function CreateStep(s: State, id: string, creatorId: string, invitees: seq<string>,
                      visibility: Option<Visibility>, draws: seq<Draw>, now: int): (State, Outcome)
  {
    match PickCode(s.codeIndex, draws)
    case None => (s, Err(CodeCollision))
    case Some(code) =>
      var v := if visibility.Some? then visibility.value else Link;
      (InviteAll(Created(s, NewCall(id, creatorId, v, code, now), now), id, creatorId, invitees, now), Ok(id))
  }

  lemma CreateWithCode(s: State, id: string, creatorId: string, invitees: seq<string>,
                       visibility: Option<Visibility>, draws: seq<Draw>, now: int, v: Visibility, code: string)
    requires PickCode(s.codeIndex, draws) == Some(code)
    requires v == if visibility.Some? then visibility.value else Link
    ensures CreateStep(s, id, creatorId, invitees, visibility, draws, now)
            == (InviteAll(Created(s, NewCall(id, creatorId, v, code, now), now), id, creatorId, invitees, now), Ok(id))
  {
  }

  function InviteStep(s: State, callId: string, inviter: string, invitee: string, now: int): (State, Outcome) {
    if inviter == invitee then (s, Err(Conflict))
    else if callId !in s.calls then (s, Err(NotFound(callId)))
    else if s.calls[callId].status == Ended then (s, Err(InvalidState))
    else if !IsParticipant(s.calls[callId], inviter) then (s, Err(Forbidden))
    else (InviteInternal(s, callId, invitee, now), Ok(callId))
  }

  /** A pending call becomes active. */
  function Activate(c: CallRecord, now: int): CallRecord {
    if c.status == Pending then c.(status := Active, startedAt := Some(now)) else c
  }

  /** Participant `i` is (again) in the call. */
  function Rejoined(c: CallRecord, i: nat, now: int): CallRecord
    requires i < |c.participants|
  {
    var p := c.participants[i].(status := Joined, joinedAt := Some(now));
    Activate(c.(participants := c.participants[i := p]), now)
  }

  function AcceptStep(s: State, callId: string, userId: string, now: int): (State, Outcome) {
    if callId !in s.calls then (s, Err(NotFound(callId))) else
    var c := s.calls[callId];
    if c.status == Ended then (s, Err(InvalidState)) else
    var i := IndexOf(c.participants, userId);
    if i < 0 then (s, Err(Forbidden))
    else if c.participants[i].status == Joined then (s, Ok(callId))
    else
      (Append(Append(Put(s, Rejoined(c, i, now)), callId, AcceptedEvent, userId, NoPayload, now),
              callId, JoinedEvent, userId, NoPayload, now),
       Ok(callId))
  }

  function JoinStep(s: State, callId: string, userId: string, now: int): (State, Outcome) {
    if callId !in s.calls then (s, Err(NotFound(callId))) else
    var c := s.calls[callId];
    if c.status == Ended then (s, Err(InvalidState))
    else if IsParticipant(c, userId) then (s, Ok(callId))
    else if c.visibility == Private then (s, Err(Forbidden))
    else
      var p := Participant(userId, Invitee, Joined, now, Some(now), None);
      var c' := Activate(c.(participants := c.participants + [p]), now);
      (Append(Put(s, c'), callId, JoinedEvent, userId, ViaLink, now), Ok(callId))
  }

  function LeaveStep(s: State, callId: string, userId: string, now: int): (State, Outcome) {
    if callId !in s.calls then (s, Err(NotFound(callId))) else
    var c := s.calls[callId];
    var i := IndexOf(c.participants, userId);
    if i < 0 then (s, Err(Forbidden))
    else if c.participants[i].status == Left then (s, Ok(callId))
    else
      var p := c.participants[i].(status := Left, leftAt := Some(now));
      (Append(Put(s, c.(participants := c.participants[i := p])), callId, LeftEvent, userId, NoPayload, now),
       Ok(callId))
  }

  function EndStep(s: State, callId: string, userId: string, now: int): (State, Outcome) {
    if callId !in s.calls then (s, Err(NotFound(callId))) else
    var c := s.calls[callId];
    if !IsParticipant(c, userId) then (s, Err(Forbidden))
    else if c.status == Ended then (s, Ok(callId))
    else
      var c' := c.(status := Ended, endedAt := Some(now), endedBy := Some(userId));
      (Append(Put(s, c'), callId, EndedEvent, userId, NoPayload, now).(codeIndex := s.codeIndex - {c.roomId}),
       Ok(callId))
  }

  function GetByRoomCode(s: State, code: string): Outcome {
    if code !in s.codeIndex || s.codeIndex[code] == "" || s.codeIndex[code] !in s.calls then Err(NotFound(code))
    else Ok(s.codeIndex[code])
  }

  function GetByIdOrCode(s: State, idOrCode: string): Outcome {
    if idOrCode in s.calls then Ok(idOrCode) else GetByRoomCode(s, idOrCode)
  }

  /** Whether `listForUser` selects a call; `None` stands for 'all'. */
  predicate Selects(s: State, userId: string, status: Option<Status>, id: string) {
    && id in s.calls && IsParticipant(s.calls[id], userId)
    && (status.None? || s.calls[id].status == status.value)
  }

  function CreatedAt(s: State): string -> int { id => if id in s.calls then s.calls[id].createdAt else 0 }

  function Selector(s: State, userId: string, status: Option<Status>): string -> bool {
    id => Selects(s, userId, status, id)
  }

  function Selected(s: State, userId: string, status: Option<Status>): seq<string> {
    StableSort.Filter(s.order, Selector(s, userId, status))
  }

  function ListForUser(s: State, userId: string, status: Option<Status>): seq<string> {
    StableSort.SortDesc(Selected(s, userId, status), CreatedAt(s))
  }

  // ---------------------------------------------------------------------------------------
  // Objects
  // ---------------------------------------------------------------------------------------

  class CallEventsStore {
    var events: seq<Event>
    var nextId: nat

    constructor ()
      ensures events == [] && nextId == 1
    {
      events, nextId := [], 1;
    }

    method Record(callId: string, kind: Kind, userId: string, payload: Payload, now: int) returns (e: Event)
      modifies this
      ensures e == Event(old(nextId), callId, kind, userId, payload, now)
      ensures events == old(events) + [e] && nextId == old(nextId) + 1
    {
      e := Event(nextId, callId, kind, userId, payload, now);
      nextId := nextId + 1;
      events := events + [e];
    }

    method EventsForCall(callId: string) returns (es: seq<Event>)
      ensures es == ForCall(events, callId)
    {
      es := [];
      for i := 0 to |events|
        invariant es == ForCall(events[..i], callId)
      {
        assert events[..i + 1][..i] == events[..i];
        if events[i].callId == callId {
          es := es + [events[i]];
        }
      }
      assert events[..|events|] == events;
    }

    method Clear()
      modifies this
      ensures events == [] && nextId == 1
    {
      events, nextId := [], 1;
    }
  }

  class Call {
    const id: string
    const roomId: string
    const visibility: Visibility
    const creatorId: string
    const createdAt: int
    var status: Status
    var participants: seq<Participant>
    var startedAt: Option<int>
    var endedAt: Option<int>
    var endedBy: Option<string>

    constructor (id: string, roomId: string, visibility: Visibility, creatorId: string, creator: Participant, now: int)
      ensures Record() == CallRecord(id, roomId, Pending, visibility, creatorId, [creator], now, None, None, None)
    {
      this.id, this.roomId, this.visibility, this.creatorId, createdAt := id, roomId, visibility, creatorId, now;
      status, participants := Pending, [creator];
      startedAt, endedAt, endedBy := None, None, None;
    }

    function Record(): CallRecord
      reads this
    {
      CallRecord(id, roomId, status, visibility, creatorId, participants, createdAt, startedAt, endedAt, endedBy)
    }

    static function Id(c: Call): string { c.id }

    static function Age(c: Call): int { c.createdAt }

    method Rejoin(i: nat, now: int)
      requires i < |participants|
      modifies this
      ensures Record() == Rejoined(old(Record()), i, now)
    {
      participants := participants[i := participants[i].(status := Joined, joinedAt := Some(now))];
      if status == Pending {
        status := Active;
        startedAt := Some(now);
      }
    }

    method FindParticipant(userId: string) returns (i: int)
      ensures i == IndexOf(participants, userId)
    {
      i := -1;
      for k := 0 to |participants|
        invariant i == IndexOf(participants[..k], userId)
      {
        assert participants[..k + 1][..k] == participants[..k];
        if i < 0 && participants[k].userId == userId {
          i := k;
        }
      }
      assert participants[..|participants|] == participants;
    }
  }

  /** What an operation on objects answers, as a value. */
  function Answer(r: Result<Call, Error>): Outcome {
    match r case Ok(c) => Ok(c.id) case Err(e) => Err(e)
  }

  class CallsService {
    const events: CallEventsStore
    var calls: map<string, Call>
    var order: seq<string>
    var codeIndex: map<string, string>

    ghost function Objects(): set<object>
      reads this
    {
      set k | k in calls :: calls[k]
    }

    ghost predicate Valid()
      reads this
    {
      && (forall k :: k in calls ==> calls[k].id == k)
      && (forall k :: k in order ==> k in calls)
    }

    ghost function Model(): State
      requires Valid()
      reads this, Objects(), events
    {
      State(map k | k in calls :: calls[k].Record(), order, codeIndex, events.events, events.nextId)
    }

    constructor (events: CallEventsStore)
      ensures Valid() && this.events == events && calls == map[]
      ensures Model() == EMPTY.(events := events.events, nextId := events.nextId)
    {
      this.events := events;
      calls, order, codeIndex := map[], [], map[];
    }

    /** If one call object changed, the table changed at its identifier only. */
    twostate lemma OneCallChanged(c: Call)
      requires old(Valid()) && calls == old(calls) && order == old(order) && codeIndex == old(codeIndex)
      requires c.id in calls && calls[c.id] == c && unchanged(events)
      requires forall k :: k in calls && k != c.id ==> calls[k].Record() == old(calls[k].Record())
      ensures Valid()
      ensures Model() == Put(old(Model()), c.Record())
    {
    }

    /** Records an event of a call. */
    method Log(callId: string, kind: Kind, userId: string, payload: Payload, now: int)
      requires Valid()
      modifies events
      ensures Valid() && Model() == Append(old(Model()), callId, kind, userId, payload, now)
    {
      var _ := events.Record(callId, kind, userId, payload, now);
      assert Model().calls == old(Model()).calls;
    }

    method ReserveRoomCode(draws: seq<Draw>) returns (code: Option<string>)
      requires |draws| == 16
      ensures code == PickCode(codeIndex, draws)
    {
      for attempt := 0 to MAX_ATTEMPTS
        invariant PickCode(codeIndex, draws) == PickCode(codeIndex, draws[attempt..])
      {
        assert draws[attempt..][1..] == draws[attempt + 1..];
        var candidate := GenerateRoomCode(draws[attempt]);
        if candidate !in codeIndex {
          return Some(candidate);
        }
      }
      return None;
    }

    method CreateCall(id: string, creatorId: string, invitees: seq<string>,
                      visibility: Option<Visibility>, draws: seq<Draw>, now: int)
      returns (r: Result<Call, Error>)
      requires Valid() && |draws| == 16
      modifies this, events
      ensures Valid()
      ensures Model() == CreateStep(old(Model()), id, creatorId, invitees, visibility, draws, now).0
      ensures Answer(r) == CreateStep(old(Model()), id, creatorId, invitees, visibility, draws, now).1
      ensures r.Ok? ==> fresh(r.value) && calls == old(calls)[id := r.value]
      ensures r.Err? ==> calls == old(calls)
    {
      ghost var before := Model();
      var code := ReserveRoomCode(draws);
      assert Model() == before;
      if code.None? { return Err(CodeCollision); }
      var v := if visibility.Some? then visibility.value else Link;
      var creator := Participant(creatorId, Creator, Joined, now, Some(now), None);
      var call := new Call(id, code.value, v, creatorId, creator, now);
      assert Model() == before;
      Register(call, now);
      InviteEach(call, creatorId, invitees, now);
      CreateWithCode(before, id, creatorId, invitees, visibility, draws, now, v, code.value);
      assert Model() == CreateStep(old(Model()), id, creatorId, invitees, visibility, draws, now).0;
      return Ok(call);
    }

    /** The part of `createCall` between the new object and the invitations. */
    method Register(call: Call, now: int)
      requires Valid()
      modifies this, events
      ensures Valid() && calls == old(calls)[call.id := call]
      ensures Model() == Created(old(Model()), old(call.Record()), now)
    {
      Insert(call);
      SetIndex(codeIndex[call.roomId := call.id]);
      Log(call.id, CreatedEvent, call.creatorId, Room(call.roomId, call.visibility), now);
    }

    method Insert(call: Call)
      requires Valid()
      modifies this`calls, this`order
      ensures Valid() && calls == old(calls)[call.id := call]
      ensures Model() == Put(old(Model()), call.Record()).(
                           order := if call.id in old(calls) then old(order) else old(order) + [call.id])
    {
      if call.id !in calls {
        order := order + [call.id];
      }
      calls := calls[call.id := call];
      assert Model().calls == old(Model()).calls[call.id := call.Record()];
    }

    method SetIndex(index: map<string, string>)
      requires Valid()
      modifies this`codeIndex
      ensures Valid() && codeIndex == index && Model() == old(Model()).(codeIndex := index)
    {
      codeIndex := index;
    }

    /** The loop of `createCall` over the invitees. */
    method InviteEach(call: Call, creatorId: string, invitees: seq<string>, now: int)
      requires Valid() && call.id in calls && calls[call.id] == call
      modifies call, events
      ensures Valid() && Model() == InviteAll(old(Model()), call.id, creatorId, invitees, now)
    {
      for i := 0 to |invitees|
        invariant Valid() && Model() == InviteAll(old(Model()), call.id, creatorId, invitees[..i], now)
      {
        assert invitees[..i + 1][..i] == invitees[..i];
        if invitees[i] != creatorId {
          InviteToCall(call, invitees[i], now);
        }
      }
      assert invitees[..|invitees|] == invitees;
    }

    method GetCall(callId: string) returns (r: Result<Call, Error>)
      requires Valid()
      ensures r == if callId in calls then Ok(calls[callId]) else Err(NotFound(callId))
    {
      if callId in calls { return Ok(calls[callId]); }
      return Err(NotFound(callId));
    }

    method GetCallByRoomCode(roomCode: string) returns (r: Result<Call, Error>)
      requires Valid()
      ensures Answer(r) == GetByRoomCode(Model(), roomCode)
      ensures r.Ok? ==> r.value.id in calls && r.value == calls[r.value.id]
    {
      if roomCode !in codeIndex || codeIndex[roomCode] == "" { return Err(NotFound(roomCode)); }
      var callId := codeIndex[roomCode];
      if callId !in calls { return Err(NotFound(roomCode)); }
      return Ok(calls[callId]);
    }

    method GetCallByIdOrCode(idOrCode: string) returns (r: Result<Call, Error>)
      requires Valid()
      ensures Answer(r) == GetByIdOrCode(Model(), idOrCode)
      ensures r.Ok? ==> r.value.id in calls && r.value == calls[r.value.id]
    {
      if idOrCode in calls { return Ok(calls[idOrCode]); }
      r := GetCallByRoomCode(idOrCode);
    }

    method ListCallsForUser(userId: string, status: Option<Status>) returns (result: seq<Call>)
      requires Valid()
      ensures StableSort.Map(result, Call.Id) == ListForUser(Model(), userId, status)
      ensures forall c :: c in result ==> c.id in calls && calls[c.id] == c
    {
      ghost var model := Model();
      result := SelectCalls(userId, status);
      assert Model() == model;
      forall c | c in result ensures Call.Age(c) == CreatedAt(model)(Call.Id(c)) {
        assert model.calls[c.id] == c.Record();
      }
      result := SortByAge(result, model);
      assert Model() == model;
    }

    /** The loop of `listForUser`. */
    method SelectCalls(userId: string, status: Option<Status>) returns (result: seq<Call>)
      requires Valid()
      ensures StableSort.Map(result, Call.Id) == Selected(Model(), userId, status)
      ensures forall c :: c in result ==> c.id in calls && calls[c.id] == c
    {
      result := [];
      ghost var model := Model();
      ghost var p := Selector(model, userId, status);
      for k := 0 to |order|
        invariant Model() == model
        invariant StableSort.Map(result, Call.Id) == StableSort.Filter(order[..k], p)
        invariant forall c :: c in result ==> c.id in calls && calls[c.id] == c
      {
        StableSort.FilterSnoc(order[..k], order[k], p);
        assert order[..k] + [order[k]] == order[..k + 1];
        var call := calls[order[k]];
        assert model.calls[order[k]] == call.Record();
        var i := call.FindParticipant(userId);
        if i >= 0 && (status.None? || call.status == status.value) {
          result := result + [call];
        }
      }
      assert order[..|order|] == order;
    }

    static method SortByAge(cs: seq<Call>, ghost model: State) returns (sorted: seq<Call>)
      requires forall c :: c in cs ==> Call.Age(c) == CreatedAt(model)(Call.Id(c))
      ensures StableSort.Map(sorted, Call.Id) == StableSort.SortDesc(StableSort.Map(cs, Call.Id), CreatedAt(model))
      ensures forall c :: c in sorted ==> c in cs
    {
      StableSort.SortMaps(cs, Call.Id, Call.Age, CreatedAt(model));
      sorted := StableSort.SortDesc(cs, Call.Age);
    }

    method Invite(callId: string, inviterId: string, inviteeId: string, now: int) returns (r: Result<Call, Error>)
      requires Valid()
      modifies Objects(), events
      ensures Valid()
      ensures Model() == InviteStep(old(Model()), callId, inviterId, inviteeId, now).0
      ensures Answer(r) == InviteStep(old(Model()), callId, inviterId, inviteeId, now).1
      ensures r.Ok? ==> callId in calls && r.value == calls[callId]
    {
      if inviterId == inviteeId { return Err(Conflict); }
      r := GetCall(callId);
      if r.Err? { return; }
      var call := r.value;
      if call.status == Ended { return Err(InvalidState); }
      var i := call.FindParticipant(inviterId);
      if i < 0 { return Err(Forbidden); }
      InviteToCall(call, inviteeId, now);
    }

    method InviteToCall(call: Call, inviteeId: string, now: int)
      requires Valid() && call.id in calls && calls[call.id] == call
      modifies call, events
      ensures Valid() && Model() == InviteInternal(old(Model()), call.id, inviteeId, now)
    {
      var existing := call.FindParticipant(inviteeId);
      if existing >= 0 { return; }
      call.participants := call.participants + [Participant(inviteeId, Invitee, Invited, now, None, None)];
      OneCallChanged(call);
      Log(call.id, InvitedEvent, inviteeId, By(call.creatorId), now);
    }

    method Accept(callId: string, userId: string, now: int) returns (r: Result<Call, Error>)
      requires Valid()
      modifies Objects(), events
      ensures Valid()
      ensures Model() == AcceptStep(old(Model()), callId, userId, now).0
      ensures Answer(r) == AcceptStep(old(Model()), callId, userId, now).1
      ensures r.Ok? ==> callId in calls && r.value == calls[callId]
    {
      r := GetCall(callId);
      if r.Err? { return; }
      var call := r.value;
      if call.status == Ended { return Err(InvalidState); }
      var i := call.FindParticipant(userId);
      if i < 0 { return Err(Forbidden); }
      if call.participants[i].status == Joined { return; }
      AdmitParticipant(call, i, userId, now);
    }

    /** The state change of `accept`. */
    method AdmitParticipant(call: Call, i: nat, userId: string, now: int)
      requires Valid() && call.id in calls && calls[call.id] == call && i < |call.participants|
      modifies call, events
      ensures Valid()
      ensures Model() == Append(Append(Put(old(Model()), Rejoined(old(call.Record()), i, now)),
                                       call.id, AcceptedEvent, userId, NoPayload, now),
                                call.id, JoinedEvent, userId, NoPayload, now)
    {
      call.Rejoin(i, now);
      OneCallChanged(call);
      Log(call.id, AcceptedEvent, userId, NoPayload, now);
      Log(call.id, JoinedEvent, userId, NoPayload, now);
    }

    method Join(callId: string, userId: string, now: int) returns (r: Result<Call, Error>)
      requires Valid()
      modifies Objects(), events
      ensures Valid()
      ensures Model() == JoinStep(old(Model()), callId, userId, now).0
      ensures Answer(r) == JoinStep(old(Model()), callId, userId, now).1
      ensures r.Ok? ==> callId in calls && r.value == calls[callId]
    {
      r := GetCall(callId);
      if r.Err? { return; }
      var call := r.value;
      if call.status == Ended { return Err(InvalidState); }
      var i := call.FindParticipant(userId);
      if i >= 0 { return; }
      if call.visibility == Link {
        JoinAsLinkParticipant(call, userId, now);
        return;
      }
      return Err(Forbidden);
    }

    method JoinAsLinkParticipant(call: Call, userId: string, now: int)
      requires Valid() && call.id in calls && calls[call.id] == call
      requires call.status != Ended && IndexOf(call.participants, userId) < 0 && call.visibility == Link
      modifies call, events
      ensures Valid() && Model() == JoinStep(old(Model()), call.id, userId, now).0
    {
      call.participants := call.participants + [Participant(userId, Invitee, Joined, now, Some(now), None)];
      if call.status == Pending {
        call.status := Active;
        call.startedAt := Some(now);
      }
      OneCallChanged(call);
      Log(call.id, JoinedEvent, userId, ViaLink, now);
    }

    method Leave(callId: string, userId: string, now: int) returns (r: Result<Call, Error>)
      requires Valid()
      modifies Objects(), events
      ensures Valid()
      ensures Model() == LeaveStep(old(Model()), callId, userId, now).0
      ensures Answer(r) == LeaveStep(old(Model()), callId, userId, now).1
      ensures r.Ok? ==> callId in calls && r.value == calls[callId]
    {
      r := GetCall(callId);
      if r.Err? { return; }
      var call := r.value;
      var i := call.FindParticipant(userId);
      if i < 0 { return Err(Forbidden); }
      if call.participants[i].status == Left { return; }
      call.participants := call.participants[i := call.participants[i].(status := Left, leftAt := Some(now))];
      OneCallChanged(call);
      Log(callId, LeftEvent, userId, NoPayload, now);
    }

    method End(callId: string, userId: string, now: int) returns (r: Result<Call, Error>)
      requires Valid()
      modifies this`codeIndex, Objects(), events
      ensures Valid()
      ensures Model() == EndStep(old(Model()), callId, userId, now).0
      ensures Answer(r) == EndStep(old(Model()), callId, userId, now).1
      ensures r.Ok? ==> callId in calls && r.value == calls[callId]
    {
      r := GetCall(callId);
      if r.Err? { return; }
      var call := r.value;
      var i := call.FindParticipant(userId);
      if i < 0 { return Err(Forbidden); }
      if call.status == Ended { return; }
      CloseCall(call, userId, now);
    }

    /** The state change of `end`. */
    method CloseCall(call: Call, userId: string, now: int)
      requires Valid() && call.id in calls && calls[call.id] == call
      modifies this`codeIndex, call, events
      ensures Valid()
      ensures
        var closed := old(call.Record()).(status := Ended, endedAt := Some(now), endedBy := Some(userId));
        Model() == Append(Put(old(Model()), closed), call.id, EndedEvent, userId, NoPayload, now).(
                     codeIndex := old(codeIndex) - {call.roomId})
    {
      call.status := Ended;
      call.endedAt := Some(now);
      call.endedBy := Some(userId);
      OneCallChanged(call);
      Log(call.id, EndedEvent, userId, NoPayload, now);
      SetIndex(codeIndex - {call.roomId});
    }

    method Reset()
      requires Valid()
      modifies this, events
      ensures Valid() && Model() == EMPTY
    {
      calls, order, codeIndex := map[], [], map[];
      events.Clear();
    }
  }
}
