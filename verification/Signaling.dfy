/**
 The signaling gateway (src/signaling/signaling.gateway.ts): socket handlers over the room
 registry, the per-socket event limiter, the calls event bus and a Socket.IO namespace.

 A handler runs to its end before the next one starts. Payload parsing yields the parsed value or
 None, and the event bus answers as a function of call and user that is fixed during one handler.
 */
module Signaling {
  import opened Common
  import opened Registry
  import FixedWindow
  import StableSort

  datatype Kind = Audio | Video
  datatype CallState = PendingCall | RingingCall | AcceptedCall | ActiveCall | EndedCall
  datatype Auth = Auth(authorized: bool, state: Option<CallState>)
  datatype CallEventType = CallRinging | CallAccept | CallReject | CallCancel | CallEnd

  type Bus = (string, string) -> Auth

  datatype Invitation = Invitation(callId: string, from: string, to: seq<string>, kind: Kind)

  datatype Peer = Peer(socketId: string, userId: string)

  datatype Ack =
    | Joined(callId: string, userId: string, peers: seq<Peer>)
    | Acknowledged(callId: string)
    | EventAcknowledged(callId: string, event: CallEventType)
    | SfuPending

  /** What a client receives: events, acknowledgements and refusals, in order. */
  datatype Message =
    | PeerJoined(callId: string, userId: string, socketId: string)
    | PeerLeft(callId: string, userId: string, socketId: string)
    | PeerReconnecting(callId: string, userId: string, socketId: string)
    | CallInvite(callId: string, from: string, kind: Kind)
    | CallEvent(callId: string, from: string, event: CallEventType)
    | Reply(ack: Ack)
    | Exception(reason: string)

  // ---------------------------------------------------------------------------------------
  // The Socket.IO namespace
  // ---------------------------------------------------------------------------------------

  /** The connected sockets with their authenticated users, the rooms, and what was delivered. */
  datatype Server = Server(
    users: map<string, Option<string>>,
    rooms: map<string, set<string>>,
    received: map<string, seq<Message>>)

  function SocketsIn(server: Server, room: string): set<string> {
    if room in server.rooms then server.rooms[room] else {}
  }

  function Got(server: Server, socketId: string): seq<Message> {
    if socketId in server.received then server.received[socketId] else []
  }

  function UserOf(server: Server, socketId: string): Option<string> {
    if socketId in server.users then server.users[socketId] else None
  }

  function EnterRoom(server: Server, socketId: string, room: string): Server {
    server.(rooms := server.rooms[room := SocketsIn(server, room) + {socketId}])
  }

  function ExitRoom(server: Server, socketId: string, room: string): Server {
    server.(rooms := server.rooms[room := SocketsIn(server, room) - {socketId}])
  }

  /**
   Delivery to the sockets of a room. A socket that was enrolled after it had disconnected has a log
   here too, although nothing reaches it any more.
   */
  function Deliver(server: Server, targets: set<string>, msg: Message): Server {
    server.(received := map s | s in server.received.Keys + targets ::
                          if s in targets then Got(server, s) + [msg] else Got(server, s))
  }

  /** `server.to(room).emit` and, with the sender excepted, `client.to(room).emit`. */
  function Emit(server: Server, room: string, except: set<string>, msg: Message): Server {
    Deliver(server, SocketsIn(server, room) - except, msg)
  }

  /** A new socket starts out in the room that bears its own id. */
  function Connected(server: Server, socketId: string, user: Option<string>): Server {
    EnterRoom(server.(users := server.users[socketId := user]), socketId, socketId)
  }

  /** A socket that disconnects has left all its rooms before its handler is called. */
  function Disconnected(server: Server, socketId: string): Server {
    server.(users := server.users - {socketId},
            rooms := map r | r in server.rooms :: server.rooms[r] - {socketId})
  }

  class Namespace {
    var state: Server

    constructor ()
      ensures state == Server(map[], map[], map[])
    {
      state := Server(map[], map[], map[]);
    }

    method Join(socketId: string, room: string)
      modifies this
      ensures state == EnterRoom(old(state), socketId, room)
    {
      state := EnterRoom(state, socketId, room);
    }

    method Leave(socketId: string, room: string)
      modifies this
      ensures state == ExitRoom(old(state), socketId, room)
    {
      state := ExitRoom(state, socketId, room);
    }

    method EmitTo(room: string, except: set<string>, msg: Message)
      modifies this
      ensures state == Emit(old(state), room, except, msg)
    {
      state := Emit(state, room, except, msg);
    }
  }

  // ---------------------------------------------------------------------------------------
  // The gateway as steps over explicit state
  // ---------------------------------------------------------------------------------------

  datatype BusEvent = BusEvent(callId: string, event: CallEventType, actor: string)

  /** Everything the gateway reads and writes, with the events it passed on to the bus. */
  datatype World = World(registry: Rooms, limiter: FixedWindow.Buckets, server: Server, told: seq<BusEvent>)

  const EMPTY := World([], map[], Server(map[], map[], map[]), [])

  datatype Request =
    | PeerJoin(invitation: Option<Invitation>)
    | PeerLeave(callId: Option<string>)
    | PeerReconnect(callId: Option<string>)
    | Invite(invitation: Option<Invitation>)
    | CallMessage(event: CallEventType, callId: Option<string>)
    | Sfu(joinRoom: bool, callId: Option<string>)

  type Answer = Result<Ack, string>

  const RATE_LIMITED := "rate_limited"
  const FORBIDDEN := "forbidden"
  const INVALID_PAYLOAD := "invalid payload"

  predicate MayAct(registry: Rooms, bus: Bus, callId: string, userId: string) {
    bus(callId, userId).authorized || IsParticipant(registry, callId, userId)
  }

  function Allowed(registry: Rooms, bus: Bus, callId: string): string -> bool { u => MayAct(registry, bus, callId, u) }

  function Refused(registry: Rooms, bus: Bus, callId: string): string -> bool { u => !MayAct(registry, bus, callId, u) }

  function PeersOf(members: seq<RoomMember>, socketId: string): seq<Peer> {
    if members == [] then []
    else
      var n := |members| - 1;
      PeersOf(members[..n], socketId)
      + if members[n].socketId != socketId then [Peer(members[n].socketId, members[n].userId)] else []
  }

  /** The first half of a join: the registry and the Socket.IO room. */
  function Enrol(w: World, client: string, userId: string, callId: string, now: int): World {
    w.(registry := JoinRooms(w.registry, callId, RoomMember(client, userId, now)),
       server := EnterRoom(w.server, client, callId))
  }

  /** The second half: the others are told, and the client learns who is there. */
  function Announce(w: World, client: string, userId: string, callId: string): (World, Ack) {
    (w.(server := Emit(w.server, callId, {client}, PeerJoined(callId, userId, client))),
     Joined(callId, userId, PeersOf(MembersOf(w.registry, callId), client)))
  }

  function PeerJoinStep(w: World, client: string, userId: string, p: Invitation, bus: Bus, now: int): (World, Answer) {
    if p.from != userId || !MayAct(w.registry, bus, p.callId, userId) then (w, Err(FORBIDDEN))
    else
      var (w', ack) := Announce(Enrol(w, client, userId, p.callId, now), client, userId, p.callId);
      (w', Ok(ack))
  }

  /** Whether the socket is in the call as this user. */
  predicate Holds(registry: Rooms, callId: string, client: string, userId: string) {
    var member := MemberOf(registry, callId, client);
    member.Some? && member.value.userId == userId
  }

  /** The socket leaves one Socket.IO room but every call of the registry, and one call is told. */
  function LeaveCall(w: World, client: string, userId: string, callId: string): World {
    w.(registry := LeaveRooms(w.registry, client),
       server := Emit(ExitRoom(w.server, client, callId), callId, {}, PeerLeft(callId, userId, client)))
  }

  function PeerLeaveStep(w: World, client: string, userId: string, callId: string): (World, Answer) {
    if !Holds(w.registry, callId, client, userId) then (w, Err(FORBIDDEN))
    else (LeaveCall(w, client, userId, callId), Ok(Acknowledged(callId)))
  }

  function PeerReconnectStep(w: World, client: string, userId: string, callId: string): (World, Answer) {
    if !Holds(w.registry, callId, client, userId) then (w, Err(FORBIDDEN))
    else
      (w.(server := Emit(w.server, callId, {}, PeerReconnecting(callId, userId, client))), Ok(Acknowledged(callId)))
  }

  function UserRoom(userId: string): string { "user:" + userId }

  function InviteOne(server: Server, registry: Rooms, bus: Bus, p: Invitation, userId: string): Server {
    if MayAct(registry, bus, p.callId, userId)
    then Emit(server, UserRoom(userId), {}, CallInvite(p.callId, p.from, p.kind))
    else server
  }

  function InviteAll(server: Server, registry: Rooms, bus: Bus, p: Invitation, to: seq<string>): Server
    decreases |to|
  {
    if to == [] then server
    else InviteAll(InviteOne(server, registry, bus, p, to[0]), registry, bus, p, to[1..])
  }

  function InviteStep(w: World, userId: string, p: Invitation, bus: Bus): (World, Answer) {
    if p.from != userId then (w, Err(FORBIDDEN))
    else (w.(server := InviteAll(w.server, w.registry, bus, p, p.to)), Ok(Acknowledged(p.callId)))
  }

  function CallEventStep(w: World, userId: string, event: CallEventType, callId: string, bus: Bus): (World, Answer) {
    if !MayAct(w.registry, bus, callId, userId) then (w, Err(FORBIDDEN))
    else
      (w.(told := w.told + [BusEvent(callId, event, userId)],
          server := Emit(w.server, callId, {}, CallEvent(callId, userId, event))),
       Ok(EventAcknowledged(callId, event)))
  }

  predicate IsOngoing(auth: Auth) { auth.state == Some(AcceptedCall) || auth.state == Some(ActiveCall) }

  function SfuStep(w: World, userId: string, joinRoom: bool, callId: string, bus: Bus): (World, Answer) {
    if MayAct(w.registry, bus, callId, userId) && (joinRoom ==> IsOngoing(bus(callId, userId)))
    then (w, Ok(SfuPending)) else (w, Err(FORBIDDEN))
  }

  /** A request of an authenticated user that the limiter let through. */
  function Respond(w: World, client: string, userId: string, request: Request, bus: Bus, now: int): (World, Answer) {
    match request
    case PeerJoin(Some(p)) => PeerJoinStep(w, client, userId, p, bus, now)
    case PeerLeave(Some(c)) => PeerLeaveStep(w, client, userId, c)
    case PeerReconnect(Some(c)) => PeerReconnectStep(w, client, userId, c)
    case Invite(Some(p)) => InviteStep(w, userId, p, bus)
    case CallMessage(e, Some(c)) => CallEventStep(w, userId, e, c, bus)
    case Sfu(joinRoom, Some(c)) => SfuStep(w, userId, joinRoom, c, bus)
    case _ => (w, Err(INVALID_PAYLOAD))
  }

  function Handled(w: World, client: string, request: Request, bus: Bus, now: int): (World, Answer) {
    var (buckets, allowed) := FixedWindow.TryConsumeStep(w.limiter, FixedWindow.DEFAULT_OPTIONS, client, now);
    var w' := w.(limiter := buckets);
    if !allowed then (w', Err(RATE_LIMITED))
    else match UserOf(w.server, client)
      case None => (w', Err(FORBIDDEN))
      case Some(userId) => Respond(w', client, userId, request, bus, now)
  }

  /** A refused request has used up the limiter and changed nothing else. */
  lemma RefusalsChangeNothing(w: World, client: string, request: Request, bus: Bus, now: int)
    ensures
      var (w', answer) := Handled(w, client, request, bus, now);
      answer.Err? ==> w' == w.(limiter := w'.limiter)
  {
  }

  function TellDeparture(server: Server, d: Departure): Server {
    Emit(server, d.callId, {}, PeerLeft(d.callId, d.member.userId, d.member.socketId))
  }

  function TellDepartures(server: Server, ds: seq<Departure>): Server
    decreases |ds|
  {
    if ds == [] then server else TellDepartures(TellDeparture(server, ds[0]), ds[1..])
  }

  /** `handleDisconnect`: the socket leaves every call, and each is told. */
  function DisconnectStep(w: World, client: string): World {
    w.(registry := LeaveRooms(w.registry, client), server := TellDepartures(w.server, Departures(w.registry, client)))
  }

  // ---------------------------------------------------------------------------------------
  // The gateway
  // ---------------------------------------------------------------------------------------

  class SignalingGateway {
    const registry: RoomRegistry
    const rateLimit: FixedWindow.RateLimitGuard
    const server: Namespace
    var told: seq<BusEvent>

    ghost predicate Valid()
      reads this
    {
      rateLimit.options == FixedWindow.DEFAULT_OPTIONS
    }

    function Model(): World
      reads this, registry, rateLimit, server
    {
      World(registry.rooms, rateLimit.buckets, server.state, told)
    }

    constructor (registry: RoomRegistry, server: Namespace)
      ensures Valid() && this.registry == registry && this.server == server
      ensures Model() == World(registry.rooms, map[], server.state, [])
    {
      this.registry, this.server := registry, server;
      rateLimit := new FixedWindow.RateLimitGuard(FixedWindow.DEFAULT_OPTIONS);
      told := [];
    }

    method HandleDisconnect(client: string)
      requires Valid()
      modifies registry, server
      ensures Valid() && Model() == DisconnectStep(old(Model()), client)
    {
      var left := registry.Leave(client);
      DeparturesName(old(registry.rooms), client);
      for i := 0 to |left|
        invariant registry.rooms == LeaveRooms(old(registry.rooms), client)
        invariant TellDepartures(server.state, left[i..]) == TellDepartures(old(server.state), left)
      {
        assert left[i..][1..] == left[i + 1..];
        server.EmitTo(left[i].callId, {}, PeerLeft(left[i].callId, left[i].member.userId, client));
      }
    }

    /** The limiter and the authenticated user: what every handler starts with. */
    method Admit(client: string, now: int) returns (r: Result<string, string>)
      requires Valid()
      modifies rateLimit`buckets
      ensures Valid()
      ensures
        var (buckets, allowed) :=
          FixedWindow.TryConsumeStep(old(rateLimit.buckets), FixedWindow.DEFAULT_OPTIONS, client, now);
        && rateLimit.buckets == buckets
        && r == if !allowed then Err(RATE_LIMITED)
                else match UserOf(server.state, client) case None => Err(FORBIDDEN) case Some(userId) => Ok(userId)
    {
      var allowed := rateLimit.TryConsume(client, now);
      if !allowed { return Err(RATE_LIMITED); }
      match UserOf(server.state, client) {
        case None => return Err(FORBIDDEN);
        case Some(userId) => return Ok(userId);
      }
    }

    method IsAllowed(callId: string, userId: string, bus: Bus) returns (ok: bool)
      ensures ok == MayAct(registry.rooms, bus, callId, userId)
    {
      ok := bus(callId, userId).authorized;
      if !ok { ok := registry.HasMember(callId, userId); }
    }

    method HandlePeerJoin(payload: Option<Invitation>, client: string, bus: Bus, now: int) returns (r: Answer)
      requires Valid()
      modifies registry, rateLimit`buckets, server
      ensures Valid() && (Model(), r) == Handled(old(Model()), client, PeerJoin(payload), bus, now)
    {
      var admitted := Admit(client, now);
      if admitted.Err? { return Err(admitted.error); }
      var userId := admitted.value;
      if payload.None? { return Err(INVALID_PAYLOAD); }
      var p := payload.value;
      if p.from != userId { return Err(FORBIDDEN); }
      var ok := IsAllowed(p.callId, userId, bus);
      if !ok { return Err(FORBIDDEN); }
      var ack := Enter(client, userId, p.callId, now);
      return Ok(ack);
    }

    /** The state change of `handlePeerJoin`. */
    method Enter(client: string, userId: string, callId: string, now: int) returns (ack: Ack)
      requires Valid()
      modifies registry, server
      ensures Valid()
      ensures (Model(), ack) == Announce(Enrol(old(Model()), client, userId, callId, now), client, userId, callId)
    {
      var member := registry.Join(callId, client, userId, now);
      server.Join(client, callId);
      server.EmitTo(callId, {client}, PeerJoined(callId, member.userId, client));
      var members := registry.Members(callId);
      ack := Joined(callId, userId, PeersOf(members, client));
    }

    method HandlePeerLeave(payload: Option<string>, client: string, bus: Bus, now: int) returns (r: Answer)
      requires Valid()
      modifies registry, rateLimit`buckets, server
      ensures Valid() && (Model(), r) == Handled(old(Model()), client, PeerLeave(payload), bus, now)
    {
      var admitted := Admit(client, now);
      if admitted.Err? { return Err(admitted.error); }
      if payload.None? { return Err(INVALID_PAYLOAD); }
      var callId := payload.value;
      var member := registry.Member(callId, client);
      if member.None? || member.value.userId != admitted.value { return Err(FORBIDDEN); }
      server.Leave(client, callId);
      var _ := registry.Leave(client);
      server.EmitTo(callId, {}, PeerLeft(callId, admitted.value, client));
      return Ok(Acknowledged(callId));
    }

    method HandlePeerReconnect(payload: Option<string>, client: string, bus: Bus, now: int) returns (r: Answer)
      requires Valid()
      modifies rateLimit`buckets, server
      ensures Valid() && (Model(), r) == Handled(old(Model()), client, PeerReconnect(payload), bus, now)
    {
      var admitted := Admit(client, now);
      if admitted.Err? { return Err(admitted.error); }
      if payload.None? { return Err(INVALID_PAYLOAD); }
      var callId := payload.value;
      var member := registry.Member(callId, client);
      if member.None? || member.value.userId != admitted.value { return Err(FORBIDDEN); }
      server.EmitTo(callId, {}, PeerReconnecting(callId, admitted.value, client));
      return Ok(Acknowledged(callId));
    }

    method HandleCallInvite(payload: Option<Invitation>, client: string, bus: Bus, now: int) returns (r: Answer)
      requires Valid()
      modifies rateLimit`buckets, server
      ensures Valid() && (Model(), r) == Handled(old(Model()), client, Invite(payload), bus, now)
    {
      var admitted := Admit(client, now);
      if admitted.Err? { return Err(admitted.error); }
      if payload.None? { return Err(INVALID_PAYLOAD); }
      var p := payload.value;
      if p.from != admitted.value { return Err(FORBIDDEN); }
      var _, _ := EmitCallInvite(p, bus);
      return Ok(Acknowledged(p.callId));
    }

    /** Splits the invited users, in order, into those who may take part and those who may not. */
    method EmitCallInvite(p: Invitation, bus: Bus) returns (delivered: seq<string>, skipped: seq<string>)
      requires Valid()
      modifies server
      ensures Valid()
      ensures server.state == InviteAll(old(server.state), registry.rooms, bus, p, p.to)
      ensures delivered == StableSort.Filter(p.to, Allowed(registry.rooms, bus, p.callId))
      ensures skipped == StableSort.Filter(p.to, Refused(registry.rooms, bus, p.callId))
    {
      delivered, skipped := [], [];
      var rooms := registry.rooms;
      ghost var allowed, refused := Allowed(rooms, bus, p.callId), Refused(rooms, bus, p.callId);
      for i := 0 to |p.to|
        invariant registry.rooms == rooms
        invariant InviteAll(server.state, rooms, bus, p, p.to[i..]) == InviteAll(old(server.state), rooms, bus, p, p.to)
        invariant delivered == StableSort.Filter(p.to[..i], allowed)
        invariant skipped == StableSort.Filter(p.to[..i], refused)
      {
        var userId := p.to[i];
        assert p.to[i..][1..] == p.to[i + 1..] && p.to[..i + 1] == p.to[..i] + [userId];
        StableSort.FilterSnoc(p.to[..i], userId, allowed);
        StableSort.FilterSnoc(p.to[..i], userId, refused);
        var ok := IsAllowed(p.callId, userId, bus);
        if ok {
          server.EmitTo(UserRoom(userId), {}, CallInvite(p.callId, p.from, p.kind));
          delivered := delivered + [userId];
        } else {
          skipped := skipped + [userId];
        }
      }
      assert p.to[..|p.to|] == p.to;
    }

    /** The handlers of call:ringing, call:accept, call:reject, call:cancel and call:end. */
    method HandleCallEvent(event: CallEventType, payload: Option<string>, client: string, bus: Bus, now: int)
        returns (r: Answer)
      requires Valid()
      modifies this`told, rateLimit`buckets, server
      ensures Valid() && (Model(), r) == Handled(old(Model()), client, CallMessage(event, payload), bus, now)
    {
      var admitted := Admit(client, now);
      if admitted.Err? { return Err(admitted.error); }
      if payload.None? { return Err(INVALID_PAYLOAD); }
      var callId := payload.value;
      var ok := IsAllowed(callId, admitted.value, bus);
      if !ok { return Err(FORBIDDEN); }
      told := told + [BusEvent(callId, event, admitted.value)];
      server.EmitTo(callId, {}, CallEvent(callId, admitted.value, event));
      return Ok(EventAcknowledged(callId, event));
    }

    /** The handlers of sfu:join-room, which asks for an ongoing call, and of the two track events. */
    method HandleSfuEvent(joinRoom: bool, payload: Option<string>, client: string, bus: Bus, now: int)
        returns (r: Answer)
      requires Valid()
      modifies rateLimit`buckets
      ensures Valid() && (Model(), r) == Handled(old(Model()), client, Sfu(joinRoom, payload), bus, now)
    {
      var admitted := Admit(client, now);
      if admitted.Err? { return Err(admitted.error); }
      if payload.None? { return Err(INVALID_PAYLOAD); }
      var callId := payload.value;
      var ok := IsAllowed(callId, admitted.value, bus);
      if !ok { return Err(FORBIDDEN); }
      if joinRoom && !IsOngoing(bus(callId, admitted.value)) { return Err(FORBIDDEN); }
      return Ok(SfuPending);
    }
  }

  lemma {:induction false} DeparturesName(rooms: Rooms, s: string)
    ensures forall i :: 0 <= i < |Departures(rooms, s)| ==> Departures(rooms, s)[i].member.socketId == s
  {
    if rooms == [] {
    } else {
      DeparturesName(rooms[1..], s);
    }
  }
}
