/**
 What every request is answered, who hears what of it, and how many requests a socket can make, in
 terms of the state before the request.
 */
module SignalingAnswers {
  import opened Common
  import opened Registry
  import opened RegistryOrder
  import opened Signaling
  import opened SignalingRuns
  import opened SignalingViews
  import opened SignalingRooms
  import opened SignalingInvites
  import FixedWindow
  import StableSort

  // ---------------------------------------------------------------------------------------
  // Answers
  // ---------------------------------------------------------------------------------------

  /** The registry has the socket in the call as this user. */
  predicate IsSeated(st: State, c: string, s: string, u: string) { s in Who(st, c) && Who(st, c)[s] == u }

  /** The bus authorises the user for the call, or the user is in the call already with some socket. */
  ghost predicate IsPermitted(st: State, bus: Bus, c: string, u: string) {
    bus(c, u).authorized || exists s :: IsSeated(st, c, s, u)
  }

  /** The only state of a call in which a client may join its room at the media server. */
  predicate IsUnderWay(auth: Auth) {
    match auth.state case Some(AcceptedCall) => true case Some(ActiveCall) => true case _ => false
  }

  /** Whether an authenticated user's request with a well-formed payload is granted. */
  ghost predicate IsGranted(st: State, client: string, u: string, request: Request, bus: Bus) {
    match request
    case PeerJoin(Some(p)) => p.from == u && IsPermitted(st, bus, p.callId, u)
    case PeerLeave(Some(c)) => IsSeated(st, c, client, u)
    case PeerReconnect(Some(c)) => IsSeated(st, c, client, u)
    case Invite(Some(p)) => p.from == u
    case CallMessage(_, Some(c)) => IsPermitted(st, bus, c, u)
    case Sfu(joinRoom, Some(c)) => IsPermitted(st, bus, c, u) && (joinRoom ==> IsUnderWay(bus(c, u)))
    case _ => false
  }

  predicate IsWellFormed(request: Request) {
    match request
    case PeerJoin(p) => p.Some?
    case PeerLeave(c) => c.Some?
    case PeerReconnect(c) => c.Some?
    case Invite(p) => p.Some?
    case CallMessage(_, c) => c.Some?
    case Sfu(_, c) => c.Some?
  }

  /** What acknowledges a granted request; the peers of a join are what `PeersInOrder` says. */
  predicate Acknowledges(request: Request, u: string, ack: Ack) {
    match request
    case PeerJoin(Some(p)) => ack.Joined? && ack.callId == p.callId && ack.userId == u
    case PeerLeave(Some(c)) => ack == Acknowledged(c)
    case PeerReconnect(Some(c)) => ack == Acknowledged(c)
    case Invite(Some(p)) => ack == Acknowledged(p.callId)
    case CallMessage(e, Some(c)) => ack == EventAcknowledged(c, e)
    case Sfu(_, Some(_)) => ack == SfuPending
    case _ => false
  }

  ghost predicate IsAnswered(st: State, client: string, request: Request, bus: Bus, now: int, r: Answer) {
    var user := UserOf(st.world.server, client);
    var ok :=
      if !LimiterAdmits(st, client, now) then r == Err("rate_limited")
      else if user.None? then r == Err("forbidden")
      else if !IsWellFormed(request) then r == Err("invalid payload")
      else if !IsGranted(st, client, user.value, request, bus) then r == Err("forbidden")
      else r.Ok? && Acknowledges(request, user.value, r.value);
    ok
  }

  lemma PermittedIff(st: State, bus: Bus, c: string, u: string)
    requires Proper(st.world.registry)
    ensures MayAct(st.world.registry, bus, c, u) <==> IsPermitted(st, bus, c, u)
  {
    var members := MembersOf(st.world.registry, c);
    MembersAreDistinct(st.world.registry, c);
    if i :| 0 <= i < |members| && members[i].userId == u {
      SeatIs(members, i);
      RosterBySeat(members, members[i].socketId);
      assert IsSeated(st, c, members[i].socketId, u);
    }
    if s :| IsSeated(st, c, s, u) {
      RosterBySeat(members, s);
      assert members[Seat(members, s)].userId == u;
    }
  }

  lemma SeatedIff(st: State, c: string, s: string, u: string)
    requires Proper(st.world.registry)
    ensures Holds(st.world.registry, c, s, u) <==> IsSeated(st, c, s, u)
  {
    MembersAreDistinct(st.world.registry, c);
    RosterBySeat(MembersOf(st.world.registry, c), s);
  }

  lemma RespondIsAnswered(st: State, w: World, client: string, u: string, request: Request, bus: Bus, now: int)
    requires Proper(st.world.registry) && w.registry == st.world.registry
    ensures
      var r := Respond(w, client, u, request, bus, now).1;
      if !IsWellFormed(request) then r == Err("invalid payload")
      else if !IsGranted(st, client, u, request, bus) then r == Err("forbidden")
      else r.Ok? && Acknowledges(request, u, r.value)
  {
    match request
    case PeerJoin(Some(p)) => PermittedIff(st, bus, p.callId, u);
    case PeerLeave(Some(c)) => SeatedIff(st, c, client, u);
    case PeerReconnect(Some(c)) => SeatedIff(st, c, client, u);
    case CallMessage(_, Some(c)) => PermittedIff(st, bus, c, u);
    case Sfu(_, Some(c)) => PermittedIff(st, bus, c, u);
    case _ =>
  }

  /** After every run: the complaints in order, and otherwise the acknowledgement of what was granted. */
  lemma AnswersAreExact(ops: seq<Op>, client: string, request: Request, bus: Bus, now: int)
    ensures
      var st := Run(START, ops);
      IsAnswered(st, client, request, bus, now, Handled(st.world, client, request, bus, now).1)
  {
    var st := Run(START, ops);
    RunKeepsInv(START, ops);
    assert Obeys(st, ProperTable);
    var (buckets, _) := FixedWindow.TryConsumeStep(st.world.limiter, FixedWindow.DEFAULT_OPTIONS, client, now);
    var user := UserOf(st.world.server, client);
    if user.Some? { RespondIsAnswered(st, st.world.(limiter := buckets), client, user.value, request, bus, now); }
  }

  /** The peers that a join is acknowledged with: the other members, in the order of the registry. */
  lemma {:induction false} PeersInOrder(members: seq<RoomMember>, s: string)
    ensures PeersOf(members, s)
         == StableSort.Map(StableSort.Filter(members, (m: RoomMember) => IsOther(m, s)),
                           (m: RoomMember) => Peer(m.socketId, m.userId))
  {
    var p, f := (m: RoomMember) => IsOther(m, s), (m: RoomMember) => Peer(m.socketId, m.userId);
    if members == [] {
      assert StableSort.Map(StableSort.Filter(members, p), f) == [];
    } else {
      var before, m := members[..|members| - 1], members[|members| - 1];
      PeersInOrder(before, s);
      StableSort.FilterSnoc(before, m, p);
      assert members == before + [m];
      var others := StableSort.Filter(before, p);
      assert StableSort.Map(others + [m], f) == StableSort.Map(others, f) + [f(m)];
    }
  }

  // ---------------------------------------------------------------------------------------
  // Who hears what
  // ---------------------------------------------------------------------------------------

  /** What a socket hears of a granted request of `client`, apart from the acknowledgement. */
  function Heard(st: State, client: string, u: string, request: Request, bus: Bus, t: string): seq<Message> {
    match request
    case PeerJoin(Some(p)) =>
      if t in InRoom(st, p.callId) && t != client then [PeerJoined(p.callId, u, client)] else []
    case PeerLeave(Some(c)) => if t in InRoom(st, c) && t != client then [Message.PeerLeft(c, u, client)] else []
    case PeerReconnect(Some(c)) => if t in InRoom(st, c) then [PeerReconnecting(c, u, client)] else []
    case Invite(Some(p)) =>
      Copies(CallInvite(p.callId, p.from, p.kind), HowMany(st.world.server, st.world.registry, bus, p, p.to, t))
    case CallMessage(e, Some(c)) => if t in InRoom(st, c) then [CallEvent(c, u, e)] else []
    case _ => []
  }

  function ReplyOf(r: Answer): Message { match r case Ok(ack) => Reply(ack) case Err(e) => Exception(e) }

  /** What the bus is told of a granted request. */
  function Told(u: string, request: Request): seq<BusEvent> {
    match request
    case CallMessage(e, Some(c)) => [BusEvent(c, e, u)]
    case _ => []
  }

  lemma JoinIsHeard(st: State, w: World, client: string, u: string, c: string, now: int, t: string)
    requires w.server == st.world.server && w.registry == st.world.registry
    ensures Got(Announce(Enrol(w, client, u, c, now), client, u, c).0.server, t)
         == Got(w.server, t) + if t in InRoom(st, c) && t != client then [PeerJoined(c, u, client)] else []
  {
  }

  lemma LeaveIsHeard(st: State, w: World, client: string, u: string, c: string, t: string)
    requires w.server == st.world.server
    ensures Got(LeaveCall(w, client, u, c).server, t)
         == Got(w.server, t) + if t in InRoom(st, c) && t != client then [Message.PeerLeft(c, u, client)] else []
  {
  }

  lemma RespondIsHeard(st: State, w: World, client: string, u: string, request: Request, bus: Bus, now: int, t: string)
    requires w.server == st.world.server && w.registry == st.world.registry
    ensures
      var (w', r) := Respond(w, client, u, request, bus, now);
      && Got(w'.server, t) == Got(w.server, t) + (if r.Ok? then Heard(st, client, u, request, bus, t) else [])
      && w'.told == w.told + (if r.Ok? then Told(u, request) else [])
  {
    match request
    case PeerJoin(Some(p)) => JoinIsHeard(st, w, client, u, p.callId, now, t);
    case PeerLeave(Some(c)) => LeaveIsHeard(st, w, client, u, c, t);
    case PeerReconnect(Some(c)) =>
    case Invite(Some(p)) => InvitationsHeard(w.server, w.registry, bus, p, p.to, t);
    case CallMessage(e, Some(c)) =>
    case _ =>
  }

  /**
   After every run and for every socket: a request adds to what the socket has received the messages
   of `Heard`, if it is granted, and the answer, if the socket made the request; and it passes to the
   bus the one event of a granted call event.
   */
  lemma HeardIsExact(st: State, client: string, request: Request, bus: Bus, now: int, t: string)
    ensures
      var r := Handled(st.world, client, request, bus, now).1;
      var after, user := Step(st, Handle(client, request, bus, now)).world, UserOf(st.world.server, client);
      && (r.Ok? ==> user.Some?)
      && Got(after.server, t)
         == Got(st.world.server, t) + (if r.Ok? then Heard(st, client, user.value, request, bus, t) else [])
            + (if t == client then [ReplyOf(r)] else [])
      && after.told == st.world.told + (if r.Ok? then Told(user.value, request) else [])
  {
    var (buckets, allowed) := FixedWindow.TryConsumeStep(st.world.limiter, FixedWindow.DEFAULT_OPTIONS, client, now);
    var limited, user := st.world.(limiter := buckets), UserOf(st.world.server, client);
    var (w, r) := Handled(st.world, client, request, bus, now);
    if allowed && user.Some? { RespondIsHeard(st, limited, client, user.value, request, bus, now, t); }
  }

  /**
   A granted call event is heard once by every member of the call, and by nobody else but a socket
   named like the call, after any run in which no leave is handled for a socket in another call.
   */
  lemma CallEventReachesMembers(
      ops: seq<Op>, client: string, e: CallEventType, c: string, bus: Bus, now: int, t: string)
    requires NeverOverstays(START, ops)
    requires Handled(Run(START, ops).world, client, CallMessage(e, Some(c)), bus, now).1.Ok? && t != client
    ensures
      var st := Run(START, ops);
      var user, after := UserOf(st.world.server, client), Step(st, Handle(client, CallMessage(e, Some(c)), bus, now));
      && user.Some?
      && (t in Who(st, c) ==> Got(after.world.server, t) == Got(st.world.server, t) + [CallEvent(c, user.value, e)])
      && (t !in Who(st, c) && t != c ==> Got(after.world.server, t) == Got(st.world.server, t))
  {
    var st := Run(START, ops);
    BroadcastsReachMembersIff(ops);
    MatchedAtEnd(START, ops);
    RunKeepsInv(START, ops);
    assert Obeys(st, Hearing) && MatchAt(st, c, t);
    HeardIsExact(st, client, CallMessage(e, Some(c)), bus, now, t);
  }

  function HeardOfOne(server: Server, d: Departure, t: string): seq<Message> {
    if t in SocketsIn(server, d.callId) then [Message.PeerLeft(d.callId, d.member.userId, d.member.socketId)] else []
  }

  /** What a socket hears of the departures of another, in their order. */
  function HeardOf(server: Server, ds: seq<Departure>, t: string): seq<Message> {
    if ds == [] then [] else HeardOfOne(server, ds[0], t) + HeardOf(server, ds[1..], t)
  }

  lemma {:induction false} DeparturesHeard(server: Server, now: Server, ds: seq<Departure>, t: string)
    requires now.rooms == server.rooms
    ensures Got(TellDepartures(now, ds), t) == Got(now, t) + HeardOf(server, ds, t)
    decreases |ds|
  {
    if ds == [] {
    } else {
      DeparturesHeard(server, TellDeparture(now, ds[0]), ds[1..], t);
      Associative(Got(now, t), HeardOfOne(server, ds[0], t), HeardOf(server, ds[1..], t));
    }
  }

  /** A disconnect is told, once, to every socket in the room of each call that the socket was in. */
  lemma DisconnectIsHeard(st: State, s: string, t: string)
    ensures
      var gone, ds := Disconnected(st.world.server, s), Departures(st.world.registry, s);
      Got(Step(st, Disconnect(s)).world.server, t) == Got(st.world.server, t) + HeardOf(gone, ds, t)
  {
    var gone := Disconnected(st.world.server, s);
    DeparturesHeard(gone, gone, Departures(st.world.registry, s), t);
  }

  /** A granted join enters the socket under its user, with the time, in the call and in no other. */
  lemma JoinIsEntered(st: State, client: string, p: Invitation, bus: Bus, now: int)
    requires Proper(st.world.registry)
    ensures
      var (w, r) := Handled(st.world, client, PeerJoin(Some(p)), bus, now);
      var user := UserOf(st.world.server, client);
      r.Ok? ==>
        && user.Some?
        && TakesPlace(MembersOf(st.world.registry, p.callId), RoomMember(client, user.value, now),
                      MembersOf(w.registry, p.callId))
        && forall c :: c != p.callId ==> MembersOf(w.registry, c) == MembersOf(st.world.registry, c)
  {
    var user := UserOf(st.world.server, client);
    if user.Some? {
      var m := RoomMember(client, user.value, now);
      JoinEnters(st.world.registry, p.callId, m);
      MembersAreDistinct(st.world.registry, p.callId);
      SeatedTakesPlace(MembersOf(st.world.registry, p.callId), m);
    }
  }

  // ---------------------------------------------------------------------------------------
  // How many requests get past the limiter
  // ---------------------------------------------------------------------------------------

  /** The request of an operation, as the limiter sees it. */
  function Attempt(op: Op): seq<FixedWindow.Event> {
    match op
    case Handle(client, _, _, now) => [FixedWindow.Event(client, now)]
    case Ask(client, _, _, now) => [FixedWindow.Event(client, now)]
    case _ => []
  }

  function Attempts(ops: seq<Op>): seq<FixedWindow.Event> {
    if ops == [] then [] else Attempt(ops[0]) + Attempts(ops[1..])
  }

  function PassedNow(st: State, op: Op, s: string): seq<int> {
    var es := Attempt(op);
    if es != [] && es[0].socketId == s && LimiterAdmits(st, s, es[0].now) then [es[0].now] else []
  }

  /** When requests of socket `s` got past the limiter. */
  function Passed(st: State, ops: seq<Op>, s: string): seq<int>
    decreases |ops|
  {
    if ops == [] then [] else PassedNow(st, ops[0], s) + Passed(Step(st, ops[0]), ops[1..], s)
  }

  lemma AttemptPasses(st: State, op: Op, s: string, a: seq<int>)
    ensures
      var t := FixedWindow.Trace(st.world.limiter, a);
      FixedWindow.Run(FixedWindow.DEFAULT_OPTIONS, t, Attempt(op), s)
      == FixedWindow.Trace(Step(st, op).world.limiter, a + PassedNow(st, op, s))
  {
    var es := Attempt(op);
    assert a + [] == a;
    if es != [] { assert es[1..] == []; }
  }

  /** The limiter goes through the gateway's runs as it does on its own. */
  lemma {:induction false} LimiterFollows(st: State, ops: seq<Op>, s: string, a: seq<int>)
    ensures
      var t := FixedWindow.Trace(st.world.limiter, a);
      FixedWindow.Run(FixedWindow.DEFAULT_OPTIONS, t, Attempts(ops), s)
      == FixedWindow.Trace(Run(st, ops).world.limiter, a + Passed(st, ops, s))
    decreases |ops|
  {
    if ops == [] {
      assert a + [] == a;
    } else {
      var t, a' := FixedWindow.Trace(st.world.limiter, a), a + PassedNow(st, ops[0], s);
      AttemptPasses(st, ops[0], s, a);
      FixedWindow.RunAppends(FixedWindow.DEFAULT_OPTIONS, t, Attempt(ops[0]), Attempts(ops[1..]), s);
      LimiterFollows(Step(st, ops[0]), ops[1..], s, a');
      Associative(a, PassedNow(st, ops[0], s), Passed(Step(st, ops[0]), ops[1..], s));
    }
  }

  /** In every run on a monotone clock, at most 59 requests of one socket get past the limiter in any second. */
  lemma RequestsAreLimited(ops: seq<Op>, s: string, start: int, end: int, from: int)
    requires FixedWindow.Monotone(Attempts(ops), start, end)
    ensures FixedWindow.CountIn(Passed(START, ops, s), from, from + 1000) <= 59
  {
    LimiterFollows(START, ops, s, []);
    assert [] + Passed(START, ops, s) == Passed(START, ops, s);
    FixedWindow.AtMostTwiceMinusOne(FixedWindow.DEFAULT_OPTIONS, Attempts(ops), s, start, end, from);
  }

  /** A request is stopped only when the last 30 that got past were made within the second before it. */
  lemma StoppedAfterThirty(ops: seq<Op>, s: string, start: int, now: int)
    requires FixedWindow.Monotone(Attempts(ops), start, now) && !LimiterAdmits(Run(START, ops), s, now)
    ensures
      var a := Passed(START, ops, s);
      |a| >= 30 && forall i :: |a| - 30 <= i < |a| ==> now - 1000 < a[i] <= now
  {
    LimiterFollows(START, ops, s, []);
    assert [] + Passed(START, ops, s) == Passed(START, ops, s);
    FixedWindow.RefusedOnlyWhenFull(FixedWindow.DEFAULT_OPTIONS, Attempts(ops), start, FixedWindow.Event(s, now));
  }
}
