/** Who may act: the registry fallback of the gateway's permission check. */
module SignalingGrants {
  import opened Common
  import opened Registry
  import opened Signaling
  import opened SignalingRuns
  import FixedWindow

  /** A relation between calls and users. */
  type Grant = (string, string) -> bool

  ghost predicate RegistryWithin(rooms: Rooms, g: Grant) {
    forall c, i :: 0 <= i < |MembersOf(rooms, c)| ==> g(c, MembersOf(rooms, c)[i].userId)
  }

  predicate TicketWithin(t: Ticket, g: Grant) { t.Enrolled? || t.authorized ==> g(t.callId, t.userId) }

  ghost predicate TicketsWithin(tickets: Tickets, g: Grant) {
    forall k :: k in tickets ==> TicketWithin(tickets[k], g)
  }

  predicate ToldWithin(told: seq<BusEvent>, g: Grant) {
    forall i :: 0 <= i < |told| ==> g(told[i].callId, told[i].actor)
  }

  /** What a delivered message says about the permissions behind it. */
  ghost predicate Fair(m: Message, g: Grant) {
    match m
    case PeerJoined(c, u, _) => g(c, u)
    case PeerLeft(c, u, _) => g(c, u)
    case PeerReconnecting(c, u, _) => g(c, u)
    case CallEvent(c, u, _) => g(c, u)
    case CallInvite(c, _, _) => exists u :: g(c, u)
    case Reply(Joined(c, u, peers)) => g(c, u) && PeersWithin(peers, c, g)
    case Reply(EventAcknowledged(c, _)) => exists u :: g(c, u)
    case Reply(SfuPending) => exists c, u :: g(c, u)
    case _ => true
  }

  predicate PeersWithin(peers: seq<Peer>, c: string, g: Grant) {
    forall i :: 0 <= i < |peers| ==> g(c, peers[i].userId)
  }

  ghost predicate LogFair(log: seq<Message>, g: Grant) {
    forall i :: 0 <= i < |log| ==> Fair(log[i], g)
  }

  ghost predicate ServerFair(server: Server, g: Grant) {
    forall s :: LogFair(Got(server, s), g)
  }

  ghost predicate WorldWithin(w: World, g: Grant) {
    var ok := Proper(w.registry) && RegistryWithin(w.registry, g) && ToldWithin(w.told, g) && ServerFair(w.server, g);
    ok
  }

  /** Registry, suspended joins, bus events and deliveries all stay within the relation. */
  ghost predicate Within(st: State, g: Grant) {
    var ok := WorldWithin(st.world, g) && TicketsWithin(st.tickets, g);
    ok
  }

  // ---- what keeps it ----

  lemma FairDelivery(server: Server, targets: set<string>, m: Message, g: Grant)
    requires ServerFair(server, g) && Fair(m, g)
    ensures ServerFair(Deliver(server, targets, m), g)
  {
    forall s ensures LogFair(Got(Deliver(server, targets, m), s), g) {
      Delivered(server, targets, m, s, "");
      assert LogFair(Got(server, s), g);
    }
  }

  lemma SameLogsFair(a: Server, b: Server, g: Grant)
    requires ServerFair(a, g) && b.received == a.received
    ensures ServerFair(b, g)
  {
    forall s ensures LogFair(Got(b, s), g) { assert Got(b, s) == Got(a, s) && LogFair(Got(a, s), g); }
  }

  lemma ReplyWithin(w: World, client: string, answer: Answer, g: Grant)
    requires WorldWithin(w, g) && (answer.Ok? ==> Fair(Reply(answer.value), g))
    ensures WorldWithin(ReplyTo(w, client, answer), g)
  {
    FairDelivery(w.server, {client}, match answer case Ok(ack) => Reply(ack) case Err(e) => Exception(e), g);
  }

  lemma {:induction false} PeersAreGranted(members: seq<RoomMember>, s: string, c: string, g: Grant)
    requires forall i :: 0 <= i < |members| ==> g(c, members[i].userId)
    ensures PeersWithin(PeersOf(members, s), c, g)
  {
    if members == [] {
    } else {
      PeersAreGranted(members[..|members| - 1], s, c, g);
    }
  }

  lemma EnrolWithin(w: World, client: string, u: string, c: string, now: int, g: Grant)
    requires WorldWithin(w, g) && g(c, u)
    ensures WorldWithin(Enrol(w, client, u, c, now), g)
  {
    var m := RoomMember(client, u, now);
    JoinEnters(w.registry, c, m);
    var after := JoinRooms(w.registry, c, m);
    forall x, i | 0 <= i < |MembersOf(after, x)| ensures g(x, MembersOf(after, x)[i].userId) {
      if x == c { assert MembersOf(after, x) == Seated(MembersOf(w.registry, x), m); }
    }
    SameLogsFair(w.server, Enrol(w, client, u, c, now).server, g);
  }

  lemma AnnounceWithin(w: World, client: string, u: string, c: string, g: Grant)
    requires WorldWithin(w, g) && g(c, u)
    ensures
      var (w', ack) := Announce(w, client, u, c);
      WorldWithin(w', g) && Fair(Reply(ack), g)
  {
    FairDelivery(w.server, SocketsIn(w.server, c) - {client}, PeerJoined(c, u, client), g);
    PeersAreGranted(MembersOf(w.registry, c), client, c, g);
  }

  lemma LeaveRoomsWithin(rooms: Rooms, s: string, g: Grant)
    requires Proper(rooms) && RegistryWithin(rooms, g)
    ensures Proper(LeaveRooms(rooms, s)) && RegistryWithin(LeaveRooms(rooms, s), g)
  {
    LeaveClears(rooms, s);
    forall c, i | 0 <= i < |MembersOf(LeaveRooms(rooms, s), c)|
      ensures g(c, MembersOf(LeaveRooms(rooms, s), c)[i].userId)
    {
      var seat := Seat(MembersOf(rooms, c), s);
      assert MembersOf(LeaveRooms(rooms, s), c) == Unseated(MembersOf(rooms, c), s);
      assert MembersOf(LeaveRooms(rooms, s), c)[i] == MembersOf(rooms, c)[if seat < 0 || i < seat then i else i + 1];
    }
  }

  lemma LeaveWithin(w: World, client: string, u: string, c: string, g: Grant)
    requires WorldWithin(w, g) && g(c, u)
    ensures WorldWithin(LeaveCall(w, client, u, c), g)
  {
    LeaveRoomsWithin(w.registry, client, g);
    var exited := ExitRoom(w.server, client, c);
    SameLogsFair(w.server, exited, g);
    FairDelivery(exited, SocketsIn(exited, c) - {}, Signaling.PeerLeft(c, u, client), g);
  }

  lemma {:induction false} InvitesWithin(
      server: Server, registry: Rooms, bus: Bus, p: Invitation, to: seq<string>, g: Grant)
    requires ServerFair(server, g) && RegistryWithin(registry, g)
    requires forall u :: bus(p.callId, u).authorized ==> g(p.callId, u)
    ensures ServerFair(InviteAll(server, registry, bus, p, to), g)
    decreases |to|
  {
    if to == [] {
    } else {
      if MayAct(registry, bus, p.callId, to[0]) {
        FairDelivery(server, SocketsIn(server, UserRoom(to[0])) - {}, CallInvite(p.callId, p.from, p.kind), g);
      }
      InvitesWithin(InviteOne(server, registry, bus, p, to[0]), registry, bus, p, to[1..], g);
    }
  }

  predicate DepartureWithin(d: Departure, g: Grant) { g(d.callId, d.member.userId) }

  lemma DeparturesWithin(rooms: Rooms, s: string, g: Grant)
    requires Proper(rooms) && RegistryWithin(rooms, g)
    ensures forall i :: 0 <= i < |Departures(rooms, s)| ==> DepartureWithin(Departures(rooms, s)[i], g)
  {
    var ds := Departures(rooms, s);
    DeparturesAreExact(rooms, s);
    forall i | 0 <= i < |ds| ensures DepartureWithin(ds[i], g) {
      assert ds[i] in ds;
      assert MemberOf(rooms, ds[i].callId, s) == Some(ds[i].member);
    }
  }

  lemma {:induction false} TellingWithin(server: Server, ds: seq<Departure>, g: Grant)
    requires ServerFair(server, g) && forall i :: 0 <= i < |ds| ==> DepartureWithin(ds[i], g)
    ensures ServerFair(TellDepartures(server, ds), g)
    decreases |ds|
  {
    if ds == [] {
    } else {
      var d := ds[0];
      FairDelivery(server, SocketsIn(server, d.callId) - {},
        Signaling.PeerLeft(d.callId, d.member.userId, d.member.socketId), g);
      TellingWithin(TellDeparture(server, d), ds[1..], g);
    }
  }

  lemma DisconnectWithin(w: World, s: string, g: Grant)
    requires WorldWithin(w, g)
    ensures WorldWithin(DisconnectStep(w.(server := Disconnected(w.server, s)), s), g)
  {
    LeaveRoomsWithin(w.registry, s, g);
    DeparturesWithin(w.registry, s, g);
    SameLogsFair(w.server, Disconnected(w.server, s), g);
    TellingWithin(Disconnected(w.server, s), Departures(w.registry, s), g);
  }

  lemma RespondWithin(w: World, client: string, u: string, request: Request, bus: Bus, now: int, g: Grant)
    requires WorldWithin(w, g) && forall c, v :: bus(c, v).authorized ==> g(c, v)
    ensures
      var (w', answer) := Respond(w, client, u, request, bus, now);
      WorldWithin(w', g) && (answer.Ok? ==> Fair(Reply(answer.value), g))
  {
    if Respond(w, client, u, request, bus, now).1.Ok? {
      match request
      case PeerJoin(Some(p)) =>
        EnrolWithin(w, client, u, p.callId, now, g);
        AnnounceWithin(Enrol(w, client, u, p.callId, now), client, u, p.callId, g);
      case PeerLeave(Some(c)) =>
        LeaveWithin(w, client, u, c, g);
      case PeerReconnect(Some(c)) =>
        FairDelivery(w.server, SocketsIn(w.server, c) - {}, PeerReconnecting(c, u, client), g);
      case Invite(Some(p)) => InvitesWithin(w.server, w.registry, bus, p, p.to, g);
      case CallMessage(e, Some(c)) =>
        FairDelivery(w.server, SocketsIn(w.server, c) - {}, CallEvent(c, u, e), g);
      case Sfu(_, Some(c)) =>
    }
  }

  lemma HandleWithin(w: World, client: string, request: Request, bus: Bus, now: int, g: Grant)
    requires WorldWithin(w, g) && forall c, v :: bus(c, v).authorized ==> g(c, v)
    ensures WorldWithin(HandleStep(w, client, request, bus, now), g)
  {
    var (buckets, allowed) := FixedWindow.TryConsumeStep(w.limiter, FixedWindow.DEFAULT_OPTIONS, client, now);
    var limited, user := w.(limiter := buckets), UserOf(w.server, client);
    var (w', answer) := Handled(w, client, request, bus, now);
    if allowed && user.Some? { RespondWithin(limited, client, user.value, request, bus, now, g); }
    ReplyWithin(w', client, answer, g);
  }

  lemma AskWithin(st: State, client: string, invitation: Option<Invitation>, bus: Bus, now: int, g: Grant)
    requires Within(st, g) && forall c, v :: bus(c, v).authorized ==> g(c, v)
    ensures Within(AskStep(st, client, invitation, bus, now), g)
  {
    var (buckets, allowed) := FixedWindow.TryConsumeStep(st.world.limiter, FixedWindow.DEFAULT_OPTIONS, client, now);
    var w := st.world.(limiter := buckets);
    ReplyWithin(w, client, Err(RATE_LIMITED), g);
    ReplyWithin(w, client, Err(FORBIDDEN), g);
    ReplyWithin(w, client, Err(INVALID_PAYLOAD), g);
  }

  lemma ResumeWithin(st: State, ticket: nat, now: int, g: Grant)
    requires Within(st, g)
    ensures Within(ResumeStep(st, ticket, now), g)
  {
    if ticket in st.tickets && st.tickets[ticket].Asked? {
      var t := st.tickets[ticket];
      assert TicketWithin(t, g);
      if t.authorized || IsParticipant(st.world.registry, t.callId, t.userId) {
        EnrolWithin(st.world, t.client, t.userId, t.callId, now, g);
      } else {
        ReplyWithin(st.world, t.client, Err(FORBIDDEN), g);
      }
    }
  }

  lemma FinishWithin(st: State, ticket: nat, g: Grant)
    requires Within(st, g)
    ensures Within(FinishStep(st, ticket), g)
  {
    if ticket in st.tickets && st.tickets[ticket].Enrolled? {
      var t := st.tickets[ticket];
      assert TicketWithin(t, g);
      AnnounceWithin(st.world, t.client, t.userId, t.callId, g);
      var (w, ack) := Announce(st.world, t.client, t.userId, t.callId);
      ReplyWithin(w, t.client, Ok(ack), g);
    }
  }

  /** The bus says, during this step, that the user may act in the call. */
  predicate Authorizes(op: Op, c: string, u: string) {
    (op.Handle? || op.Ask?) && op.bus(c, u).authorized
  }

  lemma StepWithin(st: State, op: Op, g: Grant)
    requires Within(st, g) && forall c, u :: Authorizes(op, c, u) ==> g(c, u)
    ensures Within(Step(st, op), g)
  {
    match op
    case Connect(s, user) => SameLogsFair(st.world.server, Connected(st.world.server, s, user), g);
    case Disconnect(s) => DisconnectWithin(st.world, s, g);
    case Handle(client, request, bus, now) =>
      forall c, u | bus(c, u).authorized ensures g(c, u) { assert Authorizes(op, c, u); }
      HandleWithin(st.world, client, request, bus, now, g);
    case Ask(client, invitation, bus, now) =>
      forall c, u | bus(c, u).authorized ensures g(c, u) { assert Authorizes(op, c, u); }
      AskWithin(st, client, invitation, bus, now, g);
    case Resume(ticket, now) => ResumeWithin(st, ticket, now, g);
    case Finish(ticket) => FinishWithin(st, ticket, g);
  }

  ghost predicate OpsWithin(ops: seq<Op>, g: Grant) {
    forall i, c, u :: 0 <= i < |ops| && Authorizes(ops[i], c, u) ==> g(c, u)
  }

  lemma {:induction false} RunWithin(st: State, ops: seq<Op>, g: Grant)
    requires Within(st, g) && OpsWithin(ops, g)
    ensures Within(Run(st, ops), g)
    decreases |ops|
  {
    if ops == [] {
    } else {
      forall c, u | Authorizes(ops[0], c, u) ensures g(c, u) {}
      StepWithin(st, ops[0], g);
      assert OpsWithin(ops[1..], g) by {
        forall i, c, u | 0 <= i < |ops[1..]| && Authorizes(ops[1..][i], c, u) ensures g(c, u) {
          assert Authorizes(ops[i + 1], c, u);
        }
      }
      RunWithin(Step(st, ops[0]), ops[1..], g);
    }
  }

  /** The bus has authorised the user for the call at some step of the run. */
  ghost function GrantedIn(ops: seq<Op>): Grant {
    (c, u) => exists i :: 0 <= i < |ops| && Authorizes(ops[i], c, u)
  }

  /**
   The registry fallback grants nothing new: after any run, everyone in the registry, everyone whose
   call events were passed to the bus or to clients, everyone announced, and everyone listed as a
   peer was authorised for that very call by the bus during the run.
   */
  lemma FallbackGrantsNothing(ops: seq<Op>)
    ensures Within(Run(START, ops), GrantedIn(ops))
  {
    RunWithin(START, ops, GrantedIn(ops));
  }

  /** Nothing but refusals, and acknowledgements of invitations that reach nobody. */
  predicate Silent(m: Message) { m.Exception? || (m.Reply? && m.ack.Acknowledged?) }

  /** With a bus that authorises nobody the registry stays empty and no client hears of another. */
  lemma NoopBusIsSilent(ops: seq<Op>)
    requires forall i, c, u :: 0 <= i < |ops| ==> !Authorizes(ops[i], c, u)
    ensures
      var w := Run(START, ops).world;
      && w.registry == [] && w.told == []
      && forall s, i :: 0 <= i < |Got(w.server, s)| ==> Silent(Got(w.server, s)[i])
  {
    var nobody: Grant := (c, u) => false;
    RunWithin(START, ops, nobody);
    var w := Run(START, ops).world;
    if w.registry != [] { FirstRoomIsGranted(w.registry, nobody); }
    if w.told != [] { FirstToldIsGranted(w.told, nobody); }
    forall s, i | 0 <= i < |Got(w.server, s)| ensures Silent(Got(w.server, s)[i]) {
      assert LogFair(Got(w.server, s), nobody);
      assert Fair(Got(w.server, s)[i], nobody);
    }
  }

  lemma FirstRoomIsGranted(rooms: Rooms, g: Grant)
    requires rooms != [] && Proper(rooms) && RegistryWithin(rooms, g)
    ensures exists c, u :: g(c, u)
  {
    var c := rooms[0].callId;
    assert MembersOf(rooms, c) == rooms[0].members;
    assert g(c, MembersOf(rooms, c)[0].userId);
  }

  lemma FirstToldIsGranted(told: seq<BusEvent>, g: Grant)
    requires told != [] && ToldWithin(told, g)
    ensures exists c, u :: g(c, u)
  {
    assert g(told[0].callId, told[0].actor);
  }
}
