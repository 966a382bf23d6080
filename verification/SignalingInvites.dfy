/**
 Where invitations go. They are sent to the room user:<id>, which is entered only by way of a call,
 or a socket, that happens to have that name.
 */
module SignalingInvites {
  import opened Common
  import opened Registry
  import opened Signaling
  import opened SignalingRuns
  import opened SignalingViews
  import opened SignalingRooms
  import FixedWindow

  // ---------------------------------------------------------------------------------------
  // Who hears an invitation
  // ---------------------------------------------------------------------------------------

  function InvitationOf(p: Invitation): Message { CallInvite(p.callId, p.from, p.kind) }

  function Copies(m: Message, n: nat): seq<Message> { if n == 0 then [] else [m] + Copies(m, n - 1) }

  /** The invitation of this user goes out, and socket `s` is in the user's room. */
  predicate Reaches(server: Server, registry: Rooms, bus: Bus, p: Invitation, userId: string, s: string) {
    MayAct(registry, bus, p.callId, userId) && s in SocketsIn(server, UserRoom(userId))
  }

  /** How many of the invitations reach the socket. */
  function HowMany(server: Server, registry: Rooms, bus: Bus, p: Invitation, to: seq<string>, s: string): nat {
    if to == [] then 0
    else (if Reaches(server, registry, bus, p, to[0], s) then 1 else 0) + HowMany(server, registry, bus, p, to[1..], s)
  }

  lemma {:induction false} SameRoomsReach(
      a: Server, b: Server, registry: Rooms, bus: Bus, p: Invitation, to: seq<string>, s: string)
    requires b.rooms == a.rooms
    ensures HowMany(b, registry, bus, p, to, s) == HowMany(a, registry, bus, p, to, s)
  {
    if to == [] {
    } else {
      SameRoomsReach(a, b, registry, bus, p, to[1..], s);
    }
  }

  lemma OneMoreCopy(log: seq<Message>, m: Message, n: nat)
    ensures log + [m] + Copies(m, n) == log + Copies(m, n + 1)
  {
    assert Copies(m, n + 1) == [m] + Copies(m, n);
  }

  /** Each socket receives the invitation once for every permitted invitee in whose room it is, and nothing else. */
  lemma {:induction false} InvitationsHeard(
      server: Server, registry: Rooms, bus: Bus, p: Invitation, to: seq<string>, s: string)
    ensures Got(InviteAll(server, registry, bus, p, to), s)
         == Got(server, s) + Copies(InvitationOf(p), HowMany(server, registry, bus, p, to, s))
    decreases |to|
  {
    if to == [] {
    } else {
      var next := InviteOne(server, registry, bus, p, to[0]);
      InvitationsHeard(next, registry, bus, p, to[1..], s);
      SameRoomsReach(server, next, registry, bus, p, to[1..], s);
      OneMoreCopy(Got(server, s), InvitationOf(p), HowMany(server, registry, bus, p, to[1..], s));
    }
  }

  ghost predicate Invited(server: Server, registry: Rooms, bus: Bus, p: Invitation, to: seq<string>, s: string) {
    exists i :: 0 <= i < |to| && Reaches(server, registry, bus, p, to[i], s)
  }

  lemma {:induction false} SomeReach(
      server: Server, registry: Rooms, bus: Bus, p: Invitation, to: seq<string>, s: string)
    ensures HowMany(server, registry, bus, p, to, s) > 0 <==> Invited(server, registry, bus, p, to, s)
  {
    if to == [] {
    } else {
      SomeReach(server, registry, bus, p, to[1..], s);
      if Invited(server, registry, bus, p, to[1..], s) {
        var i :| 0 <= i < |to[1..]| && Reaches(server, registry, bus, p, to[1..][i], s);
        assert to[i + 1] == to[1..][i];
      }
      if Invited(server, registry, bus, p, to, s) {
        var i :| 0 <= i < |to| && Reaches(server, registry, bus, p, to[i], s);
        if i > 0 { assert to[1..][i - 1] == to[i]; }
      }
    }
  }

  /** In every state, a socket hears of an invitation if and only if it is in the room of a permitted invitee. */
  lemma InvitationHeardIff(server: Server, registry: Rooms, bus: Bus, p: Invitation, s: string)
    ensures Got(InviteAll(server, registry, bus, p, p.to), s) != Got(server, s)
       <==> Invited(server, registry, bus, p, p.to, s)
  {
    InvitationsHeard(server, registry, bus, p, p.to, s);
    SomeReach(server, registry, bus, p, p.to, s);
  }

  /** A member of a call that is named like the room of a permitted invitee, or a socket so named in that room. */
  ghost predicate Overhears(st: State, bus: Bus, p: Invitation, s: string) {
    exists i :: 0 <= i < |p.to| && MayAct(st.world.registry, bus, p.callId, p.to[i]) && Poses(st, p.to[i], s)
  }

  predicate Poses(st: State, userId: string, s: string) {
    s in Who(st, UserRoom(userId)) || (s == UserRoom(userId) && s in InRoom(st, s))
  }

  /**
   After any run in which no leave is handled for a socket that is in another call, the sockets that
   hear an invitation are the members of the calls that are named like the rooms of permitted
   invitees, and sockets so named.
   */
  lemma InvitationHearers(ops: seq<Op>, bus: Bus, p: Invitation, s: string)
    requires NeverOverstays(START, ops)
    ensures
      var w := Run(START, ops).world;
      Got(InviteAll(w.server, w.registry, bus, p, p.to), s) != Got(w.server, s)
      <==> Overhears(Run(START, ops), bus, p, s)
  {
    var st := Run(START, ops);
    BroadcastsReachMembersIff(ops);
    MatchedAtEnd(START, ops);
    RunKeepsInv(START, ops);
    assert Obeys(st, Hearing);
    PosingIsHearing(st, bus, p, s);
    InvitationHeardIff(st.world.server, st.world.registry, bus, p, s);
  }

  lemma PosingIsHearing(st: State, bus: Bus, p: Invitation, s: string)
    requires RoomsMatch(st) && MembersHear(st)
    ensures Invited(st.world.server, st.world.registry, bus, p, p.to, s) <==> Overhears(st, bus, p, s)
  {
    forall u ensures s in InRoom(st, UserRoom(u)) <==> Poses(st, u, s) {
      assert MatchAt(st, UserRoom(u), s) && (s in Who(st, UserRoom(u)) ==> s in InRoom(st, UserRoom(u)));
    }
    if Invited(st.world.server, st.world.registry, bus, p, p.to, s) {
      var i :| 0 <= i < |p.to| && Reaches(st.world.server, st.world.registry, bus, p, p.to[i], s);
      assert Poses(st, p.to[i], s);
    }
    if Overhears(st, bus, p, s) {
      var i :| 0 <= i < |p.to| && MayAct(st.world.registry, bus, p.callId, p.to[i]) && Poses(st, p.to[i], s);
      assert Reaches(st.world.server, st.world.registry, bus, p, p.to[i], s);
    }
  }

  // ---------------------------------------------------------------------------------------
  // When nobody does
  // ---------------------------------------------------------------------------------------

  /** Whatever is sent to whomever under whatever permissions, no invitation changes anything for anyone. */
  ghost predicate NobodyIsInvited(st: State) {
    forall bus: Bus, p: Invitation :: InviteAll(st.world.server, st.world.registry, bus, p, p.to) == st.world.server
  }

  ghost predicate UserRoomsEmpty(server: Server) {
    forall u :: SocketsIn(server, UserRoom(u)) == {}
  }

  lemma {:induction false} InvitesGoNowhere(server: Server, registry: Rooms, bus: Bus, p: Invitation, to: seq<string>)
    requires UserRoomsEmpty(server)
    ensures InviteAll(server, registry, bus, p, to) == server
    decreases |to|
  {
    if to == [] {
    } else {
      assert SocketsIn(server, UserRoom(to[0])) - {} == {};
      assert Deliver(server, {}, InvitationOf(p)).received == server.received;
      assert InviteOne(server, registry, bus, p, to[0]) == server;
      InvitesGoNowhere(server, registry, bus, p, to[1..]);
    }
  }

  lemma NobodyIsInvitedIff(st: State)
    ensures NobodyIsInvited(st) <==> UserRoomsEmpty(st.world.server)
  {
    var server, registry := st.world.server, st.world.registry;
    if UserRoomsEmpty(server) {
      forall bus: Bus, p: Invitation ensures InviteAll(server, registry, bus, p, p.to) == server {
        InvitesGoNowhere(server, registry, bus, p, p.to);
      }
    } else {
      var u :| SocketsIn(server, UserRoom(u)) != {};
      var s :| s in SocketsIn(server, UserRoom(u));
      var anyone: Bus, p := (callId: string, userId: string) => Auth(true, None), Invitation("c", "f", [u], Audio);
      assert Reaches(server, registry, anyone, p, p.to[0], s);
      InvitationHeardIff(server, registry, anyone, p, s);
      assert InviteAll(server, registry, anyone, p, p.to) != server;
    }
  }

  /** A name that is not that of a user's room. */
  predicate Plain(name: string) { !("user:" <= name) }

  lemma PlainIff(name: string)
    ensures !Plain(name) <==> exists u :: name == UserRoom(u)
  {
    if !Plain(name) {
      assert name == UserRoom(name[|"user:"|..]);
    }
    if u :| name == UserRoom(u) { assert "user:" <= name; }
  }

  /** A whole join that is not refused. */
  predicate JoinSucceeds(st: State, op: Op) {
    && op.Handle? && op.request.PeerJoin? && op.request.invitation.Some?
    && LimiterAdmits(st, op.client, op.now)
    && UserOf(st.world.server, op.client) == Some(op.request.invitation.value.from)
    && MayAct(st.world.registry, op.bus, op.request.invitation.value.callId, op.request.invitation.value.from)
  }

  /** The step puts a socket into a room that is named like a user's. */
  predicate EntersUserRoom(st: State, op: Op) {
    match op
    case Connect(s, _) => !Plain(s)
    case Handle(_, PeerJoin(Some(p)), _, _) => JoinSucceeds(st, op) && !Plain(p.callId)
    case Resume(ticket, _) => WillEnrol(st, ticket) && !Plain(st.tickets[ticket].callId)
    case _ => false
  }

  /** No room of a user gains a socket. */
  ghost predicate NoUserRoomGrows(a: Server, b: Server) {
    forall r :: !Plain(r) ==> SocketsIn(b, r) <= SocketsIn(a, r)
  }

  lemma FullRoom(server: Server, room: string, s: string)
    requires s in SocketsIn(server, room) && !Plain(room)
    ensures !UserRoomsEmpty(server)
  {
    PlainIff(room);
    var u :| room == UserRoom(u);
    assert SocketsIn(server, UserRoom(u)) != {};
  }

  lemma RespondGrowsNoUserRoom(w: World, client: string, u: string, request: Request, bus: Bus, now: int)
    requires
      && request.PeerJoin? && request.invitation.Some?
      && request.invitation.value.from == u && MayAct(w.registry, bus, request.invitation.value.callId, u)
      ==> Plain(request.invitation.value.callId)
    ensures NoUserRoomGrows(w.server, Respond(w, client, u, request, bus, now).0.server)
  {
    if request.Invite? && request.invitation.Some? {
      InvitesAreNeutral(w.server, w.registry, bus, request.invitation.value, request.invitation.value.to);
    }
  }

  lemma HandleGrowsNoUserRoom(st: State, op: Op)
    requires op.Handle? && !EntersUserRoom(st, op)
    ensures NoUserRoomGrows(st.world.server, Step(st, op).world.server)
  {
    var (buckets, allowed) :=
      FixedWindow.TryConsumeStep(st.world.limiter, FixedWindow.DEFAULT_OPTIONS, op.client, op.now);
    var limited, user := st.world.(limiter := buckets), UserOf(st.world.server, op.client);
    if allowed && user.Some? { RespondGrowsNoUserRoom(limited, op.client, user.value, op.request, op.bus, op.now); }
  }

  lemma DisconnectGrowsNoUserRoom(st: State, s: string)
    ensures NoUserRoomGrows(st.world.server, Step(st, Disconnect(s)).world.server)
  {
    TellingMovesNobody(Disconnected(st.world.server, s), Departures(st.world.registry, s));
  }

  lemma OtherwiseNoUserRoomGrows(st: State, op: Op)
    requires !EntersUserRoom(st, op)
    ensures NoUserRoomGrows(st.world.server, Step(st, op).world.server)
  {
    match op
    case Connect(s, user) =>
    case Disconnect(s) => DisconnectGrowsNoUserRoom(st, s);
    case Handle(_, _, _, _) => HandleGrowsNoUserRoom(st, op);
    case Ask(_, _, _, _) =>
    case Resume(_, _) =>
    case Finish(_) =>
  }

  lemma EnteringFillsUserRoom(st: State, op: Op)
    requires EntersUserRoom(st, op)
    ensures !UserRoomsEmpty(Step(st, op).world.server)
  {
    match op
    case Connect(s, user) => FullRoom(Step(st, op).world.server, s, s);
    case Handle(client, PeerJoin(Some(p)), _, _) =>
      FullRoom(Step(st, op).world.server, p.callId, client);
    case Resume(ticket, _) =>
      var t := st.tickets[ticket];
      FullRoom(Step(st, op).world.server, t.callId, t.client);
  }

  lemma StepInvitesNobodyIff(st: State, op: Op)
    requires NobodyIsInvited(st)
    ensures NobodyIsInvited(Step(st, op)) <==> !EntersUserRoom(st, op)
  {
    NobodyIsInvitedIff(st);
    NobodyIsInvitedIff(Step(st, op));
    if EntersUserRoom(st, op) {
      EnteringFillsUserRoom(st, op);
    } else {
      OtherwiseNoUserRoomGrows(st, op);
    }
  }

  ghost predicate NeverInvited(st: State, ops: seq<Op>)
    decreases |ops|
  {
    NobodyIsInvited(st) && (ops == [] || NeverInvited(Step(st, ops[0]), ops[1..]))
  }

  predicate NeverEntersUserRoom(st: State, ops: seq<Op>)
    decreases |ops|
  {
    ops == [] || (!EntersUserRoom(st, ops[0]) && NeverEntersUserRoom(Step(st, ops[0]), ops[1..]))
  }

  lemma {:induction false} RunInvitesNobodyIff(st: State, ops: seq<Op>)
    requires NobodyIsInvited(st)
    ensures NeverInvited(st, ops) <==> NeverEntersUserRoom(st, ops)
    decreases |ops|
  {
    if ops == [] {
    } else {
      StepInvitesNobodyIff(st, ops[0]);
      if !EntersUserRoom(st, ops[0]) { RunInvitesNobodyIff(Step(st, ops[0]), ops[1..]); }
    }
  }

  lemma StartInvitesNobody()
    ensures NobodyIsInvited(START)
  {
    forall u ensures SocketsIn(START.world.server, UserRoom(u)) == {} {}
    NobodyIsInvitedIff(START);
  }

  /**
   In every run, invitations reach nobody throughout, whoever is reported as delivered, if and only
   if no socket connects under, and no socket is enrolled in a call under, the name of a user's room.
   */
  lemma InvitesReachNobodyIff(ops: seq<Op>)
    ensures NeverInvited(START, ops) <==> NeverEntersUserRoom(START, ops)
  {
    StartInvitesNobody();
    RunInvitesNobodyIff(START, ops);
  }

  // ---- runs in which nothing is named like that ----

  /** No socket id, and no call that is asked for, is named like a user's room. */
  predicate PlainOp(op: Op) {
    match op
    case Connect(s, _) => Plain(s)
    case Handle(_, PeerJoin(Some(p)), _, _) => Plain(p.callId)
    case Ask(_, Some(p), _, _) => Plain(p.callId)
    case _ => true
  }

  predicate AllPlain(ops: seq<Op>) {
    forall i :: 0 <= i < |ops| ==> PlainOp(ops[i])
  }

  predicate PlainTickets(st: State) {
    forall k :: k in st.tickets ==> Plain(st.tickets[k].callId)
  }

  lemma {:induction false} PlainRunsEnterNoUserRoom(st: State, ops: seq<Op>)
    requires PlainTickets(st) && AllPlain(ops)
    ensures NeverEntersUserRoom(st, ops)
    decreases |ops|
  {
    if ops == [] {
    } else {
      PlainRunsEnterNoUserRoom(Step(st, ops[0]), ops[1..]);
    }
  }

  /** In particular nobody is invited while all sockets and calls have plain names. */
  lemma InvitesReachNobody(ops: seq<Op>)
    requires AllPlain(ops)
    ensures NeverInvited(START, ops)
  {
    PlainRunsEnterNoUserRoom(START, ops);
    InvitesReachNobodyIff(ops);
  }
}
