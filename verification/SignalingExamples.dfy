/** Families of runs of the signaling server in which something goes wrong. */
module SignalingExamples {
  import opened Common
  import opened Registry
  import opened Signaling
  import opened SignalingRuns
  import opened SignalingViews
  import opened SignalingRooms
  import opened SignalingInvites

  const ANYONE: Bus := (callId: string, userId: string) => Auth(true, Some(ActiveCall))

  function JoinRequest(userId: string, callId: string): Option<Invitation> {
    Some(Invitation(callId, userId, [userId], Audio))
  }

  function Join(client: string, userId: string, callId: string, now: int): Op {
    Handle(client, PeerJoin(JoinRequest(userId, callId)), ANYONE, now)
  }

  /** No socket has used its window in the second before `now`. */
  predicate Rested(st: State, now: int) {
    forall s :: s in st.world.limiter ==> now - st.world.limiter[s].refilledAt >= 1000
  }

  predicate IsUser(st: State, client: string, userId: string) { UserOf(st.world.server, client) == Some(userId) }

  lemma JoinChanges(st: State, client: string, userId: string, callId: string, now: int)
    requires Inv(st) && IsUser(st, client, userId) && Rested(st, now)
    ensures
      var b := Step(st, Join(client, userId, callId, now));
      && b.world.registry == JoinRooms(st.world.registry, callId, RoomMember(client, userId, now))
      && b.world.server.users == st.world.server.users && b.tickets == st.tickets && b.next == st.next
      && Rested(b, now + 1000)
  {
  }

  lemma EntryIsSeen(rooms: Rooms, callId: string, m: RoomMember, x: string)
    requires Proper(rooms)
    ensures
      var after := JoinRooms(rooms, callId, m);
      && m.socketId in RosterOf(after, callId) && RosterOf(after, callId)[m.socketId] == m.userId
      && RosterOf(rooms, x).Keys <= RosterOf(after, x).Keys
  {
    WhoAfterJoin(rooms, callId, m, callId);
    WhoAfterJoin(rooms, callId, m, x);
  }

  // ---- steps, as lemmas that hand over the next state ----

  /** Whatever happens from `b` on happens after `ops` from `st`. */
  ghost predicate Leads(st: State, ops: seq<Op>, b: State) {
    forall rest: seq<Op> :: LeadsBy(st, ops, b, rest)
  }

  ghost predicate LeadsBy(st: State, ops: seq<Op>, b: State, rest: seq<Op>) {
    && Run(st, ops + rest) == Run(b, rest)
    && (AlwaysConverged(st, ops + rest) ==> AlwaysConverged(b, rest))
    && (AlwaysMatched(st, ops + rest) ==> AlwaysMatched(b, rest))
  }

  lemma LeadsByTwo(st: State, ops: seq<Op>, b: State, more: seq<Op>, c: State, rest: seq<Op>)
    requires LeadsBy(st, ops, b, more + rest) && LeadsBy(b, more, c, rest)
    ensures LeadsBy(st, ops + more, c, rest)
  {
    assert ops + more + rest == ops + (more + rest);
  }

  lemma LeadsOn(st: State, ops: seq<Op>, b: State, more: seq<Op>, c: State)
    requires Leads(st, ops, b) && Leads(b, more, c)
    ensures Leads(st, ops + more, c)
  {
    forall rest: seq<Op> ensures LeadsBy(st, ops + more, c, rest) {
      assert LeadsBy(st, ops, b, more + rest) && LeadsBy(b, more, c, rest);
      LeadsByTwo(st, ops, b, more, c, rest);
    }
  }

  lemma LeadsTo(st: State, ops: seq<Op>, b: State)
    requires Leads(st, ops, b)
    ensures Run(st, ops) == b
  {
    assert LeadsBy(st, ops, b, []);
    assert ops + [] == ops;
  }

  lemma LeadsToDivergence(st: State, ops: seq<Op>, b: State, op: Op)
    requires Leads(st, ops, b)
    ensures !AlwaysConverged(b, [op]) ==> !AlwaysConverged(st, ops + [op])
    ensures !AlwaysMatched(b, [op]) ==> !AlwaysMatched(st, ops + [op])
  {
    assert LeadsBy(st, ops, b, [op]);
  }

  predicate Sits(st: State, client: string, userId: string, callId: string) {
    client in Who(st, callId) && Who(st, callId)[client] == userId
  }

  ghost predicate IsConnected(st: State, b: State, client: string, userId: string) {
    var ok :=
      && Leads(st, [Connect(client, Some(userId))], b)
      && Inv(b) && IsUser(b, client, userId) && b.world.registry == st.world.registry
      && b.world.limiter == st.world.limiter && b.tickets == st.tickets && b.next == st.next
      && b.world.server.users == st.world.server.users[client := Some(userId)];
    ok
  }

  lemma Connecting(st: State, client: string, userId: string) returns (b: State)
    requires Inv(st)
    ensures IsConnected(st, b, client, userId)
  {
    b := Step(st, Connect(client, Some(userId)));
    SmallStep(st, Connect(client, Some(userId)));
  }

  /** After a whole join the socket is in the call, and whoever was in call `x` still is. */
  ghost predicate HasJoined(st: State, b: State, client: string, userId: string, callId: string, now: int, x: string) {
    var ok :=
      && Leads(st, [Join(client, userId, callId, now)], b)
      && Inv(b) && Rested(b, now + 1000)
      && b.world.server.users == st.world.server.users && b.tickets == st.tickets && b.next == st.next
      && Sits(b, client, userId, callId) && Who(st, x).Keys <= Who(b, x).Keys;
    ok
  }

  lemma Joining(st: State, client: string, userId: string, callId: string, now: int, x: string) returns (b: State)
    requires Inv(st) && IsUser(st, client, userId) && Rested(st, now)
    ensures HasJoined(st, b, client, userId, callId, now, x)
  {
    assert Obeys(st, ProperTable);
    b := Step(st, Join(client, userId, callId, now));
    WholeJoin(st, Join(client, userId, callId, now));
    JoinChanges(st, client, userId, callId, now);
    EntryIsSeen(st.world.registry, callId, RoomMember(client, userId, now), x);
  }

  lemma LeaveOfMemberSucceeds(st: State, client: string, userId: string, callId: string, now: int)
    requires Inv(st) && IsUser(st, client, userId) && Rested(st, now) && Sits(st, client, userId, callId)
    ensures LeaveSucceeds(st, Handle(client, PeerLeave(Some(callId)), ANYONE, now))
  {
    RosterBySeat(MembersOf(st.world.registry, callId), client);
  }

  /** A member leaves one call while it is in another with somebody else. */
  lemma Deserting(st: State, client: string, userId: string, callId: string, now: int, other: string, t: string)
    requires Inv(st) && st.tickets == map[] && IsUser(st, client, userId) && Rested(st, now)
    requires Sits(st, client, userId, callId) && other != callId && t != client
    requires client in Who(st, other) && t in Who(st, other)
    ensures !AlwaysConverged(st, [Handle(client, PeerLeave(Some(callId)), ANYONE, now)])
  {
    var op := Handle(client, PeerLeave(Some(callId)), ANYONE, now);
    LeaveOfMemberSucceeds(st, client, userId, callId, now);
    assert DesertsCall(st, op);
    WholeStepKeepsViewsIff(st, op);
  }

  lemma LastStepMismatches(st: State, op: Op)
    requires Inv(st) && Overstays(st, op)
    ensures !AlwaysMatched(st, [op])
  {
    assert [op][0] == op && [op][1..] == [];
    if RoomsMatch(st) { StepMatchesIff(st, op); }
  }

  /** A member leaves one call while it is in another, which is not named after it. */
  lemma Overstaying(st: State, client: string, userId: string, callId: string, now: int, other: string)
    requires Inv(st) && IsUser(st, client, userId) && Rested(st, now)
    requires Sits(st, client, userId, callId) && other != callId && other != client && client in Who(st, other)
    ensures !AlwaysMatched(st, [Handle(client, PeerLeave(Some(callId)), ANYONE, now)])
  {
    var op := Handle(client, PeerLeave(Some(callId)), ANYONE, now);
    LeaveOfMemberSucceeds(st, client, userId, callId, now);
    assert Overstays(st, op);
    LastStepMismatches(st, op);
  }

  ghost predicate HasAsked(st: State, b: State, s: string, u: string, c: string, now: int) {
    var ok :=
      && Leads(st, [Ask(s, JoinRequest(u, c), ANYONE, now)], b)
      && Inv(b) && b.tickets == map[st.next := Asked(s, u, c, true)]
      && b.world.registry == st.world.registry && b.world.server == st.world.server;
    ok
  }

  lemma Asking(st: State, s: string, u: string, c: string, now: int) returns (b: State)
    requires Inv(st) && IsUser(st, s, u) && Rested(st, now) && st.tickets == map[]
    ensures HasAsked(st, b, s, u, c, now)
  {
    var op := Ask(s, JoinRequest(u, c), ANYONE, now);
    b := Step(st, op);
    SmallStep(st, op);
  }

  ghost predicate IsGone(st: State, b: State, s: string, x: string) {
    var ok :=
      && Leads(st, [Disconnect(s)], b)
      && Inv(b) && b.tickets == st.tickets && Who(b, x) == Who(st, x) - {s}
      && b.world.server.users == st.world.server.users - {s};
    ok
  }

  lemma Disconnecting(st: State, s: string, x: string) returns (b: State)
    requires Inv(st)
    ensures IsGone(st, b, s, x)
  {
    assert Obeys(st, ProperTable);
    b := Step(st, Disconnect(s));
    SmallStep(st, Disconnect(s));
    UsersAfterDisconnect(st, s);
    WhoAfterLeave(st.world.registry, s, x);
  }

  lemma ResumeEnters(st: State, ticket: nat, now: int, x: string)
    requires Proper(st.world.registry) && WillEnrol(st, ticket)
    ensures
      var t, b := st.tickets[ticket], Step(st, Resume(ticket, now));
      t.client in Who(b, t.callId) && Who(st, x).Keys <= Who(b, x).Keys
  {
    var t := st.tickets[ticket];
    EntryIsSeen(st.world.registry, t.callId, RoomMember(t.client, t.userId, now), x);
  }

  ghost predicate IsEnrolled(st: State, b: State, ticket: nat, s: string, u: string, c: string) {
    var ok :=
      && b.tickets == map[ticket := Enrolled(s, u, c)] && b.world.server.users == st.world.server.users
      && s in Who(b, c) && Who(st, c).Keys <= Who(b, c).Keys;
    ok
  }

  lemma ResumeOnly(st: State, ticket: nat, now: int, s: string, u: string, c: string)
    requires Proper(st.world.registry) && st.tickets == map[ticket := Asked(s, u, c, true)]
    ensures IsEnrolled(st, Step(st, Resume(ticket, now)), ticket, s, u, c)
  {
    ResumeEnters(st, ticket, now, c);
  }

  ghost predicate HasResumed(st: State, b: State, ticket: nat, now: int, s: string, u: string, c: string) {
    var ok := Leads(st, [Resume(ticket, now)], b) && Inv(b) && IsEnrolled(st, b, ticket, s, u, c);
    ok
  }

  lemma Resuming(st: State, ticket: nat, now: int, s: string, u: string, c: string) returns (b: State)
    requires Inv(st) && st.tickets == map[ticket := Asked(s, u, c, true)]
    ensures HasResumed(st, b, ticket, now, s, u, c)
  {
    assert Obeys(st, ProperTable);
    b := Step(st, Resume(ticket, now));
    ResumeSmallStep(st, ticket, now);
    ResumeOnly(st, ticket, now, s, u, c);
  }

  lemma FinishIsHeard(st: State, ticket: nat, t: string)
    requires Inv(st) && WillAnnounce(st, ticket)
    requires t != st.tickets[ticket].client && t in Who(st, st.tickets[ticket].callId)
    ensures
      var e, b := st.tickets[ticket], Step(st, Finish(ticket));
      e.client in Believes(b, t, e.callId) && b.world.registry == st.world.registry
  {
    AllLaws(st);
    var e, b := st.tickets[ticket], Step(st, Finish(ticket));
    FinishAnnounces(st, ticket);
    assert t in InRoom(st, e.callId);
    assert Believes(b, t, e.callId) == Announced(st, t, e.callId, e.client, e.userId, e.callId);
  }

  ghost predicate HasMisled(st: State, b: State, ticket: nat) {
    var ok := Leads(st, [Finish(ticket)], b) && b.tickets == st.tickets - {ticket} && !Converged(b);
    ok
  }

  /** The announcement of a socket that has gone, heard by another member. */
  lemma FinishingLate(st: State, ticket: nat, t: string) returns (b: State)
    requires Inv(st) && WillAnnounce(st, ticket) && t in Who(st, st.tickets[ticket].callId)
    requires st.tickets[ticket].client !in Who(st, st.tickets[ticket].callId)
    ensures HasMisled(st, b, ticket)
  {
    b := Step(st, Finish(ticket));
    FinishIsHeard(st, ticket, t);
  }

  ghost predicate AreUsers(b: State, s: string, u: string, t: string, v: string) {
    var ok :=
      && Leads(START, [Connect(s, Some(u)), Connect(t, Some(v))], b)
      && Inv(b) && IsUser(b, s, u) && IsUser(b, t, v) && Rested(b, 1000) && b.tickets == map[] && b.next == 0;
    ok
  }

  lemma TwoUsers(s: string, u: string, t: string, v: string) returns (b: State)
    requires s != t
    ensures AreUsers(b, s, u, t, v)
  {
    var a := Connecting(START, s, u);
    b := Connecting(a, t, v);
    LeadsOn(START, [Connect(s, Some(u))], a, [Connect(t, Some(v))], b);
    assert [Connect(s, Some(u))] + [Connect(t, Some(v))] == [Connect(s, Some(u)), Connect(t, Some(v))];
  }

  // ---- a leave that strands a view ----

  /** Socket `s` is in calls `a` and `b`, and socket `t` in `b`. */
  function Meeting(s: string, u: string, t: string, v: string, a: string, b: string): seq<Op> {
    [Connect(s, Some(u)), Connect(t, Some(v)), Join(s, u, b, 1000), Join(t, v, b, 2000), Join(s, u, a, 3000)]
  }

  /** Then `s` leaves `a`. */
  function Desertion(s: string, u: string, t: string, v: string, a: string, b: string): seq<Op> {
    Meeting(s, u, t, v, a, b) + [Handle(s, PeerLeave(Some(a)), ANYONE, 4000)]
  }

  ghost predicate HaveMet(st: State, s: string, u: string, t: string, v: string, a: string, b: string) {
    var ok :=
      && Leads(START, Meeting(s, u, t, v, a, b), st)
      && Inv(st) && IsUser(st, s, u) && Rested(st, 4000) && st.tickets == map[]
      && Sits(st, s, u, a) && s in Who(st, b) && t in Who(st, b);
    ok
  }

  lemma TheyMeet(s: string, u: string, t: string, v: string, a: string, b: string) returns (met: State)
    requires s != t
    ensures HaveMet(met, s, u, t, v, a, b)
  {
    var c, d := Connect(s, Some(u)), Connect(t, Some(v));
    var e, f, g := Join(s, u, b, 1000), Join(t, v, b, 2000), Join(s, u, a, 3000);
    var s1 := TwoUsers(s, u, t, v);
    var s2 := Joining(s1, s, u, b, 1000, b);
    var s3 := Joining(s2, t, v, b, 2000, b);
    assert s in Who(s3, b) && t in Who(s3, b);
    met := Joining(s3, s, u, a, 3000, b);
    LeadsOn(START, [c, d], s1, [e], s2);
    LeadsOn(START, [c, d] + [e], s2, [f], s3);
    LeadsOn(START, [c, d] + [e] + [f], s3, [g], met);
    assert [c, d] + [e] + [f] + [g] == Meeting(s, u, t, v, a, b);
  }

  /**
   The registry takes `s` out of `b` too, and `t` is not told: so `peer:leave` does break views,
   for any two sockets and any two calls.
   */
  lemma DesertionDiverges(s: string, u: string, t: string, v: string, a: string, b: string)
    requires s != t && a != b
    ensures !AlwaysConverged(START, Desertion(s, u, t, v, a, b))
  {
    var met := TheyMeet(s, u, t, v, a, b);
    Deserting(met, s, u, a, 4000, b, t);
    LeadsToDivergence(START, Meeting(s, u, t, v, a, b), met, Handle(s, PeerLeave(Some(a)), ANYONE, 4000));
  }

  /** Nor does `s` leave the Socket.IO room of `b`: it goes on hearing the broadcasts of a call it is not in. */
  lemma DesertionOverstays(s: string, u: string, t: string, v: string, a: string, b: string)
    requires s != t && a != b && b != s
    ensures !AlwaysMatched(START, Desertion(s, u, t, v, a, b))
  {
    var met := TheyMeet(s, u, t, v, a, b);
    Overstaying(met, s, u, a, 4000, b);
    LeadsToDivergence(START, Meeting(s, u, t, v, a, b), met, Handle(s, PeerLeave(Some(a)), ANYONE, 4000));
  }

  // ---- joins that are overtaken ----

  /** Socket `t` is in the call, and `s` disconnects between its entry and the announcement of it. */
  function Late(s: string, u: string, t: string, v: string, c: string): seq<Op> {
    [Connect(s, Some(u)), Connect(t, Some(v)), Join(t, v, c, 1000),
     Ask(s, JoinRequest(u, c), ANYONE, 2000), Resume(0, 2000), Disconnect(s), Finish(0)]
  }

  /**
   `t` is told that `s` joined after it was told that `s` left, and still sees it when no join is
   under way any more.
   */
  lemma LateAnnouncementDiverges(s: string, u: string, t: string, v: string, c: string)
    requires s != t
    ensures Run(START, Late(s, u, t, v, c)).tickets == map[] && !Converged(Run(START, Late(s, u, t, v, c)))
  {
    var s2 := TwoUsers(s, u, t, v);
    var s3 := Joining(s2, t, v, c, 1000, c);
    var s4 := Asking(s3, s, u, c, 2000);
    var s5 := Resuming(s4, 0, 2000, s, u, c);
    var s6 := Disconnecting(s5, s, c);
    var s7 := FinishingLate(s6, 0, t);
    LateSteps(s, u, t, v, c, s2, s3, s4, s5, s6, s7);
  }

  lemma LateSteps(
      s: string, u: string, t: string, v: string, c: string,
      s2: State, s3: State, s4: State, s5: State, s6: State, s7: State)
    requires Leads(START, [Connect(s, Some(u)), Connect(t, Some(v))], s2)
    requires Leads(s2, [Join(t, v, c, 1000)], s3) && Leads(s3, [Ask(s, JoinRequest(u, c), ANYONE, 2000)], s4)
    requires Leads(s4, [Resume(0, 2000)], s5) && Leads(s5, [Disconnect(s)], s6) && Leads(s6, [Finish(0)], s7)
    ensures Run(START, Late(s, u, t, v, c)) == s7
  {
    var d, e, f := Connect(s, Some(u)), Connect(t, Some(v)), Join(t, v, c, 1000);
    var g, h, i, j := Ask(s, JoinRequest(u, c), ANYONE, 2000), Resume(0, 2000), Disconnect(s), Finish(0);
    LeadsOn(START, [d, e], s2, [f], s3);
    LeadsOn(START, [d, e] + [f], s3, [g], s4);
    LeadsOn(START, [d, e] + [f] + [g], s4, [h], s5);
    LeadsOn(START, [d, e] + [f] + [g] + [h], s5, [i], s6);
    LeadsOn(START, [d, e] + [f] + [g] + [h] + [i], s6, [j], s7);
    LeadsTo(START, [d, e] + [f] + [g] + [h] + [i] + [j], s7);
    assert [d, e] + [f] + [g] + [h] + [i] + [j] == Late(s, u, t, v, c);
  }

  /** Socket `s` disconnects while the event bus is asked about it. */
  function Ghost(s: string, u: string, c: string): seq<Op> {
    [Connect(s, Some(u)), Ask(s, JoinRequest(u, c), ANYONE, 1000), Disconnect(s), Resume(0, 1000)]
  }

  /** The join goes on, and the registry gains a member that has disconnected already. */
  lemma GhostIsEnrolled(s: string, u: string, c: string)
    ensures
      var b := Run(START, Ghost(s, u, c));
      s in Who(b, c) && s !in b.world.server.users
  {
    var s1 := Connecting(START, s, u);
    var s2 := Asking(s1, s, u, c, 1000);
    var s3 := Disconnecting(s2, s, c);
    var s4 := Resuming(s3, 0, 1000, s, u, c);
    GhostSteps(s, u, c, s1, s2, s3, s4);
  }

  lemma GhostSteps(s: string, u: string, c: string, s1: State, s2: State, s3: State, s4: State)
    requires Leads(START, [Connect(s, Some(u))], s1) && Leads(s1, [Ask(s, JoinRequest(u, c), ANYONE, 1000)], s2)
    requires Leads(s2, [Disconnect(s)], s3) && Leads(s3, [Resume(0, 1000)], s4)
    ensures Run(START, Ghost(s, u, c)) == s4
  {
    var d, e, f, g := Connect(s, Some(u)), Ask(s, JoinRequest(u, c), ANYONE, 1000), Disconnect(s), Resume(0, 1000);
    LeadsOn(START, [d], s1, [e], s2);
    LeadsOn(START, [d] + [e], s2, [f], s3);
    LeadsOn(START, [d] + [e] + [f], s3, [g], s4);
    LeadsTo(START, [d] + [e] + [f] + [g], s4);
    assert [d] + [e] + [f] + [g] == Ghost(s, u, c);
  }

  // ---- an invitation that reaches the wrong socket ----

  /** Socket `t` joins a call that is named like the room of user `v`. */
  function Posing(t: string, u: string, v: string): seq<Op> {
    [Connect(t, Some(u)), Join(t, u, UserRoom(v), 1000)]
  }

  lemma MemberIsInRoom(st: State, s: string, c: string)
    requires Inv(st) && s in Who(st, c)
    ensures s in InRoom(st, c)
  {
    assert Obeys(st, Hearing);
  }

  /** From then on `t` receives every invitation that is sent to `v`. */
  lemma OutsiderHearsInvitation(t: string, u: string, v: string, bus: Bus, p: Invitation)
    requires p.to == [v] && bus(p.callId, v).authorized
    ensures
      var w := Run(START, Posing(t, u, v)).world;
      Got(InviteAll(w.server, w.registry, bus, p, p.to), t) == Got(w.server, t) + [InvitationOf(p)]
  {
    var s1 := Connecting(START, t, u);
    var s2 := Joining(s1, t, u, UserRoom(v), 1000, UserRoom(v));
    LeadsOn(START, [Connect(t, Some(u))], s1, [Join(t, u, UserRoom(v), 1000)], s2);
    assert [Connect(t, Some(u))] + [Join(t, u, UserRoom(v), 1000)] == Posing(t, u, v);
    LeadsTo(START, Posing(t, u, v), s2);
    MemberIsInRoom(s2, t, UserRoom(v));
  }
}
