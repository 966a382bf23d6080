/**
 Who hears a call's broadcasts, whether members are connected, and what that means for views.
 */
module SignalingRooms {
  import opened Common
  import opened Registry
  import opened Signaling
  import opened SignalingRuns
  import opened SignalingViews

  // ---------------------------------------------------------------------------------------
  // Broadcasts reach exactly the members
  // ---------------------------------------------------------------------------------------

  /** The Socket.IO room of a call holds the call's members, and at most the socket it is named after. */
  ghost predicate RoomsMatch(st: State) {
    forall c, s :: MatchAt(st, c, s)
  }

  predicate MatchAt(st: State, c: string, s: string) {
    c != s ==> (s in InRoom(st, c) <==> s in Who(st, c))
  }

  /** A leave by a socket that is in another call: it stays in the Socket.IO room of that call. */
  ghost predicate Overstays(st: State, op: Op) {
    LeaveSucceeds(st, op) && Lingers(st, op.client, op.request.callId.value)
  }

  ghost predicate Lingers(st: State, s: string, c: string) {
    exists x :: x != c && x != s && s in Who(st, x)
  }

  lemma QuietMatches(a: State, b: State)
    requires Quiet(a, b) && RoomsMatch(a)
    ensures RoomsMatch(b)
  {
    forall c, s ensures MatchAt(b, c, s) { assert MatchAt(a, c, s) && OwnRoomAtMost(a, b, c, s); }
  }

  lemma EnrolMatches(a: State, b: State, s: string, u: string, c: string)
    requires Enrols(a, b, s, u, c) && RoomsMatch(a)
    ensures RoomsMatch(b)
  {
    forall x, t ensures MatchAt(b, x, t) { assert MatchAt(a, x, t) && EnrolsAt(a, b, s, u, c, t, x); }
  }

  lemma AnnounceMatches(a: State, b: State, s: string, u: string, c: string)
    requires Announces(a, b, s, u, c) && RoomsMatch(a)
    ensures RoomsMatch(b)
  {
    forall x, t ensures MatchAt(b, x, t) { assert MatchAt(a, x, t); }
  }

  lemma VanishMatches(a: State, b: State, s: string)
    requires Vanishes(a, b, s) && RoomsMatch(a)
    ensures RoomsMatch(b)
  {
    forall x, t ensures MatchAt(b, x, t) { assert MatchAt(a, x, t) && VanishesAt(a, b, s, t, x); }
  }

  lemma LeaveMatchesIff(a: State, b: State, s: string, c: string)
    requires Leaves(a, b, s, c) && RoomsMatch(a)
    ensures RoomsMatch(b) <==> !Lingers(a, s, c)
  {
    if Lingers(a, s, c) {
      var x :| x != c && x != s && s in Who(a, x);
      assert MatchAt(a, x, s) && LeavesAt(a, b, s, c, s, x);
      assert !MatchAt(b, x, s);
    } else {
      forall x, t ensures MatchAt(b, x, t) { assert MatchAt(a, x, t) && LeavesAt(a, b, s, c, t, x); }
    }
  }

  lemma ResumeMatches(st: State, ticket: nat, now: int)
    requires Inv(st) && RoomsMatch(st)
    ensures RoomsMatch(Step(st, Resume(ticket, now)))
  {
    assert Obeys(st, ProperTable);
    var b := Step(st, Resume(ticket, now));
    if WillEnrol(st, ticket) {
      var t := st.tickets[ticket];
      ResumeEnrols(st, ticket, now);
      EnrolMatches(st, b, t.client, t.userId, t.callId);
    } else {
      RefusalIsQuiet(st, ticket, now);
      QuietMatches(st, b);
    }
  }

  lemma FinishMatches(st: State, ticket: nat)
    requires Inv(st) && RoomsMatch(st)
    ensures RoomsMatch(Step(st, Finish(ticket)))
  {
    assert Obeys(st, ProperTable);
    var b := Step(st, Finish(ticket));
    if WillAnnounce(st, ticket) {
      var t := st.tickets[ticket];
      FinishAnnounces(st, ticket);
      AnnounceMatches(st, b, t.client, t.userId, t.callId);
    } else {
      QuietMatches(st, b);
    }
  }

  lemma AskMatches(st: State, op: Op)
    requires Inv(st) && RoomsMatch(st) && op.Ask?
    ensures RoomsMatch(Step(st, op))
  {
    assert Obeys(st, NumberedTickets);
    AskIsQuiet(st, op.client, op.invitation, op.bus, op.now);
    QuietMatches(st, Step(st, op));
  }

  lemma WholeJoinMatches(st: State, op: Op)
    requires Inv(st) && RoomsMatch(st) && op.Handle? && op.request.PeerJoin?
    ensures RoomsMatch(Step(st, op))
  {
    assert Obeys(st, NumberedTickets);
    var ask := Ask(op.client, op.request.invitation, op.bus, op.now);
    var asked := Step(st, ask);
    var resumed := Step(asked, Resume(st.next, op.now));
    SmallStep(st, ask);
    AskMatches(st, ask);
    ResumeSmallStep(asked, st.next, op.now);
    ResumeMatches(asked, st.next, op.now);
    FinishMatches(resumed, st.next);
    JoinIsItsParts(st, op.client, op.request.invitation, op.bus, op.now);
    QuietMatches(Step(resumed, Finish(st.next)), Step(st, op));
  }

  lemma StepMatchesIff(st: State, op: Op)
    requires Inv(st) && RoomsMatch(st)
    ensures RoomsMatch(Step(st, op)) <==> !Overstays(st, op)
  {
    assert Obeys(st, ProperTable);
    var b := Step(st, op);
    match op {
      case Connect(s, user) => ConnectIsQuiet(st, s, user); QuietMatches(st, b);
      case Disconnect(s) => DisconnectVanishes(st, s); VanishMatches(st, b, s);
      case Handle(client, request, _, _) =>
        if request.PeerJoin? {
          WholeJoinMatches(st, op);
        } else if LeaveSucceeds(st, op) {
          LeaveStepLeaves(st, op);
          LeaveMatchesIff(st, b, client, request.callId.value);
        } else {
          HandleIsQuiet(st, op);
          QuietMatches(st, b);
        }
      case Ask(_, _, _, _) => AskMatches(st, op);
      case Resume(ticket, now) => ResumeMatches(st, ticket, now);
      case Finish(ticket) => FinishMatches(st, ticket);
    }
  }

  ghost predicate AlwaysMatched(st: State, ops: seq<Op>)
    decreases |ops|
  {
    RoomsMatch(st) && (ops == [] || AlwaysMatched(Step(st, ops[0]), ops[1..]))
  }

  ghost predicate NeverOverstays(st: State, ops: seq<Op>)
    decreases |ops|
  {
    ops == [] || (!Overstays(st, ops[0]) && NeverOverstays(Step(st, ops[0]), ops[1..]))
  }

  lemma {:induction false} RunMatchesIff(st: State, ops: seq<Op>)
    requires Inv(st) && RoomsMatch(st)
    ensures AlwaysMatched(st, ops) <==> NeverOverstays(st, ops)
    decreases |ops|
  {
    if ops == [] {
    } else {
      StepMatchesIff(st, ops[0]);
      StepKeepsViewsIff(st, ops[0]);
      if RoomsMatch(Step(st, ops[0])) { RunMatchesIff(Step(st, ops[0]), ops[1..]); }
    }
  }

  /**
   In every run, joins interleaved or not, the sockets that hear a call's broadcasts are its members
   throughout if and only if no `peer:leave` is handled for a socket that is in another call.
   */
  lemma BroadcastsReachMembersIff(ops: seq<Op>)
    ensures AlwaysMatched(START, ops) <==> NeverOverstays(START, ops)
  {
    forall c, s ensures MatchAt(START, c, s) {}
    RunMatchesIff(START, ops);
  }

  lemma {:induction false} MatchedAtEnd(st: State, ops: seq<Op>)
    requires AlwaysMatched(st, ops)
    ensures RoomsMatch(Run(st, ops))
    decreases |ops|
  {
    if ops == [] {
    } else {
      MatchedAtEnd(Step(st, ops[0]), ops[1..]);
    }
  }

  // ---------------------------------------------------------------------------------------
  // Members are connected
  // ---------------------------------------------------------------------------------------

  ghost predicate MembersAreConnected(st: State) {
    forall c, s :: s in Who(st, c) ==> s in st.world.server.users
  }

  /** The event bus answers after the socket has gone, and the join goes on. */
  predicate EnrolsGhost(st: State, op: Op) {
    op.Resume? && WillEnrol(st, op.ticket) && st.tickets[op.ticket].client !in st.world.server.users
  }

  lemma UsersKeptByJoin(st: State, op: Op)
    requires op.Handle? && op.request.PeerJoin?
    ensures Step(st, op).world.server.users == st.world.server.users
  {
  }

  lemma UsersKept(st: State, op: Op)
    requires !op.Connect? && !op.Disconnect? && (op.Handle? ==> op.request.PeerJoin?)
    ensures Step(st, op).world.server.users == st.world.server.users
  {
    if op.Handle? { UsersKeptByJoin(st, op); }
  }

  lemma UsersAfterDisconnect(st: State, s: string)
    ensures Step(st, Disconnect(s)).world.server.users == st.world.server.users - {s}
  {
    TellingMovesNobody(Disconnected(st.world.server, s), Departures(st.world.registry, s));
  }

  lemma ConnectedAfterEnrol(a: State, b: State, s: string, u: string, c: string)
    requires Enrols(a, b, s, u, c) && MembersAreConnected(a) && b.world.server.users == a.world.server.users
    ensures MembersAreConnected(b) <==> s in a.world.server.users
  {
    forall x, t | t in Who(b, x) && (t != s || s in a.world.server.users) ensures t in b.world.server.users {
      assert EnrolsAt(a, b, s, u, c, t, x);
    }
    assert EnrolsAt(a, b, s, u, c, s, c);
  }

  lemma ConnectedAfterResume(st: State, ticket: nat, now: int)
    requires Inv(st) && MembersAreConnected(st)
    ensures MembersAreConnected(Step(st, Resume(ticket, now))) <==> !EnrolsGhost(st, Resume(ticket, now))
  {
    assert Obeys(st, ProperTable);
    UsersKept(st, Resume(ticket, now));
    if WillEnrol(st, ticket) {
      var t := st.tickets[ticket];
      ResumeEnrols(st, ticket, now);
      ConnectedAfterEnrol(st, Step(st, Resume(ticket, now)), t.client, t.userId, t.callId);
    } else {
      RefusalIsQuiet(st, ticket, now);
      SameRegistryConnected(st, Step(st, Resume(ticket, now)));
    }
  }

  lemma SameRegistryConnected(a: State, b: State)
    requires b.world.registry == a.world.registry && MembersAreConnected(a)
    requires a.world.server.users.Keys <= b.world.server.users.Keys
    ensures MembersAreConnected(b)
  {
    forall c, s | s in Who(b, c) ensures s in b.world.server.users { assert s in Who(a, c); }
  }

  lemma AskerIsConnected(st: State, op: Op)
    requires TicketsIssued(st) && op.Ask?
    ensures WillEnrol(Step(st, op), st.next) ==> Step(st, op).tickets[st.next].client in st.world.server.users
    ensures Step(st, op).world.registry == st.world.registry
  {
    assert st.next !in st.tickets;
  }

  lemma ConnectedAfterAsk(st: State, ask: Op, now: int)
    requires Inv(st) && MembersAreConnected(st) && ask.Ask?
    ensures Inv(Step(st, ask)) && MembersAreConnected(Step(st, ask))
    ensures !EnrolsGhost(Step(st, ask), Resume(st.next, now))
  {
    assert Obeys(st, NumberedTickets);
    SmallStep(st, ask);
    AskerIsConnected(st, ask);
    UsersKept(st, ask);
    SameRegistryConnected(st, Step(st, ask));
  }

  lemma ConnectedAfterFinish(st: State, ticket: nat)
    requires MembersAreConnected(st)
    ensures MembersAreConnected(Step(st, Finish(ticket)))
  {
    UsersKept(st, Finish(ticket));
    SameRegistryConnected(st, Step(st, Finish(ticket)));
  }

  lemma ConnectedAfterWholeJoin(st: State, op: Op)
    requires Inv(st) && MembersAreConnected(st) && op.Handle? && op.request.PeerJoin?
    ensures MembersAreConnected(Step(st, op))
  {
    assert Obeys(st, NumberedTickets);
    var ask := Ask(op.client, op.request.invitation, op.bus, op.now);
    var asked := Step(st, ask);
    ConnectedAfterAsk(st, ask, op.now);
    ConnectedAfterResume(asked, st.next, op.now);
    ConnectedAfterFinish(Step(asked, Resume(st.next, op.now)), st.next);
    JoinIsItsParts(st, op.client, op.request.invitation, op.bus, op.now);
    SameRegistryConnected(Step(Step(asked, Resume(st.next, op.now)), Finish(st.next)), Step(st, op));
  }

  lemma StepKeepsConnectedIff(st: State, op: Op)
    requires Inv(st) && MembersAreConnected(st)
    ensures MembersAreConnected(Step(st, op)) <==> !EnrolsGhost(st, op)
  {
    assert Obeys(st, ProperTable) && Obeys(st, NumberedTickets);
    var b := Step(st, op);
    match op {
      case Connect(s, user) => SameRegistryConnected(st, b);
      case Disconnect(s) =>
        UsersAfterDisconnect(st, s);
        forall x ensures Who(b, x) == Who(st, x) - {s} { WhoAfterLeave(st.world.registry, s, x); }
      case Handle(client, request, _, _) =>
        if request.PeerJoin? {
          ConnectedAfterWholeJoin(st, op);
        } else if LeaveSucceeds(st, op) {
          LeaveStepLeaves(st, op);
          forall x ensures Who(b, x) == Who(st, x) - {client} {
            assert LeavesAt(st, b, client, request.callId.value, client, x);
          }
        } else {
          HandleIsQuiet(st, op);
          SameRegistryConnected(st, b);
        }
      case Ask(_, _, _, _) => UsersKept(st, op); AskerIsConnected(st, op); SameRegistryConnected(st, b);
      case Resume(ticket, now) => ConnectedAfterResume(st, ticket, now);
      case Finish(ticket) => UsersKept(st, op); SameRegistryConnected(st, b);
    }
  }

  ghost predicate AlwaysConnected(st: State, ops: seq<Op>)
    decreases |ops|
  {
    MembersAreConnected(st) && (ops == [] || AlwaysConnected(Step(st, ops[0]), ops[1..]))
  }

  predicate NeverEnrolsGhost(st: State, ops: seq<Op>)
    decreases |ops|
  {
    ops == [] || (!EnrolsGhost(st, ops[0]) && NeverEnrolsGhost(Step(st, ops[0]), ops[1..]))
  }

  lemma {:induction false} RunKeepsConnectedIff(st: State, ops: seq<Op>)
    requires Inv(st) && MembersAreConnected(st)
    ensures AlwaysConnected(st, ops) <==> NeverEnrolsGhost(st, ops)
    decreases |ops|
  {
    if ops == [] {
    } else {
      StepKeepsConnectedIff(st, ops[0]);
      StepKeepsViewsIff(st, ops[0]);
      if MembersAreConnected(Step(st, ops[0])) { RunKeepsConnectedIff(Step(st, ops[0]), ops[1..]); }
    }
  }

  /**
   In every run, all members of all calls are connected sockets throughout if and only if no join
   goes on after its socket has disconnected while the event bus was asked.
   */
  lemma MembersAreConnectedIff(ops: seq<Op>)
    ensures AlwaysConnected(START, ops) <==> NeverEnrolsGhost(START, ops)
  {
    forall c ensures Who(START, c) == map[] {}
    RunKeepsConnectedIff(START, ops);
  }

  // ---------------------------------------------------------------------------------------
  // Views of connected members
  // ---------------------------------------------------------------------------------------

  /** Settled views, asked only of sockets that are connected and so do receive what is sent. */
  ghost predicate SettledAmongConnected(st: State) {
    forall t :: t in st.world.server.users ==> SettledFor(st, t)
  }

  /** A connected member is deserted or misinformed; what is sent to ghosts makes no difference. */
  ghost predicate DisturbsConnected(st: State, op: Op) {
    exists t :: t in st.world.server.users && Disturbs(st, op, t)
  }

  /** A socket connects under the identifier of a member that is no longer connected. */
  ghost predicate RevivesGhost(st: State, op: Op) {
    op.Connect? && op.socketId !in st.world.server.users && exists c :: op.socketId in Who(st, c)
  }

  function UsersAfter(users: map<string, Option<string>>, op: Op): map<string, Option<string>> {
    match op
    case Connect(s, user) => users[s := user]
    case Disconnect(s) => users - {s}
    case _ => users
  }

  lemma UsersOfStep(st: State, op: Op)
    requires Proper(st.world.registry)
    ensures Step(st, op).world.server.users == UsersAfter(st.world.server.users, op)
  {
    if op.Disconnect? {
      UsersAfterDisconnect(st, op.socketId);
    } else if op.Handle? && !op.request.PeerJoin? {
      if LeaveSucceeds(st, op) { LeaveStepLeaves(st, op); } else { HandleIsQuiet(st, op); }
    } else if !op.Connect? {
      UsersKept(st, op);
    }
  }

  lemma StepSettlesConnectedIff(st: State, op: Op)
    requires Inv(st) && SettledAmongConnected(st) && !RevivesGhost(st, op)
    ensures Inv(Step(st, op)) && (SettledAmongConnected(Step(st, op)) <==> !DisturbsConnected(st, op))
  {
    assert Obeys(st, ProperTable);
    StepUnsettlesIff(st, op);
    UsersOfStep(st, op);
    var b := Step(st, op);
    forall t | t in b.world.server.users ensures SettledFor(b, t) <==> !Disturbs(st, op, t) {
      assert SettledFor(st, t) && (Unsettles(st, b, t) <==> Disturbs(st, op, t));
    }
  }

  ghost predicate AlwaysSettledAmongConnected(st: State, ops: seq<Op>)
    decreases |ops|
  {
    SettledAmongConnected(st) && (ops == [] || AlwaysSettledAmongConnected(Step(st, ops[0]), ops[1..]))
  }

  ghost predicate ConnectedUndisturbed(st: State, ops: seq<Op>)
    decreases |ops|
  {
    ops == [] || (!DisturbsConnected(st, ops[0]) && ConnectedUndisturbed(Step(st, ops[0]), ops[1..]))
  }

  /** No socket identifier is used for a second connection while the first is still a member. */
  ghost predicate NeverRevivesGhost(st: State, ops: seq<Op>)
    decreases |ops|
  {
    ops == [] || (!RevivesGhost(st, ops[0]) && NeverRevivesGhost(Step(st, ops[0]), ops[1..]))
  }

  lemma {:induction false} RunSettlesConnectedIff(st: State, ops: seq<Op>)
    requires Inv(st) && SettledAmongConnected(st) && NeverRevivesGhost(st, ops)
    ensures AlwaysSettledAmongConnected(st, ops) <==> ConnectedUndisturbed(st, ops)
    decreases |ops|
  {
    if ops == [] {
    } else {
      StepSettlesConnectedIff(st, ops[0]);
      if SettledAmongConnected(Step(st, ops[0])) { RunSettlesConnectedIff(Step(st, ops[0]), ops[1..]); }
    }
  }

  /**
   In every run, joins interleaved and ghost members or not, the views of the connected members agree
   with the registry as far as joins have been announced, throughout, if and only if no leave
   deserts, and no announcement that comes too late reaches, a connected member.
   */
  lemma ConnectedViewsIff(ops: seq<Op>)
    requires NeverRevivesGhost(START, ops)
    ensures AlwaysSettledAmongConnected(START, ops) <==> ConnectedUndisturbed(START, ops)
  {
    RunSettlesConnectedIff(START, ops);
  }
}
