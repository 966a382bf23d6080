/**
 Runs of the signaling gateway, and what its clients come to believe.

 Beside whole handlers a run has the three parts into which its two awaits divide `handlePeerJoin`:
 asking the event bus, enrolling in registry and room, and announcing. Any other steps may come
 between the parts of one join.
 */
module SignalingRuns {
  import opened Common
  import opened Registry
  import opened Signaling
  import FixedWindow

  datatype Op =
    | Connect(socketId: string, user: Option<string>)
    | Disconnect(socketId: string)
    | Handle(client: string, request: Request, bus: Bus, now: int)
    | Ask(client: string, invitation: Option<Invitation>, bus: Bus, now: int)
    | Resume(ticket: nat, now: int)
    | Finish(ticket: nat)

  /** A join that awaits: the answer of the event bus, or its own entry into the room. */
  datatype Ticket =
    | Asked(client: string, userId: string, callId: string, authorized: bool)
    | Enrolled(client: string, userId: string, callId: string)

  type Tickets = map<nat, Ticket>

  datatype State = State(world: World, tickets: Tickets, next: nat)

  const START := State(EMPTY, map[], 0)

  function ReplyTo(w: World, client: string, answer: Answer): World {
    w.(server := Deliver(w.server, {client}, match answer case Ok(ack) => Reply(ack) case Err(e) => Exception(e)))
  }

  function HandleStep(w: World, client: string, request: Request, bus: Bus, now: int): World {
    var (w', answer) := Handled(w, client, request, bus, now);
    ReplyTo(w', client, answer)
  }

  /** What `handlePeerJoin` does before its first await: the answer, or the join that goes on. */
  function AskStep(st: State, client: string, invitation: Option<Invitation>, bus: Bus, now: int): State {
    var (buckets, allowed) :=
      FixedWindow.TryConsumeStep(st.world.limiter, FixedWindow.DEFAULT_OPTIONS, client, now);
    var w := st.world.(limiter := buckets);
    var user := UserOf(w.server, client);
    if !allowed then st.(world := ReplyTo(w, client, Err(RATE_LIMITED)))
    else if user.None? then st.(world := ReplyTo(w, client, Err(FORBIDDEN)))
    else if invitation.None? then st.(world := ReplyTo(w, client, Err(INVALID_PAYLOAD)))
    else if invitation.value.from != user.value then st.(world := ReplyTo(w, client, Err(FORBIDDEN)))
    else
      var c := invitation.value.callId;
      State(w, st.tickets[st.next := Asked(client, user.value, c, bus(c, user.value).authorized)], st.next + 1)
  }

  function ResumeStep(st: State, ticket: nat, now: int): State {
    if ticket in st.tickets && st.tickets[ticket].Asked? then
      var t := st.tickets[ticket];
      if !t.authorized && !IsParticipant(st.world.registry, t.callId, t.userId)
      then st.(world := ReplyTo(st.world, t.client, Err(FORBIDDEN)), tickets := st.tickets - {ticket})
      else st.(world := Enrol(st.world, t.client, t.userId, t.callId, now),
               tickets := st.tickets[ticket := Enrolled(t.client, t.userId, t.callId)])
    else st
  }

  function FinishStep(st: State, ticket: nat): State {
    if ticket in st.tickets && st.tickets[ticket].Enrolled? then
      var t := st.tickets[ticket];
      var (w, ack) := Announce(st.world, t.client, t.userId, t.callId);
      st.(world := ReplyTo(w, t.client, Ok(ack)), tickets := st.tickets - {ticket})
    else st
  }

  function Step(st: State, op: Op): State {
    match op
    case Connect(s, user) => st.(world := st.world.(server := Connected(st.world.server, s, user)))
    case Disconnect(s) =>
      st.(world := DisconnectStep(st.world.(server := Disconnected(st.world.server, s)), s))
    case Handle(client, request, bus, now) => st.(world := HandleStep(st.world, client, request, bus, now))
    case Ask(client, invitation, bus, now) => AskStep(st, client, invitation, bus, now)
    case Resume(ticket, now) => ResumeStep(st, ticket, now)
    case Finish(ticket) => FinishStep(st, ticket)
  }

  function Run(st: State, ops: seq<Op>): State
    decreases |ops|
  {
    if ops == [] then st else Run(Step(st, ops[0]), ops[1..])
  }

  /** The parts of a join after the question was asked, run without interruption. */
  lemma RestOfJoin(st: State, t: Ticket, k: nat, now: int)
    requires t.Asked? && k in st.tickets && st.tickets[k] == t
    ensures
      var b := FinishStep(ResumeStep(st, k, now), k);
      && b.tickets == st.tickets - {k}
      && b.world == if t.authorized || IsParticipant(st.world.registry, t.callId, t.userId)
                    then
                      var (w, ack) :=
                        Announce(Enrol(st.world, t.client, t.userId, t.callId, now), t.client, t.userId, t.callId);
                      ReplyTo(w, t.client, Ok(ack))
                    else ReplyTo(st.world, t.client, Err(FORBIDDEN))
  {
  }

  lemma WholeAfterAsking(st: State, client: string, invitation: Option<Invitation>, bus: Bus, now: int)
    requires st.next !in st.tickets
    ensures
      var asked := AskStep(st, client, invitation, bus, now);
      var whole := HandleStep(st.world, client, PeerJoin(invitation), bus, now);
      if st.next !in asked.tickets then asked.world == whole && asked.tickets == st.tickets
      else
        var t := asked.tickets[st.next];
        t.Asked? && asked.tickets == st.tickets[st.next := t]
        && whole == if t.authorized || IsParticipant(asked.world.registry, t.callId, t.userId)
                    then
                      var (w, ack) :=
                        Announce(Enrol(asked.world, t.client, t.userId, t.callId, now), t.client, t.userId, t.callId);
                      ReplyTo(w, t.client, Ok(ack))
                    else ReplyTo(asked.world, t.client, Err(FORBIDDEN))
  {
  }

  /** The same state, apart from the number of the next ticket. */
  predicate IsSameBut(a: State, b: State) {
    var ok := b.world == a.world && b.tickets == a.tickets;
    ok
  }

  /** A whole join is its three parts in a row, whatever their outcome. */
  lemma JoinIsItsParts(st: State, client: string, invitation: Option<Invitation>, bus: Bus, now: int)
    requires TicketsIssued(st)
    ensures
      var whole := Step(st, Handle(client, PeerJoin(invitation), bus, now));
      var parts := Step(Step(Step(st, Ask(client, invitation, bus, now)), Resume(st.next, now)), Finish(st.next));
      IsSameBut(parts, whole)
  {
    var asked := AskStep(st, client, invitation, bus, now);
    assert st.next !in st.tickets;
    WholeAfterAsking(st, client, invitation, bus, now);
    if st.next in asked.tickets {
      var t := asked.tickets[st.next];
      RestOfJoin(asked, t, st.next, now);
    }
  }

  /** Only tickets already handed out are in use. */
  predicate TicketsIssued(st: State) {
    forall k :: k in st.tickets ==> k < st.next
  }

  // ---------------------------------------------------------------------------------------
  // What a client believes
  // ---------------------------------------------------------------------------------------

  /** The peers of an acknowledgement as a client stores them. */
  function Shown(peers: seq<Peer>): map<string, string> {
    if peers == [] then map[]
    else
      var n := |peers| - 1;
      Shown(peers[..n])[peers[n].socketId := peers[n].userId]
  }

  /** How one message changes what a client believes about a call. */
  function After(view: map<string, string>, m: Message, callId: string): map<string, string> {
    match m
    case Reply(Joined(c, _, peers)) => if c == callId then Shown(peers) else view
    case PeerJoined(c, userId, socketId) => if c == callId then view[socketId := userId] else view
    case PeerLeft(c, _, socketId) => if c == callId then view - {socketId} else view
    case _ => view
  }

  /** The last `peers` acknowledgement, with the joins and departures received since. */
  function View(log: seq<Message>, callId: string): map<string, string> {
    if log == [] then map[]
    else
      var n := |log| - 1;
      After(View(log[..n], callId), log[n], callId)
  }

  function Sees(server: Server, socketId: string, callId: string): map<string, string> {
    View(Got(server, socketId), callId)
  }

  lemma Delivered(server: Server, targets: set<string>, m: Message, s: string, callId: string)
    ensures Got(Deliver(server, targets, m), s) == if s in targets then Got(server, s) + [m] else Got(server, s)
    ensures Sees(Deliver(server, targets, m), s, callId)
         == if s in targets then After(Sees(server, s, callId), m, callId) else Sees(server, s, callId)
  {
  }

  /** Messages that change no view. */
  predicate Neutral(m: Message) {
    match m
    case Reply(Joined(_, _, _)) => false
    case PeerJoined(_, _, _) => false
    case PeerLeft(_, _, _) => false
    case _ => true
  }

  ghost predicate SameViews(a: Server, b: Server) {
    forall s, c :: Sees(b, s, c) == Sees(a, s, c)
  }

  /** Nothing but messages that change no view. */
  ghost predicate IsNeutral(a: Server, b: Server) {
    var ok := SameViews(a, b) && b.rooms == a.rooms && b.users == a.users;
    ok
  }

  lemma NeutralDelivery(server: Server, targets: set<string>, m: Message)
    requires Neutral(m)
    ensures SameViews(server, Deliver(server, targets, m))
  {
    forall s, c ensures Sees(Deliver(server, targets, m), s, c) == Sees(server, s, c) {
      Delivered(server, targets, m, s, c);
    }
  }

  lemma {:induction false} InvitesAreNeutral(server: Server, registry: Rooms, bus: Bus, p: Invitation, to: seq<string>)
    ensures IsNeutral(server, InviteAll(server, registry, bus, p, to))
    decreases |to|
  {
    if to == [] {
    } else {
      var next := InviteOne(server, registry, bus, p, to[0]);
      if MayAct(registry, bus, p.callId, to[0]) {
        NeutralDelivery(server, SocketsIn(server, UserRoom(to[0])) - {}, CallInvite(p.callId, p.from, p.kind));
      }
      InvitesAreNeutral(next, registry, bus, p, to[1..]);
      var after := InviteAll(server, registry, bus, p, to);
      forall s, c ensures Sees(after, s, c) == Sees(server, s, c) {
        assert Sees(after, s, c) == Sees(next, s, c);
      }
    }
  }

  predicate Named(ds: seq<Departure>, callId: string) {
    exists i :: 0 <= i < |ds| && ds[i].callId == callId
  }

  lemma {:induction false} TellingMovesNobody(server: Server, ds: seq<Departure>)
    ensures
      var after := TellDepartures(server, ds);
      after.rooms == server.rooms && after.users == server.users
    decreases |ds|
  {
    if ds == [] {
    } else {
      TellingMovesNobody(TellDeparture(server, ds[0]), ds[1..]);
    }
  }

  lemma DepartureTold(server: Server, d: Departure, t: string, c: string)
    ensures SocketsIn(TellDeparture(server, d), c) == SocketsIn(server, c)
    ensures Sees(TellDeparture(server, d), t, c)
         == if t in SocketsIn(server, c) && d.callId == c then Sees(server, t, c) - {d.member.socketId}
            else Sees(server, t, c)
  {
    Delivered(server, SocketsIn(server, d.callId) - {}, PeerLeft(d.callId, d.member.userId, d.member.socketId), t, c);
  }

  lemma {:induction false} DeparturesSeen(server: Server, ds: seq<Departure>, s: string, t: string, c: string)
    requires forall i :: 0 <= i < |ds| ==> ds[i].member.socketId == s
    ensures Sees(TellDepartures(server, ds), t, c)
         == if t in SocketsIn(server, c) && Named(ds, c) then Sees(server, t, c) - {s} else Sees(server, t, c)
    decreases |ds|
  {
    if ds == [] {
    } else {
      DepartureTold(server, ds[0], t, c);
      DeparturesSeen(TellDeparture(server, ds[0]), ds[1..], s, t, c);
    }
  }

  lemma RosterSnoc(before: seq<RoomMember>, m: RoomMember)
    requires DistinctSockets(before + [m])
    ensures DistinctSockets(before)
    ensures Roster(before + [m]) == Roster(before)[m.socketId := m.userId]
    ensures m.socketId !in Roster(before)
  {
    var all := before + [m];
    assert forall i :: 0 <= i < |before| ==> before[i] == all[i];
    assert all[|before|] == m;
    assert Seat(before, m.socketId) < 0;
    RosterBySeat(before, m.socketId);
    SeatedRoster(before, m);
  }

  lemma PeersSnoc(before: seq<RoomMember>, m: RoomMember, s: string)
    ensures Shown(PeersOf(before + [m], s))
         == if m.socketId == s then Shown(PeersOf(before, s)) else Shown(PeersOf(before, s))[m.socketId := m.userId]
  {
    assert (before + [m])[..|before|] == before;
    var peers := PeersOf(before, s);
    if m.socketId == s {
      assert PeersOf(before + [m], s) == peers;
    } else {
      var p := Peer(m.socketId, m.userId);
      assert PeersOf(before + [m], s) == peers + [p];
      assert (peers + [p])[..|peers|] == peers;
    }
  }

  lemma UpdateThenRemove(m: map<string, string>, k: string, v: string, s: string)
    ensures m[k := v] - {s} == if k == s then m - {s} else (m - {s})[k := v]
  {
  }

  lemma NobodyThere(s: string)
    ensures Shown(PeersOf([], s)) == Roster([]) - {s}
  {
  }

  /** The `peers` acknowledgement is the roster without the client itself. */
  lemma {:induction false} PeersAreRoster(members: seq<RoomMember>, s: string)
    requires DistinctSockets(members)
    ensures Shown(PeersOf(members, s)) == Roster(members) - {s}
  {
    if members == [] {
      NobodyThere(s);
    } else {
      var before, m := members[..|members| - 1], members[|members| - 1];
      assert members == before + [m];
      RosterSnoc(before, m);
      PeersSnoc(before, m, s);
      PeersAreRoster(before, s);
      UpdateThenRemove(Roster(before), m.socketId, m.userId, s);
    }
  }
}
