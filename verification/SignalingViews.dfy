/**
 Do the clients' views agree with the registry? Every step of a run is one of five changes, and each
 change says exactly when it keeps the agreement.
 */
module SignalingViews {
  import opened Common
  import opened Registry
  import opened Signaling
  import opened SignalingRuns
  import FixedWindow

  function Who(st: State, c: string): map<string, string> { RosterOf(st.world.registry, c) }

  function InRoom(st: State, c: string): set<string> { SocketsIn(st.world.server, c) }

  function Believes(st: State, s: string, c: string): map<string, string> { Sees(st.world.server, s, c) }

  /** The socket is enrolled in the call, but a join of it has yet to be announced. */
  ghost predicate Unannounced(st: State, s: string, c: string) {
    exists k :: k in st.tickets && IsPending(st.tickets[k], s, c)
  }

  predicate IsPending(t: Ticket, s: string, c: string) { t.Enrolled? && t.client == s && t.callId == c }

  /** Every member's view of a call is the registry's, without itself. */
  ghost predicate Converged(st: State) {
    forall c, s :: s in Who(st, c) ==> Believes(st, s, c) == Who(st, c) - {s}
  }

  predicate AgreeOn(view: map<string, string>, roster: map<string, string>, x: string) {
    (x in view <==> x in roster) && (x in view ==> view[x] == roster[x])
  }

  /** The same, as far as no announcement is outstanding for either side. */
  ghost predicate Settled(st: State) {
    forall t :: SettledFor(st, t)
  }

  /** The views of one socket are settled. */
  ghost predicate SettledFor(st: State, t: string) {
    forall c, x :: SettledAt(st, c, t, x)
  }

  ghost predicate SettledAt(st: State, c: string, t: string, x: string) {
    t in Who(st, c) && x != t && !Unannounced(st, t, c) && !Unannounced(st, x, c)
    ==> AgreeOn(Believes(st, t, c), Who(st, c), x)
  }

  ghost predicate MembersHear(st: State) {
    forall c, s :: s in Who(st, c) ==> s in InRoom(st, c)
  }

  ghost predicate NobodySeesItself(st: State) {
    forall s, c :: s !in Believes(st, s, c)
  }

  /** What holds in every state of a run. */
  datatype Law = ProperTable | NumberedTickets | Hearing | NoMirrors

  ghost predicate Obeys(st: State, law: Law) {
    var ok :=
      match law
      case ProperTable => Proper(st.world.registry)
      case NumberedTickets => TicketsIssued(st)
      case Hearing => MembersHear(st)
      case NoMirrors => NobodySeesItself(st);
    ok
  }

  ghost predicate Inv(st: State) {
    forall law: Law :: Obeys(st, law)
  }

  lemma AllLaws(st: State)
    ensures Inv(st)
       <==> Proper(st.world.registry) && TicketsIssued(st) && MembersHear(st) && NobodySeesItself(st)
  {
    assert Inv(st) ==>
        Obeys(st, ProperTable) && Obeys(st, NumberedTickets) && Obeys(st, Hearing) && Obeys(st, NoMirrors);
  }

  /** Once every join is announced, settled views are the registry's. */
  lemma QuiescentViews(st: State)
    requires NobodySeesItself(st) && forall s, c :: !Unannounced(st, s, c)
    ensures Settled(st) <==> Converged(st)
  {
    if Settled(st) {
      forall c, s | s in Who(st, c) ensures Believes(st, s, c) == Who(st, c) - {s} {
        forall x ensures AgreeOn(Believes(st, s, c), Who(st, c) - {s}, x) {
          assert s !in Believes(st, s, c);
          assert SettledFor(st, s) && SettledAt(st, c, s, x);
        }
        SameMap(Believes(st, s, c), Who(st, c) - {s});
      }
    }
    if Converged(st) {
      forall t, c, x ensures SettledAt(st, c, t, x) {
        if t in Who(st, c) { assert Believes(st, t, c) == Who(st, c) - {t}; }
      }
    }
  }

  lemma SameMap(a: map<string, string>, b: map<string, string>)
    requires forall x :: AgreeOn(a, b, x)
    ensures a == b
  {
    forall x ensures x in a <==> x in b { assert AgreeOn(a, b, x); }
    forall x | x in a ensures a[x] == b[x] { assert AgreeOn(a, b, x); }
  }

  // ---------------------------------------------------------------------------------------
  // The five changes
  // ---------------------------------------------------------------------------------------

  ghost predicate SameTickets(a: State, b: State) {
    forall s, c :: Unannounced(b, s, c) == Unannounced(a, s, c)
  }

  /** At most a socket enters the room that bears its own id. */
  predicate OwnRoomAtMost(a: State, b: State, c: string, s: string) {
    && (s in InRoom(a, c) ==> s in InRoom(b, c))
    && (s in InRoom(b, c) && s != c ==> s in InRoom(a, c))
  }

  /** Nothing that matters for the views. */
  ghost predicate Quiet(a: State, b: State) {
    var ok :=
      && b.world.registry == a.world.registry
      && (forall c, s :: OwnRoomAtMost(a, b, c, s))
      && SameViews(a.world.server, b.world.server)
      && SameTickets(a, b);
    ok
  }

  ghost predicate EnrolsAt(a: State, b: State, s: string, u: string, c: string, t: string, x: string) {
    var ok :=
      && Who(b, x) == (if x == c then Who(a, x)[s := u] else Who(a, x))
      && InRoom(b, x) == (if x == c then InRoom(a, x) + {s} else InRoom(a, x))
      && Believes(b, t, x) == Believes(a, t, x)
      && (Unannounced(b, t, x) <==> Unannounced(a, t, x) || (t == s && x == c));
    ok
  }

  ghost predicate Enrols(a: State, b: State, s: string, u: string, c: string) {
    forall t, x :: EnrolsAt(a, b, s, u, c, t, x)
  }

  function Announced(a: State, t: string, x: string, s: string, u: string, c: string): map<string, string> {
    if x != c then Believes(a, t, x)
    else if t == s then Who(a, c) - {s}
    else if t in InRoom(a, c) then Believes(a, t, c)[s := u]
    else Believes(a, t, c)
  }

  ghost predicate Announces(a: State, b: State, s: string, u: string, c: string) {
    var ok :=
      && b.world.registry == a.world.registry
      && b.world.server.rooms == a.world.server.rooms
      && (forall t, x :: Believes(b, t, x) == Announced(a, t, x, s, u, c))
      && (forall t, x :: (t != s || x != c) ==> Unannounced(b, t, x) == Unannounced(a, t, x));
    ok
  }

  ghost predicate LeavesAt(a: State, b: State, s: string, c: string, t: string, x: string) {
    var ok :=
      && Who(b, x) == Who(a, x) - {s}
      && InRoom(b, x) == (if x == c then InRoom(a, x) - {s} else InRoom(a, x))
      && Believes(b, t, x)
         == (if x == c && t != s && t in InRoom(a, x) then Believes(a, t, x) - {s} else Believes(a, t, x))
      && Unannounced(b, t, x) == Unannounced(a, t, x);
    ok
  }

  ghost predicate Leaves(a: State, b: State, s: string, c: string) {
    forall t, x :: LeavesAt(a, b, s, c, t, x)
  }

  ghost predicate VanishesAt(a: State, b: State, s: string, t: string, x: string) {
    var ok :=
      && Who(b, x) == Who(a, x) - {s}
      && InRoom(b, x) == InRoom(a, x) - {s}
      && Believes(b, t, x)
         == (if s in Who(a, x) && t != s && t in InRoom(a, x) then Believes(a, t, x) - {s} else Believes(a, t, x))
      && Unannounced(b, t, x) == Unannounced(a, t, x);
    ok
  }

  ghost predicate Vanishes(a: State, b: State, s: string) {
    forall t, x :: VanishesAt(a, b, s, t, x)
  }

  // ---- what the changes keep ----

  /** Every member hears its calls, and no socket sees itself. */
  ghost predicate IsFair(st: State) {
    var ok := MembersHear(st) && NobodySeesItself(st);
    ok
  }

  ghost predicate Unsettles(a: State, b: State, t: string) { SettledFor(a, t) && !SettledFor(b, t) }

  /** A change that keeps the invariant and unsettles nobody. */
  ghost predicate IsHarmless(a: State, b: State) {
    var ok := Inv(b) && forall t :: !Unsettles(a, b, t);
    ok
  }

  lemma QuietKeepsInv(a: State, b: State)
    requires Quiet(a, b) && IsFair(a)
    ensures IsFair(b)
  {
    forall s, c ensures s !in Believes(b, s, c) {
      assert s !in Believes(a, s, c) && Sees(b.world.server, s, c) == Sees(a.world.server, s, c);
    }
    forall c, s | s in Who(b, c) ensures s in InRoom(b, c) { assert s in Who(a, c) && OwnRoomAtMost(a, b, c, s); }
  }

  lemma QuietKeeps(a: State, b: State, t: string)
    requires Quiet(a, b)
    ensures !Unsettles(a, b, t)
  {
    if SettledFor(a, t) {
      forall c, x ensures SettledAt(b, c, t, x) {
        assert SettledAt(a, c, t, x) && Sees(b.world.server, t, c) == Sees(a.world.server, t, c);
        assert Unannounced(b, t, c) == Unannounced(a, t, c) && Unannounced(b, x, c) == Unannounced(a, x, c);
      }
    }
  }

  lemma EnrolKeepsInv(a: State, b: State, s: string, u: string, c: string)
    requires Enrols(a, b, s, u, c) && IsFair(a)
    ensures IsFair(b)
  {
    forall t, x ensures t !in Believes(b, t, x) { assert EnrolsAt(a, b, s, u, c, t, x) && t !in Believes(a, t, x); }
    forall x, t | t in Who(b, x) ensures t in InRoom(b, x) {
      assert EnrolsAt(a, b, s, u, c, t, x) && (t in Who(a, x) ==> t in InRoom(a, x));
    }
  }

  lemma EnrolKeeps(a: State, b: State, s: string, u: string, c: string, t: string)
    requires Enrols(a, b, s, u, c)
    ensures !Unsettles(a, b, t)
  {
    if SettledFor(a, t) {
      forall x, y ensures SettledAt(b, x, t, y) {
        assert SettledAt(a, x, t, y) && EnrolsAt(a, b, s, u, c, t, x) && EnrolsAt(a, b, s, u, c, y, x);
      }
    }
  }

  /** An announcement of a socket that the registry no longer has like that, heard by a settled member. */
  ghost predicate Misleads(a: State, b: State, s: string, u: string, c: string, t: string) {
    && !Unannounced(b, s, c)
    && !(s in Who(a, c) && Who(a, c)[s] == u)
    && t != s && t in Who(a, c) && !Unannounced(a, t, c)
  }

  lemma AnnounceKeepsInv(a: State, b: State, s: string, u: string, c: string)
    requires Announces(a, b, s, u, c) && IsFair(a)
    ensures IsFair(b)
  {
    forall t, x ensures t !in Believes(b, t, x) { assert t !in Believes(a, t, x); }
    forall x, t | t in Who(b, x) ensures t in InRoom(b, x) { assert t in Who(a, x); }
  }

  lemma AnnounceKeeps(a: State, b: State, s: string, u: string, c: string, t: string)
    requires Announces(a, b, s, u, c) && MembersHear(a)
    ensures Unsettles(a, b, t) <==> SettledFor(a, t) && Misleads(a, b, s, u, c, t)
  {
    if SettledFor(a, t) {
      if Misleads(a, b, s, u, c, t) {
        assert t in InRoom(a, c) && Unannounced(b, t, c) == Unannounced(a, t, c);
        assert Believes(b, t, c) == Announced(a, t, c, s, u, c);
        assert !SettledAt(b, c, t, s);
      } else {
        forall x, y ensures SettledAt(b, x, t, y) {
          assert SettledAt(a, x, t, y) && (t in Who(a, x) ==> t in InRoom(a, x));
        }
      }
    }
  }

  /** The leaving socket shares another call, fully announced on both sides, with this member. */
  ghost predicate Strands(a: State, s: string, c: string, t: string) {
    exists x :: x != c && t != s && s in Who(a, x) && t in Who(a, x) && !Unannounced(a, s, x) && !Unannounced(a, t, x)
  }

  lemma LeaveKeepsInv(a: State, b: State, s: string, c: string)
    requires Leaves(a, b, s, c) && IsFair(a)
    ensures IsFair(b)
  {
    forall t, x ensures t !in Believes(b, t, x) { assert LeavesAt(a, b, s, c, t, x) && t !in Believes(a, t, x); }
    forall x, t | t in Who(b, x) ensures t in InRoom(b, x) { assert LeavesAt(a, b, s, c, t, x) && t in Who(a, x); }
  }

  lemma LeaveBreaks(a: State, b: State, s: string, c: string, x: string, t: string)
    requires Leaves(a, b, s, c) && SettledAt(a, x, t, s)
    requires x != c && t != s && s in Who(a, x) && t in Who(a, x) && !Unannounced(a, s, x) && !Unannounced(a, t, x)
    ensures !SettledAt(b, x, t, s)
  {
    assert LeavesAt(a, b, s, c, t, x) && LeavesAt(a, b, s, c, s, x);
  }

  lemma LeaveKeeps(a: State, b: State, s: string, c: string, t: string)
    requires Leaves(a, b, s, c) && MembersHear(a)
    ensures Unsettles(a, b, t) <==> SettledFor(a, t) && Strands(a, s, c, t)
  {
    if SettledFor(a, t) {
      if Strands(a, s, c, t) {
        var x :| x != c && t != s && s in Who(a, x) && t in Who(a, x) && !Unannounced(a, s, x) && !Unannounced(a, t, x);
        assert SettledAt(a, x, t, s);
        LeaveBreaks(a, b, s, c, x, t);
      } else {
        forall x, y ensures SettledAt(b, x, t, y) {
          assert SettledAt(a, x, t, y) && (t in Who(a, x) ==> t in InRoom(a, x));
          assert LeavesAt(a, b, s, c, t, x) && LeavesAt(a, b, s, c, y, x);
        }
      }
    }
  }

  lemma VanishKeepsInv(a: State, b: State, s: string)
    requires Vanishes(a, b, s) && IsFair(a)
    ensures IsFair(b)
  {
    forall t, x ensures t !in Believes(b, t, x) { assert VanishesAt(a, b, s, t, x) && t !in Believes(a, t, x); }
    forall x, t | t in Who(b, x) ensures t in InRoom(b, x) { assert VanishesAt(a, b, s, t, x) && t in Who(a, x); }
  }

  lemma VanishKeeps(a: State, b: State, s: string, t: string)
    requires Vanishes(a, b, s) && MembersHear(a)
    ensures !Unsettles(a, b, t)
  {
    if SettledFor(a, t) {
      forall x, y ensures SettledAt(b, x, t, y) {
        assert SettledAt(a, x, t, y) && VanishesAt(a, b, s, t, x) && VanishesAt(a, b, s, y, x);
        assert t in Who(a, x) ==> t in InRoom(a, x);
      }
    }
  }

  // ---------------------------------------------------------------------------------------
  // Every step is one of the changes
  // ---------------------------------------------------------------------------------------

  lemma WhoAfterJoin(rooms: Rooms, c: string, m: RoomMember, x: string)
    requires Proper(rooms)
    ensures RosterOf(JoinRooms(rooms, c, m), x)
         == if x == c then RosterOf(rooms, x)[m.socketId := m.userId] else RosterOf(rooms, x)
  {
    JoinEnters(rooms, c, m);
    MembersAreDistinct(rooms, c);
    SeatedRoster(MembersOf(rooms, c), m);
  }

  lemma WhoAfterLeave(rooms: Rooms, s: string, x: string)
    requires Proper(rooms)
    ensures RosterOf(LeaveRooms(rooms, s), x) == RosterOf(rooms, x) - {s}
  {
    LeaveClears(rooms, s);
    MembersAreDistinct(rooms, x);
    UnseatedRoster(MembersOf(rooms, x), s);
  }

  lemma ReplyIsQuiet(st: State, w: World, client: string, answer: Answer)
    requires w.registry == st.world.registry && w.server.rooms == st.world.server.rooms
    requires SameViews(st.world.server, w.server) && (answer.Ok? ==> !answer.value.Joined?)
    ensures Quiet(st, st.(world := ReplyTo(w, client, answer)))
  {
    var b := st.(world := ReplyTo(w, client, answer));
    NeutralDelivery(w.server, {client}, match answer case Ok(ack) => Reply(ack) case Err(e) => Exception(e));
    forall s, c ensures Sees(b.world.server, s, c) == Sees(st.world.server, s, c) {
      assert Sees(w.server, s, c) == Sees(st.world.server, s, c);
    }
    forall s, c ensures Unannounced(b, s, c) == Unannounced(st, s, c) {}
    forall c, t ensures OwnRoomAtMost(st, b, c, t) {}
  }

  lemma ConnectIsQuiet(st: State, s: string, user: Option<string>)
    ensures Quiet(st, Step(st, Connect(s, user)))
  {
    var b := Step(st, Connect(s, user));
    forall t, c ensures Sees(b.world.server, t, c) == Sees(st.world.server, t, c) {
      assert Got(b.world.server, t) == Got(st.world.server, t);
    }
    forall t, c ensures Unannounced(b, t, c) == Unannounced(st, t, c) {}
    forall c, t ensures OwnRoomAtMost(st, b, c, t) {}
  }

  lemma DisconnectedAt(w: World, s: string, t: string, x: string)
    requires Proper(w.registry)
    ensures
      var w' := DisconnectStep(w.(server := Disconnected(w.server, s)), s);
      && SocketsIn(w'.server, x) == SocketsIn(w.server, x) - {s}
      && Sees(w'.server, t, x) == if s in RosterOf(w.registry, x) && t != s && t in SocketsIn(w.server, x)
                                  then Sees(w.server, t, x) - {s} else Sees(w.server, t, x)
  {
    var gone, ds := Disconnected(w.server, s), Departures(w.registry, s);
    DeparturesName(w.registry, s);
    DepartedIffMember(w.registry, s, x);
    TellingMovesNobody(gone, ds);
    DeparturesSeen(gone, ds, s, t, x);
    assert Got(gone, t) == Got(w.server, t);
  }

  lemma VanishesHere(a: State, b: State, s: string, t: string, x: string)
    requires Proper(a.world.registry) && b.tickets == a.tickets
    requires b.world == DisconnectStep(a.world.(server := Disconnected(a.world.server, s)), s)
    requires RosterOf(b.world.registry, x) == RosterOf(a.world.registry, x) - {s}
    ensures VanishesAt(a, b, s, t, x)
  {
    DisconnectedAt(a.world, s, t, x);
  }

  lemma DisconnectVanishes(st: State, s: string)
    requires Proper(st.world.registry)
    ensures Vanishes(st, Step(st, Disconnect(s)), s)
    ensures Obeys(Step(st, Disconnect(s)), ProperTable)
  {
    var b := Step(st, Disconnect(s));
    LeaveClears(st.world.registry, s);
    forall t, x ensures VanishesAt(st, b, s, t, x) {
      assert b.world.registry == LeaveRooms(st.world.registry, s);
      WhoAfterLeave(st.world.registry, s, x);
      VanishesHere(st, b, s, t, x);
    }
  }

  lemma DepartedIffMember(rooms: Rooms, s: string, c: string)
    requires Proper(rooms)
    ensures Named(Departures(rooms, s), c) <==> s in RosterOf(rooms, c)
  {
    var ds := Departures(rooms, s);
    DeparturesAreExact(rooms, s);
    RosterBySeat(MembersOf(rooms, c), s);
    if Named(ds, c) {
      var i :| 0 <= i < |ds| && ds[i].callId == c;
      assert ds[i] in ds;
    }
    if s in RosterOf(rooms, c) {
      var d := Departure(c, MemberOf(rooms, c, s).value);
      assert d in ds;
      var i :| 0 <= i < |ds| && ds[i] == d;
    }
  }

  lemma LeftAt(w: World, client: string, userId: string, c: string, t: string, x: string)
    ensures
      var w' := ReplyTo(LeaveCall(w, client, userId, c), client, Ok(Acknowledged(c)));
      && SocketsIn(w'.server, x) == (if x == c then SocketsIn(w.server, x) - {client} else SocketsIn(w.server, x))
      && Sees(w'.server, t, x) == if x == c && t != client && t in SocketsIn(w.server, x)
                                  then Sees(w.server, t, x) - {client} else Sees(w.server, t, x)
  {
    var exited, m := ExitRoom(w.server, client, c), Signaling.PeerLeft(c, userId, client);
    Delivered(exited, SocketsIn(exited, c) - {}, m, t, x);
    Delivered(Emit(exited, c, {}, m), {client}, Reply(Acknowledged(c)), t, x);
    assert Got(exited, t) == Got(w.server, t);
  }

  lemma LeavesHere(a: State, b: State, w: World, s: string, u: string, c: string, t: string, x: string)
    requires w.registry == a.world.registry && w.server == a.world.server && b.tickets == a.tickets
    requires b.world == ReplyTo(LeaveCall(w, s, u, c), s, Ok(Acknowledged(c)))
    requires RosterOf(b.world.registry, x) == RosterOf(a.world.registry, x) - {s}
    ensures LeavesAt(a, b, s, c, t, x)
  {
    LeftAt(w, s, u, c, t, x);
  }

  lemma LeaveIsLeaving(st: State, w: World, client: string, userId: string, c: string)
    requires Proper(st.world.registry) && w.registry == st.world.registry && w.server == st.world.server
    ensures
      var b := st.(world := ReplyTo(LeaveCall(w, client, userId, c), client, Ok(Acknowledged(c))));
      Leaves(st, b, client, c) && Obeys(b, ProperTable)
  {
    var b := st.(world := ReplyTo(LeaveCall(w, client, userId, c), client, Ok(Acknowledged(c))));
    LeaveClears(w.registry, client);
    forall t, x ensures LeavesAt(st, b, client, c, t, x) {
      WhoAfterLeave(w.registry, client, x);
      LeavesHere(st, b, w, client, userId, c, t, x);
    }
  }

  /** Two ticket tables that differ at one number. */
  ghost predicate SameBut(a: Tickets, b: Tickets, k: nat) {
    forall j :: j != k ==> (j in b <==> j in a) && (j in a ==> b[j] == a[j])
  }

  predicate PendingAt(tickets: Tickets, k: nat, s: string, c: string) { k in tickets && IsPending(tickets[k], s, c) }

  lemma TicketsElsewhere(a: State, b: State, k: nat, s: string, c: string)
    requires SameBut(a.tickets, b.tickets, k)
    requires PendingAt(a.tickets, k, s, c) ==> PendingAt(b.tickets, k, s, c)
    ensures Unannounced(a, s, c) ==> Unannounced(b, s, c)
  {
    if Unannounced(a, s, c) {
      var j :| j in a.tickets && IsPending(a.tickets[j], s, c);
      assert j in b.tickets && IsPending(b.tickets[j], s, c);
    }
  }

  lemma LimitedIsQuiet(st: State, buckets: FixedWindow.Buckets, client: string, reason: string)
    ensures Quiet(st, st.(world := ReplyTo(st.world.(limiter := buckets), client, Err(reason))))
  {
    var w := st.world.(limiter := buckets);
    forall s, c ensures Sees(w.server, s, c) == Sees(st.world.server, s, c) {}
    ReplyIsQuiet(st, w, client, Err(reason));
  }

  lemma IssueIsQuiet(st: State, w: World, t: Ticket)
    requires TicketsIssued(st) && t.Asked? && w.registry == st.world.registry && w.server == st.world.server
    ensures
      var b := State(w, st.tickets[st.next := t], st.next + 1);
      Quiet(st, b) && TicketsIssued(b)
  {
    var b := State(w, st.tickets[st.next := t], st.next + 1);
    assert st.next !in st.tickets;
    forall s, c ensures Unannounced(b, s, c) == Unannounced(st, s, c) {
      TicketsElsewhere(st, b, st.next, s, c);
      TicketsElsewhere(b, st, st.next, s, c);
    }
    forall s, c ensures Sees(w.server, s, c) == Sees(st.world.server, s, c) {}
  }

  lemma AskIsQuiet(st: State, client: string, invitation: Option<Invitation>, bus: Bus, now: int)
    requires TicketsIssued(st)
    ensures Quiet(st, Step(st, Ask(client, invitation, bus, now)))
    ensures TicketsIssued(Step(st, Ask(client, invitation, bus, now)))
  {
    var b := AskStep(st, client, invitation, bus, now);
    var (buckets, _) := FixedWindow.TryConsumeStep(st.world.limiter, FixedWindow.DEFAULT_OPTIONS, client, now);
    if b.next == st.next {
      LimitedIsQuiet(st, buckets, client, RATE_LIMITED);
      LimitedIsQuiet(st, buckets, client, FORBIDDEN);
      LimitedIsQuiet(st, buckets, client, INVALID_PAYLOAD);
    } else {
      IssueIsQuiet(st, b.world, b.tickets[st.next]);
    }
  }

  /** The only part of a join that enters a socket. */
  predicate WillEnrol(st: State, ticket: nat) {
    && ticket in st.tickets && st.tickets[ticket].Asked?
    && (st.tickets[ticket].authorized
        || IsParticipant(st.world.registry, st.tickets[ticket].callId, st.tickets[ticket].userId))
  }

  predicate WillAnnounce(st: State, ticket: nat) { ticket in st.tickets && st.tickets[ticket].Enrolled? }

  lemma EnrolledAt(w: World, client: string, userId: string, c: string, now: int, t: string, x: string)
    requires Proper(w.registry)
    ensures
      var w' := Enrol(w, client, userId, c, now);
      && RosterOf(w'.registry, x)
         == (if x == c then RosterOf(w.registry, x)[client := userId] else RosterOf(w.registry, x))
      && SocketsIn(w'.server, x) == (if x == c then SocketsIn(w.server, x) + {client} else SocketsIn(w.server, x))
      && Sees(w'.server, t, x) == Sees(w.server, t, x)
  {
    WhoAfterJoin(w.registry, c, RoomMember(client, userId, now), x);
    assert Got(Enrol(w, client, userId, c, now).server, t) == Got(w.server, t);
  }

  lemma EnrolledState(a: State, b: State, ticket: nat, s: string, u: string, c: string, now: int)
    requires Proper(a.world.registry) && b.world == Enrol(a.world, s, u, c, now)
    requires SameBut(a.tickets, b.tickets, ticket) && ticket in a.tickets && a.tickets[ticket].Asked?
    requires ticket in b.tickets && b.tickets[ticket] == Enrolled(s, u, c)
    ensures Enrols(a, b, s, u, c)
  {
    forall t, x ensures EnrolsAt(a, b, s, u, c, t, x) {
      EnrolledAt(a.world, s, u, c, now, t, x);
    }
  }

  lemma ResumeEnrols(st: State, ticket: nat, now: int)
    requires Proper(st.world.registry) && WillEnrol(st, ticket)
    ensures
      var t, b := st.tickets[ticket], Step(st, Resume(ticket, now));
      Enrols(st, b, t.client, t.userId, t.callId) && Obeys(b, ProperTable)
  {
    var t, b := st.tickets[ticket], Step(st, Resume(ticket, now));
    JoinEnters(st.world.registry, t.callId, RoomMember(t.client, t.userId, now));
    EnrolledState(st, b, ticket, t.client, t.userId, t.callId, now);
  }

  lemma RefusalIsQuiet(st: State, ticket: nat, now: int)
    requires !WillEnrol(st, ticket)
    ensures Quiet(st, Step(st, Resume(ticket, now)))
  {
    var b := Step(st, Resume(ticket, now));
    if b != st {
      ReplyIsQuiet(st, st.world, st.tickets[ticket].client, Err(FORBIDDEN));
      forall s, c ensures Unannounced(b, s, c) == Unannounced(st, s, c) {
        TicketsElsewhere(st, b, ticket, s, c);
        TicketsElsewhere(b, st, ticket, s, c);
      }
    }
  }

  lemma AnnouncedView(w: World, client: string, userId: string, c: string, s: string, x: string)
    requires Proper(w.registry)
    ensures
      var (w', ack) := Announce(w, client, userId, c);
      Sees(ReplyTo(w', client, Ok(ack)).server, s, x)
      == if x != c then Sees(w.server, s, x)
         else if s == client then RosterOf(w.registry, c) - {client}
         else if s in SocketsIn(w.server, c) then Sees(w.server, s, c)[client := userId]
         else Sees(w.server, s, c)
  {
    var (w', ack) := Announce(w, client, userId, c);
    MembersAreDistinct(w.registry, c);
    PeersAreRoster(MembersOf(w.registry, c), client);
    Delivered(w.server, SocketsIn(w.server, c) - {client}, PeerJoined(c, userId, client), s, x);
    Delivered(w'.server, {client}, Reply(ack), s, x);
  }

  lemma FinishAnnounces(st: State, ticket: nat)
    requires Proper(st.world.registry) && WillAnnounce(st, ticket)
    ensures
      var t := st.tickets[ticket];
      Announces(st, Step(st, Finish(ticket)), t.client, t.userId, t.callId)
  {
    var t, b := st.tickets[ticket], Step(st, Finish(ticket));
    forall s, x ensures Believes(b, s, x) == Announced(st, s, x, t.client, t.userId, t.callId) {
      AnnouncedView(st.world, t.client, t.userId, t.callId, s, x);
    }
    forall s, x | s != t.client || x != t.callId ensures Unannounced(b, s, x) == Unannounced(st, s, x) {
      TicketsElsewhere(st, b, ticket, s, x);
      TicketsElsewhere(b, st, ticket, s, x);
    }
  }

  // ---------------------------------------------------------------------------------------
  // Exactly which steps break the agreement
  // ---------------------------------------------------------------------------------------

  /** The event limiter lets the socket through. */
  predicate LimiterAdmits(st: State, client: string, now: int) {
    FixedWindow.TryConsumeStep(st.world.limiter, FixedWindow.DEFAULT_OPTIONS, client, now).1
  }

  /** A `peer:leave` that passes the limiter, the authentication and the membership test. */
  predicate LeaveSucceeds(st: State, op: Op) {
    var ok :=
      && op.Handle? && op.request.PeerLeave? && op.request.callId.Some?
      && LimiterAdmits(st, op.client, op.now)
      && UserOf(st.world.server, op.client).Some?
      && Holds(st.world.registry, op.request.callId.value, op.client, UserOf(st.world.server, op.client).value);
    ok
  }

  /** These guards are exactly what the answer depends on. */
  lemma LeaveSucceedsIffAcknowledged(st: State, op: Op)
    requires op.Handle? && op.request.PeerLeave?
    ensures LeaveSucceeds(st, op) <==> Handled(st.world, op.client, op.request, op.bus, op.now).1.Ok?
  {
  }

  /** A leave by a socket that shares another call with this member, both announced there. */
  ghost predicate DesertsMember(st: State, op: Op, t: string) {
    LeaveSucceeds(st, op) && Strands(st, op.client, op.request.callId.value, t)
  }

  ghost predicate Deserts(st: State, op: Op) {
    exists t :: DesertsMember(st, op, t)
  }

  /** Another join of the socket to the call has yet to be announced. */
  ghost predicate OtherPending(st: State, ticket: nat, s: string, c: string) {
    exists k :: k != ticket && k in st.tickets && IsPending(st.tickets[k], s, c)
  }

  /**
   An announcement that comes too late: the registry no longer has the socket in the call as that
   user, no other announcement of it is due, and this settled member of the call hears it.
   */
  ghost predicate MisinformsMember(st: State, op: Op, x: string) {
    && op.Finish? && WillAnnounce(st, op.ticket)
    && var t := st.tickets[op.ticket];
       && !OtherPending(st, op.ticket, t.client, t.callId)
       && !(t.client in Who(st, t.callId) && Who(st, t.callId)[t.client] == t.userId)
       && x != t.client && x in Who(st, t.callId) && !Unannounced(st, x, t.callId)
  }

  ghost predicate Misannounces(st: State, op: Op) {
    exists x :: MisinformsMember(st, op, x)
  }

  lemma MisinformsIffMisleads(st: State, ticket: nat, x: string)
    requires WillAnnounce(st, ticket)
    ensures
      var t := st.tickets[ticket];
      MisinformsMember(st, Finish(ticket), x)
      <==> Misleads(st, Step(st, Finish(ticket)), t.client, t.userId, t.callId, x)
  {
    var t, b := st.tickets[ticket], Step(st, Finish(ticket));
    assert b.tickets == st.tickets - {ticket};
    assert OtherPending(st, ticket, t.client, t.callId) <==> Unannounced(b, t.client, t.callId) by {
      if OtherPending(st, ticket, t.client, t.callId) {
        var k :| k != ticket && k in st.tickets && IsPending(st.tickets[k], t.client, t.callId);
        assert k in b.tickets && IsPending(b.tickets[k], t.client, t.callId);
      }
      if Unannounced(b, t.client, t.callId) {
        var k :| k in b.tickets && IsPending(b.tickets[k], t.client, t.callId);
        assert k != ticket && k in st.tickets && IsPending(st.tickets[k], t.client, t.callId);
      }
    }
  }

  lemma RespondIsNeutral(w: World, client: string, userId: string, request: Request, bus: Bus, now: int)
    requires !request.PeerJoin? && !request.PeerLeave?
    ensures
      var (w', answer) := Respond(w, client, userId, request, bus, now);
      w'.registry == w.registry && IsNeutral(w.server, w'.server) && (answer.Ok? ==> !answer.value.Joined?)
  {
    match request
    case PeerReconnect(Some(c)) =>
      NeutralDelivery(w.server, SocketsIn(w.server, c) - {}, PeerReconnecting(c, userId, client));
    case CallMessage(e, Some(c)) => NeutralDelivery(w.server, SocketsIn(w.server, c) - {}, CallEvent(c, userId, e));
    case Invite(Some(p)) => InvitesAreNeutral(w.server, w.registry, bus, p, p.to);
    case _ =>
  }

  lemma HandleIsQuiet(st: State, op: Op)
    requires op.Handle? && !op.request.PeerJoin? && !LeaveSucceeds(st, op)
    ensures Quiet(st, Step(st, op)) && Step(st, op).world.server.users == st.world.server.users
  {
    var (w', answer) := Handled(st.world, op.client, op.request, op.bus, op.now);
    if answer.Err? {
      RefusalsChangeNothing(st.world, op.client, op.request, op.bus, op.now);
      LimitedIsQuiet(st, w'.limiter, op.client, answer.error);
    } else {
      if op.request.PeerLeave? { LeaveSucceedsIffAcknowledged(st, op); }
      var (buckets, _) :=
        FixedWindow.TryConsumeStep(st.world.limiter, FixedWindow.DEFAULT_OPTIONS, op.client, op.now);
      var w := st.world.(limiter := buckets);
      RespondIsNeutral(w, op.client, UserOf(w.server, op.client).value, op.request, op.bus, op.now);
      ReplyIsQuiet(st, w', op.client, answer);
    }
  }

  lemma LeaveStepLeaves(st: State, op: Op)
    requires Proper(st.world.registry) && LeaveSucceeds(st, op)
    ensures Leaves(st, Step(st, op), op.client, op.request.callId.value) && Obeys(Step(st, op), ProperTable)
    ensures Step(st, op).world.server.users == st.world.server.users
  {
    var (buckets, allowed) :=
      FixedWindow.TryConsumeStep(st.world.limiter, FixedWindow.DEFAULT_OPTIONS, op.client, op.now);
    var w := st.world.(limiter := buckets);
    LeaveIsLeaving(st, w, op.client, UserOf(w.server, op.client).value, op.request.callId.value);
  }

  /** The steps that unsettle the views of a socket, among those it makes a difference to. */
  ghost predicate Disturbs(st: State, op: Op, t: string) { DesertsMember(st, op, t) || MisinformsMember(st, op, t) }

  /** The steps that are not a whole join: every other step is one change. */
  lemma SmallStep(st: State, op: Op)
    requires Inv(st) && (op.Handle? ==> !op.request.PeerJoin?)
    ensures Inv(Step(st, op))
    ensures forall t :: Unsettles(st, Step(st, op), t) <==> SettledFor(st, t) && Disturbs(st, op, t)
  {
    AllLaws(st);
    var b := Step(st, op);
    match op {
      case Connect(s, user) =>
        ConnectIsQuiet(st, s, user);
        QuietKeepsInv(st, b);
        forall t { QuietKeeps(st, b, t); }
      case Disconnect(s) =>
        DisconnectVanishes(st, s);
        VanishKeepsInv(st, b, s);
        forall t { VanishKeeps(st, b, s, t); }
      case Handle(_, _, _, _) => HandleSmallStep(st, op);
      case Ask(client, invitation, bus, now) =>
        AskIsQuiet(st, client, invitation, bus, now);
        QuietKeepsInv(st, b);
        forall t { QuietKeeps(st, b, t); }
      case Resume(ticket, now) => ResumeSmallStep(st, ticket, now);
      case Finish(ticket) => FinishSmallStep(st, ticket);
    }
    AllLaws(b);
  }

  lemma HandleSmallStep(st: State, op: Op)
    requires Inv(st) && op.Handle? && !op.request.PeerJoin?
    ensures Inv(Step(st, op))
    ensures forall t :: Unsettles(st, Step(st, op), t) <==> SettledFor(st, t) && DesertsMember(st, op, t)
  {
    AllLaws(st);
    var b := Step(st, op);
    if LeaveSucceeds(st, op) {
      LeaveStepLeaves(st, op);
      LeaveKeepsInv(st, b, op.client, op.request.callId.value);
      forall t { LeaveKeeps(st, b, op.client, op.request.callId.value, t); }
    } else {
      HandleIsQuiet(st, op);
      QuietKeepsInv(st, b);
      forall t { QuietKeeps(st, b, t); }
    }
    AllLaws(b);
  }

  lemma EnrolSmallStep(st: State, ticket: nat, now: int)
    requires Inv(st) && WillEnrol(st, ticket)
    ensures IsHarmless(st, Step(st, Resume(ticket, now)))
  {
    AllLaws(st);
    var t, b := st.tickets[ticket], Step(st, Resume(ticket, now));
    ResumeEnrols(st, ticket, now);
    EnrolKeepsInv(st, b, t.client, t.userId, t.callId);
    forall s { EnrolKeeps(st, b, t.client, t.userId, t.callId, s); }
    AllLaws(b);
  }

  lemma ResumeSmallStep(st: State, ticket: nat, now: int)
    requires Inv(st)
    ensures IsHarmless(st, Step(st, Resume(ticket, now)))
  {
    AllLaws(st);
    var b := Step(st, Resume(ticket, now));
    if WillEnrol(st, ticket) {
      EnrolSmallStep(st, ticket, now);
    } else {
      RefusalIsQuiet(st, ticket, now);
      QuietKeepsInv(st, b);
      forall t { QuietKeeps(st, b, t); }
    }
    AllLaws(b);
  }

  lemma FinishSmallStep(st: State, ticket: nat)
    requires Inv(st)
    ensures Inv(Step(st, Finish(ticket)))
    ensures forall t :: Unsettles(st, Step(st, Finish(ticket)), t)
                   <==> SettledFor(st, t) && MisinformsMember(st, Finish(ticket), t)
  {
    AllLaws(st);
    var b := Step(st, Finish(ticket));
    if WillAnnounce(st, ticket) {
      var t := st.tickets[ticket];
      FinishAnnounces(st, ticket);
      AnnounceKeepsInv(st, b, t.client, t.userId, t.callId);
      forall x ensures Unsettles(st, b, x) <==> SettledFor(st, x) && MisinformsMember(st, Finish(ticket), x) {
        MisinformsIffMisleads(st, ticket, x);
        AnnounceKeeps(st, b, t.client, t.userId, t.callId, x);
      }
    } else {
      QuietKeepsInv(st, b);
      forall t { QuietKeeps(st, b, t); }
    }
    AllLaws(b);
  }

  lemma EnrolledIsThere(st: State, ticket: nat, now: int)
    requires Proper(st.world.registry) && WillEnrol(st, ticket)
    ensures
      var t, b := st.tickets[ticket], Step(st, Resume(ticket, now));
      && b.tickets == st.tickets[ticket := Enrolled(t.client, t.userId, t.callId)]
      && t.client in Who(b, t.callId) && Who(b, t.callId)[t.client] == t.userId
  {
    var t := st.tickets[ticket];
    EnrolledAt(st.world, t.client, t.userId, t.callId, now, t.client, t.callId);
  }

  /** What was enrolled just before is announced in time. */
  lemma PromptAnnouncement(st: State, ticket: nat, now: int)
    requires Proper(st.world.registry) && !WillAnnounce(st, ticket)
    ensures forall x :: !MisinformsMember(Step(st, Resume(ticket, now)), Finish(ticket), x)
  {
    if WillEnrol(st, ticket) {
      EnrolledIsThere(st, ticket, now);
    }
  }

  lemma ThreeSteps(st: State, asked: State, resumed: State, parts: State)
    requires IsHarmless(st, asked) && IsHarmless(asked, resumed) && IsHarmless(resumed, parts)
    ensures IsHarmless(st, parts)
  {
    forall t ensures !Unsettles(st, parts, t) {
      assert !Unsettles(st, asked, t) && !Unsettles(asked, resumed, t) && !Unsettles(resumed, parts, t);
    }
  }

  lemma AskUnsettlesNobody(st: State, op: Op)
    requires Inv(st) && op.Ask?
    ensures IsHarmless(st, Step(st, op)) && !WillAnnounce(Step(st, op), st.next)
  {
    AllLaws(st);
    SmallStep(st, op);
    forall t ensures !Unsettles(st, Step(st, op), t) { assert !Disturbs(st, op, t); }
  }

  /** What was enrolled just before is announced without unsettling anybody. */
  lemma FinishPromptly(st: State, ticket: nat, now: int)
    requires Inv(st) && !WillAnnounce(st, ticket)
    ensures
      var resumed := Step(st, Resume(ticket, now));
      IsHarmless(resumed, Step(resumed, Finish(ticket)))
  {
    AllLaws(st);
    var resumed := Step(st, Resume(ticket, now));
    ResumeSmallStep(st, ticket, now);
    PromptAnnouncement(st, ticket, now);
    FinishSmallStep(resumed, ticket);
  }

  lemma PartsOfJoin(st: State, op: Op) returns (parts: State)
    requires Inv(st) && op.Handle? && op.request.PeerJoin?
    ensures IsSameBut(parts, Step(st, op)) && IsHarmless(st, parts)
  {
    AllLaws(st);
    var ask := Ask(op.client, op.request.invitation, op.bus, op.now);
    var asked := Step(st, ask);
    var resumed := Step(asked, Resume(st.next, op.now));
    parts := Step(resumed, Finish(st.next));
    AskUnsettlesNobody(st, ask);
    ResumeSmallStep(asked, st.next, op.now);
    FinishPromptly(asked, st.next, op.now);
    ThreeSteps(st, asked, resumed, parts);
    JoinIsItsParts(st, op.client, op.request.invitation, op.bus, op.now);
  }

  /** A whole join never unsettles anybody's views. */
  lemma WholeJoin(st: State, op: Op)
    requires Inv(st) && op.Handle? && op.request.PeerJoin?
    ensures IsHarmless(st, Step(st, op))
  {
    AllLaws(st);
    var parts := PartsOfJoin(st, op);
    AllLaws(parts);
    QuietKeepsInv(parts, Step(st, op));
    forall t ensures !Unsettles(st, Step(st, op), t) {
      QuietKeeps(parts, Step(st, op), t);
      assert !Unsettles(st, parts, t);
    }
    AllLaws(Step(st, op));
  }

  /**
   Member by member: a step unsettles the views of a socket if and only if they were settled and it
   is such a leave or such an announcement, heard by that socket.
   */
  lemma StepUnsettlesIff(st: State, op: Op)
    requires Inv(st)
    ensures Inv(Step(st, op))
    ensures forall t :: Unsettles(st, Step(st, op), t) <==> SettledFor(st, t) && Disturbs(st, op, t)
  {
    if op.Handle? && op.request.PeerJoin? { WholeJoin(st, op); } else { SmallStep(st, op); }
  }

  /**
   In every state with settled views, a step unsettles them if and only if it is such a leave or
   such an announcement.
   */
  lemma StepKeepsViewsIff(st: State, op: Op)
    requires Inv(st)
    ensures Inv(Step(st, op))
    ensures Settled(st) ==> (Settled(Step(st, op)) <==> !Deserts(st, op) && !Misannounces(st, op))
  {
    StepUnsettlesIff(st, op);
    var b := Step(st, op);
    if Settled(st) {
      forall t ensures SettledFor(b, t) <==> !DesertsMember(st, op, t) && !MisinformsMember(st, op, t) {
        assert SettledFor(st, t) && (Unsettles(st, b, t) <==> Disturbs(st, op, t));
      }
    }
  }

  // ---------------------------------------------------------------------------------------
  // Whole runs
  // ---------------------------------------------------------------------------------------

  ghost predicate AlwaysSettled(st: State, ops: seq<Op>)
    decreases |ops|
  {
    Settled(st) && (ops == [] || AlwaysSettled(Step(st, ops[0]), ops[1..]))
  }

  ghost predicate Undisturbed(st: State, ops: seq<Op>)
    decreases |ops|
  {
    ops == []
    || (!Deserts(st, ops[0]) && !Misannounces(st, ops[0]) && Undisturbed(Step(st, ops[0]), ops[1..]))
  }

  lemma {:induction false} RunKeepsViewsIff(st: State, ops: seq<Op>)
    requires Inv(st) && Settled(st)
    ensures AlwaysSettled(st, ops) <==> Undisturbed(st, ops)
    decreases |ops|
  {
    if ops == [] {
    } else {
      StepKeepsViewsIff(st, ops[0]);
      if Settled(Step(st, ops[0])) { RunKeepsViewsIff(Step(st, ops[0]), ops[1..]); }
    }
  }

  lemma {:induction false} RunKeepsInv(st: State, ops: seq<Op>)
    requires Inv(st)
    ensures Inv(Run(st, ops))
    decreases |ops|
  {
    if ops == [] {
    } else {
      StepKeepsViewsIff(st, ops[0]);
      RunKeepsInv(Step(st, ops[0]), ops[1..]);
    }
  }

  /**
   Interleaved joins: in every run of the server, the views of all members agree with the registry
   as far as joins have been announced, throughout, if and only if no leave deserts another shared
   call and no announcement comes too late.
   */
  lemma InterleavedViewsIff(ops: seq<Op>)
    ensures AlwaysSettled(START, ops) <==> Undisturbed(START, ops)
  {
    RunKeepsViewsIff(START, ops);
  }

  /** Handlers that run to their end: no join is suspended. */
  predicate Whole(op: Op) { op.Connect? || op.Disconnect? || op.Handle? }

  predicate AllWhole(ops: seq<Op>) {
    forall i :: 0 <= i < |ops| ==> Whole(ops[i])
  }

  /** The leaving socket is in another call with another member. */
  ghost predicate DesertsCall(st: State, op: Op) {
    LeaveSucceeds(st, op)
    && exists x, t :: x != op.request.callId.value && t != op.client && op.client in Who(st, x) && t in Who(st, x)
  }

  ghost predicate AlwaysConverged(st: State, ops: seq<Op>)
    decreases |ops|
  {
    Converged(st) && (ops == [] || AlwaysConverged(Step(st, ops[0]), ops[1..]))
  }

  ghost predicate NeverDeserts(st: State, ops: seq<Op>)
    decreases |ops|
  {
    ops == [] || (!DesertsCall(st, ops[0]) && NeverDeserts(Step(st, ops[0]), ops[1..]))
  }

  lemma NoTicketsNoPending(st: State)
    requires Inv(st) && st.tickets == map[]
    ensures Settled(st) <==> Converged(st)
  {
    assert Obeys(st, NoMirrors);
    forall s, c ensures !Unannounced(st, s, c) {}
    QuiescentViews(st);
  }

  lemma WholeStepKeepsViewsIff(st: State, op: Op)
    requires Inv(st) && st.tickets == map[] && Whole(op)
    ensures Inv(Step(st, op)) && Step(st, op).tickets == map[]
    ensures Converged(st) ==> (Converged(Step(st, op)) <==> !DesertsCall(st, op))
  {
    StepKeepsViewsIff(st, op);
    NoTicketsNoPending(st);
    NoTicketsNoPending(Step(st, op));
    DesertsWithoutTickets(st, op);
  }

  lemma DesertsWithoutTickets(st: State, op: Op)
    requires st.tickets == map[]
    ensures Deserts(st, op) <==> DesertsCall(st, op)
  {
    if DesertsCall(st, op) {
      var x, t :| x != op.request.callId.value && t != op.client && op.client in Who(st, x) && t in Who(st, x);
      assert DesertsMember(st, op, t);
    }
  }

  lemma {:induction false} WholeRunConvergesIff(st: State, ops: seq<Op>)
    requires Inv(st) && st.tickets == map[] && Converged(st) && AllWhole(ops)
    ensures AlwaysConverged(st, ops) <==> NeverDeserts(st, ops)
    decreases |ops|
  {
    if ops == [] {
    } else {
      WholeStepKeepsViewsIff(st, ops[0]);
      if Converged(Step(st, ops[0])) { WholeRunConvergesIff(Step(st, ops[0]), ops[1..]); }
    }
  }

  /**
   Whole handlers: in every run, each member's view of each of its calls is the registry's throughout
   if and only if no `peer:leave` is handled for a socket that is in another call with somebody.
   */
  lemma ViewsConvergeIff(ops: seq<Op>)
    requires AllWhole(ops)
    ensures AlwaysConverged(START, ops) <==> NeverDeserts(START, ops)
  {
    WholeRunConvergesIff(START, ops);
  }
}
