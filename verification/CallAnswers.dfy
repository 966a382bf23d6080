/**
 What each operation of the call service answers and does, from the state before it alone. Users are
 looked for anywhere in the list of participants, and changed wherever they are found.
 */
module CallAnswers {
  import opened Common
  import opened RoomCodes
  import opened Calls
  import opened CallRuns

  predicate TakesPart(s: State, id: string, u: string) {
    id in s.calls && exists i :: 0 <= i < |s.calls[id].participants| && s.calls[id].participants[i].userId == u
  }

  /** Whether the user takes part and has this status. */
  predicate StandsIn(s: State, id: string, u: string, status: ParticipantStatus) {
    && id in s.calls
    && exists i :: 0 <= i < |s.calls[id].participants|
         && s.calls[id].participants[i].userId == u && s.calls[id].participants[i].status == status
  }

  /** The participants with one user's entries replaced. */
  function WithUser(ps: seq<Participant>, u: string, f: Participant -> Participant): (r: seq<Participant>)
    ensures |r| == |ps| && forall i :: 0 <= i < |ps| ==> r[i] == if ps[i].userId == u then f(ps[i]) else ps[i]
  {
    seq(|ps|, i requires 0 <= i < |ps| => if ps[i].userId == u then f(ps[i]) else ps[i])
  }

  /** One call has been changed and these events recorded; codes are freed only as said. */
  ghost predicate Changes(s: State, s': State, id: string, c': CallRecord, es: seq<Event>, freed: set<string>) {
    var ok :=
      && s'.calls == s.calls[id := c'] && s'.order == s.order && s'.codeIndex == s.codeIndex - freed
      && s'.events == s.events + es && s'.nextId == s.nextId + |es|;
    ok
  }

  lemma StandsByIndex(s: State, id: string, u: string, status: ParticipantStatus)
    requires Reachable(s) && id in s.calls && TakesPart(s, id, u)
    ensures
      var ps := s.calls[id].participants;
      IndexOf(ps, u) >= 0 && (StandsIn(s, id, u, status) <==> ps[IndexOf(ps, u)].status == status)
  {
    LogsAreWords(s, id);
    var ps := s.calls[id].participants;
    var k := IndexOf(ps, u);
    forall i | 0 <= i < |ps| && ps[i].userId == u ensures i == k {
      assert ps[i].userId == ps[k].userId;
    }
  }

  lemma WithUserByIndex(s: State, id: string, u: string, f: Participant -> Participant)
    requires Reachable(s) && TakesPart(s, id, u)
    ensures
      var ps := s.calls[id].participants;
      IndexOf(ps, u) >= 0 && WithUser(ps, u, f) == ps[IndexOf(ps, u) := f(ps[IndexOf(ps, u)])]
  {
    LogsAreWords(s, id);
  }

  // ---------------------------------------------------------------------------------------
  // Invitations
  // ---------------------------------------------------------------------------------------

  /**
   `invite` answers the call if and only if nobody invites himself, the call exists and has not ended,
   and the inviter takes part; otherwise with the first complaint that applies. It adds the invitee,
   if that is new, in the name of the creator, and does nothing else.
   */
  lemma InviteIsExact(s: State, id: string, inviter: string, invitee: string, now: int)
    requires Reachable(s)
    ensures
      var (s', r) := Step(s, InviteOp(id, inviter, invitee, now));
      && r == (if inviter == invitee then Err(Conflict)
               else if id !in s.calls then Err(NotFound(id))
               else if s.calls[id].status == Ended then Err(InvalidState)
               else if !TakesPart(s, id, inviter) then Err(Forbidden)
               else Ok(id))
      && if r.Err? || TakesPart(s, id, invitee) then s' == s
         else
           var c := s.calls[id];
           Changes(s, s', id,
                   c.(participants := c.participants + [Participant(invitee, Invitee, Invited, now, None, None)]),
                   [Event(s.nextId, id, InvitedEvent, invitee, By(c.creatorId), now)], {})
  {
    ReachableObeys(s, Keys);
  }

  // ---------------------------------------------------------------------------------------
  // Entering, leaving and ending
  // ---------------------------------------------------------------------------------------

  function Entering(now: int): Participant -> Participant {
    (p: Participant) => p.(status := Joined, joinedAt := Some(now))
  }

  function Leaving(now: int): Participant -> Participant {
    (p: Participant) => p.(status := Left, leftAt := Some(now))
  }

  /** A pending call is started by whoever enters. */
  function Started(c: CallRecord, ps: seq<Participant>, now: int): CallRecord {
    if c.status == Pending then c.(participants := ps, status := Active, startedAt := Some(now))
    else c.(participants := ps)
  }

  /**
   `accept` answers the call if and only if it exists, has not ended and has the user as a
   participant. The user is then joined and the call started; nothing changes for who is joined
   already.
   */
  lemma AcceptIsExact(s: State, id: string, u: string, now: int)
    requires Reachable(s)
    ensures
      var (s', r) := Step(s, AcceptOp(id, u, now));
      && r == (if id !in s.calls then Err(NotFound(id))
               else if s.calls[id].status == Ended then Err(InvalidState)
               else if !TakesPart(s, id, u) then Err(Forbidden)
               else Ok(id))
      && if r.Err? || StandsIn(s, id, u, Joined) then s' == s
         else
           var c := s.calls[id];
           Changes(s, s', id, Started(c, WithUser(c.participants, u, Entering(now)), now),
                   [Event(s.nextId, id, AcceptedEvent, u, NoPayload, now),
                    Event(s.nextId + 1, id, JoinedEvent, u, NoPayload, now)], {})
  {
    ReachableObeys(s, Keys);
    if id in s.calls {
      if TakesPart(s, id, u) {
        StandsByIndex(s, id, u, Joined);
        WithUserByIndex(s, id, u, Entering(now));
      }
    }
  }

  /**
   `join` answers the call if and only if it exists, has not ended, and has the user as a participant
   or is open to everybody with the link, who is then added as joined and starts the call.
   */
  lemma JoinIsExact(s: State, id: string, u: string, now: int)
    requires Reachable(s)
    ensures
      var (s', r) := Step(s, JoinOp(id, u, now));
      && r == (if id !in s.calls then Err(NotFound(id))
               else if s.calls[id].status == Ended then Err(InvalidState)
               else if !TakesPart(s, id, u) && s.calls[id].visibility != Link then Err(Forbidden)
               else Ok(id))
      && if r.Err? || TakesPart(s, id, u) then s' == s
         else
           var c := s.calls[id];
           Changes(s, s', id,
                   Started(c, c.participants + [Participant(u, Invitee, Joined, now, Some(now), None)], now),
                   [Event(s.nextId, id, JoinedEvent, u, ViaLink, now)], {})
  {
    ReachableObeys(s, Keys);
  }

  /**
   `leave` answers the call if and only if it exists and has the user as a participant, whether it has
   ended or not. The user has then left; nothing changes for who has left already.
   */
  lemma LeaveIsExact(s: State, id: string, u: string, now: int)
    requires Reachable(s)
    ensures
      var (s', r) := Step(s, LeaveOp(id, u, now));
      && r == (if id !in s.calls then Err(NotFound(id)) else if !TakesPart(s, id, u) then Err(Forbidden) else Ok(id))
      && if r.Err? || StandsIn(s, id, u, Left) then s' == s
         else
           var c := s.calls[id];
           Changes(s, s', id, c.(participants := WithUser(c.participants, u, Leaving(now))),
                   [Event(s.nextId, id, LeftEvent, u, NoPayload, now)], {})
  {
    ReachableObeys(s, Keys);
    if id in s.calls {
      if TakesPart(s, id, u) {
        StandsByIndex(s, id, u, Left);
        WithUserByIndex(s, id, u, Leaving(now));
      }
    }
  }

  /**
   `end` answers the call if and only if it exists and has the user as a participant. The call has
   then ended, in the user's name, and its code is free; nothing changes for a call that has ended
   already.
   */
  lemma EndIsExact(s: State, id: string, u: string, now: int)
    requires Reachable(s)
    ensures
      var (s', r) := Step(s, EndOp(id, u, now));
      && r == (if id !in s.calls then Err(NotFound(id)) else if !TakesPart(s, id, u) then Err(Forbidden) else Ok(id))
      && if r.Err? || s.calls[id].status == Ended then s' == s
         else
           var c := s.calls[id];
           Changes(s, s', id, c.(status := Ended, endedAt := Some(now), endedBy := Some(u)),
                   [Event(s.nextId, id, EndedEvent, u, NoPayload, now)], {c.roomId})
  {
    ReachableObeys(s, Keys);
  }

  // ---------------------------------------------------------------------------------------
  // Creation
  // ---------------------------------------------------------------------------------------

  /** Where a user is first invited. */
  function FirstAt(invitees: seq<string>, u: string): (i: nat)
    ensures i < |invitees| ==> invitees[i] == u
    ensures forall k :: 0 <= k < i && k < |invitees| ==> invitees[k] != u
  {
    if invitees == [] || invitees[0] == u then 0 else FirstAt(invitees[1..], u) + 1
  }

  lemma {:induction false} FirstAtSnoc(invitees: seq<string>, x: string, u: string)
    ensures FirstAt(invitees, u) <= |invitees| && (u in invitees <==> FirstAt(invitees, u) < |invitees|)
    ensures FirstAt(invitees + [x], u)
         == if u in invitees then FirstAt(invitees, u) else if x == u then |invitees| else |invitees| + 1
  {
    if invitees == [] {
      assert ([] + [x])[1..] == [];
    } else {
      FirstAtSnoc(invitees[1..], x, u);
      assert (invitees + [x])[1..] == invitees[1..] + [x];
    }
  }

  predicate Lists(ps: seq<Participant>, u: string) { exists i :: 0 <= i < |ps| && ps[i].userId == u }

  /** The creator, and after it everybody else who is invited, once each, in the order of the first invitations. */
  ghost predicate ListsInvited(ps: seq<Participant>, creatorId: string, invitees: seq<string>, now: int) {
    var ok :=
      && ps != [] && ps[0] == Participant(creatorId, Creator, Joined, now, Some(now), None)
      && (forall u :: Lists(ps, u) <==> u == creatorId || u in invitees)
      && (forall i :: 1 <= i < |ps| ==>
            ps[i] == Participant(ps[i].userId, Invitee, Invited, now, None, None) && ps[i].userId != creatorId)
      && (forall i, j :: 1 <= i < j < |ps| ==> FirstAt(invitees, ps[i].userId) < FirstAt(invitees, ps[j].userId));
    ok
  }

  lemma InvitedAlready(ps: seq<Participant>, creatorId: string, invitees: seq<string>, x: string, now: int)
    requires ListsInvited(ps, creatorId, invitees, now) && Lists(ps, x)
    ensures ListsInvited(ps, creatorId, invitees + [x], now)
  {
    forall i | 1 <= i < |ps| ensures FirstAt(invitees + [x], ps[i].userId) == FirstAt(invitees, ps[i].userId) {
      assert Lists(ps, ps[i].userId);
      FirstAtSnoc(invitees, x, ps[i].userId);
    }
  }

  lemma InvitedNow(ps: seq<Participant>, creatorId: string, invitees: seq<string>, x: string, now: int)
    requires ListsInvited(ps, creatorId, invitees, now) && !Lists(ps, x)
    ensures ListsInvited(ps + [Participant(x, Invitee, Invited, now, None, None)], creatorId, invitees + [x], now)
  {
    var p := Participant(x, Invitee, Invited, now, None, None);
    var ps' := ps + [p];
    assert x !in invitees && x != creatorId;
    forall u ensures Lists(ps', u) <==> Lists(ps, u) || u == x {
      if Lists(ps, u) { var i :| 0 <= i < |ps| && ps[i].userId == u; assert ps'[i].userId == u; }
      assert ps'[|ps|] == p;
    }
    forall i | 1 <= i < |ps|
      ensures FirstAt(invitees + [x], ps[i].userId) == FirstAt(invitees, ps[i].userId) < |invitees|
    {
      assert Lists(ps, ps[i].userId);
      FirstAtSnoc(invitees, x, ps[i].userId);
    }
    FirstAtSnoc(invitees, x, x);
  }

  /** The events of a creation: one for the call, and one for everybody invited. */
  predicate RecordsCreation(es: seq<Event>, c: CallRecord, n: nat, now: int) {
    && |es| == |c.participants| > 0
    && es[0] == Event(n, c.id, CreatedEvent, c.creatorId, Room(c.roomId, c.visibility), now)
    && forall i :: 1 <= i < |es| ==>
         es[i] == Event(n + i, c.id, InvitedEvent, c.participants[i].userId, By(c.creatorId), now)
  }

  /** The call `c` has been created from nothing, with these invitees. */
  ghost predicate Creates(s: State, s': State, c: CallRecord, invitees: seq<string>, es: seq<Event>, now: int) {
    var ok :=
      && s' == State(s.calls[c.id := c], s.order + [c.id], s.codeIndex[c.roomId := c.id],
                     s.events + es, s.nextId + |es|)
      && ListsInvited(c.participants, c.creatorId, invitees, now) && RecordsCreation(es, c, s.nextId, now);
    ok
  }

  /** One more name on the list of invitees. */
  lemma InviteeSkipped(s: State, mid: State, c: CallRecord, invitees: seq<string>, es: seq<Event>, x: string, now: int)
    requires Creates(s, mid, c, invitees, es, now) && (x == c.creatorId || IsParticipant(c, x))
    ensures Creates(s, mid, c, invitees + [x], es, now)
  {
    assert Lists(c.participants, x) by { assert c.participants[0].userId == c.creatorId; }
    InvitedAlready(c.participants, c.creatorId, invitees, x, now);
  }

  lemma InviteeAdded(s: State, mid: State, c: CallRecord, invitees: seq<string>, es: seq<Event>, x: string, now: int)
    returns (c': CallRecord, es': seq<Event>)
    requires Creates(s, mid, c, invitees, es, now) && !IsParticipant(c, x)
    ensures c' == c.(participants := c'.participants)
    ensures Creates(s, InviteInternal(mid, c.id, x, now), c', invitees + [x], es', now)
  {
    InvitedNow(c.participants, c.creatorId, invitees, x, now);
    c' := c.(participants := c.participants + [Participant(x, Invitee, Invited, now, None, None)]);
    es' := es + [Event(s.nextId + |es|, c.id, InvitedEvent, x, By(c.creatorId), now)];
    assert s.calls[c.id := c][c.id := c'] == s.calls[c.id := c'] && s.events + es' == mid.events + es'[|es|..];
  }

  lemma {:induction false} InvitesFollow(s: State, c: CallRecord, invitees: seq<string>, now: int)
    returns (c': CallRecord, es: seq<Event>)
    requires c.id !in s.calls && c.participants == [Participant(c.creatorId, Creator, Joined, now, Some(now), None)]
    ensures c' == c.(participants := c'.participants)
    ensures Creates(s, InviteAll(Created(s, c, now), c.id, c.creatorId, invitees, now), c', invitees, es, now)
    decreases |invitees|
  {
    if invitees == [] {
      c', es := c, [Event(s.nextId, c.id, CreatedEvent, c.creatorId, Room(c.roomId, c.visibility), now)];
    } else {
      var before, x := invitees[..|invitees| - 1], invitees[|invitees| - 1];
      c', es := InvitesFollow(s, c, before, now);
      var mid := InviteAll(Created(s, c, now), c.id, c.creatorId, before, now);
      assert invitees == before + [x];
      if x == c.creatorId || IsParticipant(c', x) {
        InviteeSkipped(s, mid, c', before, es, x, now);
      } else {
        c', es := InviteeAdded(s, mid, c', before, es, x, now);
      }
    }
  }

  predicate IsFirstFree(codeIndex: map<string, string>, draws: seq<Draw>, k: int) {
    0 <= k < |draws| && !Taken(codeIndex, draws[k]) && forall j :: 0 <= j < k ==> Taken(codeIndex, draws[j])
  }

  lemma {:induction false} PicksFirstFree(codeIndex: map<string, string>, draws: seq<Draw>) returns (k: int)
    requires PickCode(codeIndex, draws).Some?
    ensures IsFirstFree(codeIndex, draws, k) && PickCode(codeIndex, draws) == Some(RoomCode(draws[k]))
  {
    if Taken(codeIndex, draws[0]) {
      var rest := draws[1..];
      var i := PicksFirstFree(codeIndex, rest);
      k := i + 1;
      assert draws[k] == rest[i];
    } else {
      k := 0;
    }
  }

  /** The call as it was asked for: pending, with the first free code and, unless said otherwise, open by link. */
  ghost predicate IsAsAsked(s: State, op: Op, c: CallRecord, k: int)
    requires op.CreateOp?
  {
    && IsFirstFree(s.codeIndex, op.draws, k)
    && c == CallRecord(op.id, RoomCode(op.draws[k]), Pending,
                       match op.visibility case Some(v) => v case None => Link,
                       op.creatorId, c.participants, op.now, None, None, None)
  }

  /**
   `createCall` fails, changing nothing, if and only if every code drawn is in the index. Otherwise it
   answers the new call: as it was asked for, with the creator and everybody invited as participants,
   in order and once each, and with the events that say so.
   */
  lemma CreateIsExact(s: State, op: Op)
    requires Legal(s, op) && op.CreateOp?
    ensures
      var (s', r) := Step(s, op);
      if forall k :: 0 <= k < |op.draws| ==> Taken(s.codeIndex, op.draws[k]) then r == Err(CodeCollision) && s' == s
      else
        && r == Ok(op.id)
        && exists c, k, es :: IsAsAsked(s, op, c, k) && Creates(s, s', c, op.invitees, es, op.now)
  {
    NoPickIff(s.codeIndex, op.draws);
    var picked := PickCode(s.codeIndex, op.draws);
    if picked.Some? {
      var k := PicksFirstFree(s.codeIndex, op.draws);
      var v := if op.visibility.Some? then op.visibility.value else Link;
      var c := NewCall(op.id, op.creatorId, v, picked.value, op.now);
      CreateWithCode(s, op.id, op.creatorId, op.invitees, op.visibility, op.draws, op.now, v, picked.value);
      var c', es := InvitesFollow(s, c, op.invitees, op.now);
      assert IsAsAsked(s, op, c', k);
    }
  }

  // ---------------------------------------------------------------------------------------
  // Listing
  // ---------------------------------------------------------------------------------------

  /** Whether a call is to be listed for a user: `None` stands for 'all'. */
  predicate IsListed(s: State, u: string, status: Option<Status>, id: string) {
    TakesPart(s, id, u) && match status case None => true case Some(st) => s.calls[id].status == st
  }

  /** Of two calls, the one created later comes first, and otherwise the one put in the table first. */
  predicate ComesFirst(s: State, a: string, b: string) {
    && a in s.calls && b in s.calls
    && (s.calls[a].createdAt > s.calls[b].createdAt
        || (s.calls[a].createdAt == s.calls[b].createdAt && StableSort.Precedes(s.order, a, b)))
  }

  lemma TwicePresent(ids: seq<string>, i: nat, j: nat)
    requires i < j < |ids| && ids[i] == ids[j]
    ensures multiset(ids)[ids[i]] >= 2
  {
    assert ids == ids[..j] + ids[j..] && ids[..j][i] == ids[i] && ids[j..][0] == ids[i];
    assert ids[i] in multiset(ids[..j]) && ids[i] in multiset(ids[j..]);
  }

  lemma ListedInOrder(s: State, u: string, status: Option<Status>, i: nat, j: nat)
    requires Reachable(s) && i < j < |ListForUser(s, u, status)|
    ensures var ids := ListForUser(s, u, status); ids[i] != ids[j] && ComesFirst(s, ids[i], ids[j])
  {
    ReachableObeys(s, Order);
    var p, chosen, ids := Selector(s, u, status), Selected(s, u, status), ListForUser(s, u, status);
    ListingIsStableSort(s, u, status);
    StableSort.FilterOnce(s.order, p);
    if ids[i] == ids[j] { TwicePresent(ids, i, j); }
    assert ids[i] in multiset(ids) && ids[j] in multiset(ids);
    StableSort.FilterMember(s.order, p, ids[i]);
    StableSort.FilterMember(s.order, p, ids[j]);
    if s.calls[ids[i]].createdAt == s.calls[ids[j]].createdAt {
      assert StableSort.Precedes(ids, ids[i], ids[j]);
      StableSort.TiesKeepOrder(chosen, ids, CreatedAt(s), ids[i], ids[j]);
      StableSort.FilterPrecedes(s.order, p, ids[i], ids[j]);
    }
  }

  /**
   `listForUser` answers the calls that the user takes part in and that have the status asked for, each
   once, the latest first, and those created at the same time in the order of their creation.
   */
  lemma ListingIsExact(s: State, u: string, status: Option<Status>)
    requires Reachable(s)
    ensures
      var ids := ListForUser(s, u, status);
      && (forall id :: id in ids <==> IsListed(s, u, status, id))
      && (forall i, j :: 0 <= i < j < |ids| ==> ids[i] != ids[j] && ComesFirst(s, ids[i], ids[j]))
  {
    ReachableObeys(s, Order);
    var ids := ListForUser(s, u, status);
    ListingIsStableSort(s, u, status);
    StableSort.FilterOnce(s.order, Selector(s, u, status));
    forall id ensures id in ids <==> IsListed(s, u, status, id) {
      assert id in ids <==> id in multiset(ids);
      StableSort.FilterMember(s.order, Selector(s, u, status), id);
    }
    forall i, j | 0 <= i < j < |ids| ensures ids[i] != ids[j] && ComesFirst(s, ids[i], ids[j]) {
      ListedInOrder(s, u, status, i, j);
    }
  }
}
