/**
 Whole runs of the call service: the event log is a complete record of every call, it belongs to a
 fixed language, the code index is exact under reuse of codes, and listings are stable sorts.
 */
module CallRuns {
  import opened Common
  import opened RoomCodes
  import opened Calls
  import StableSort

  datatype Op =
    | CreateOp(id: string, creatorId: string, invitees: seq<string>, visibility: Option<Visibility>,
               draws: seq<Draw>, now: int)
    | InviteOp(callId: string, inviter: string, invitee: string, now: int)
    | AcceptOp(callId: string, userId: string, now: int)
    | JoinOp(callId: string, userId: string, now: int)
    | LeaveOp(callId: string, userId: string, now: int)
    | EndOp(callId: string, userId: string, now: int)
    | ResetOp

  function Step(s: State, op: Op): (State, Outcome) {
    match op
    case CreateOp(id, creator, invitees, visibility, draws, now) =>
      CreateStep(s, id, creator, invitees, visibility, draws, now)
    case InviteOp(id, inviter, invitee, now) => InviteStep(s, id, inviter, invitee, now)
    case AcceptOp(id, u, now) => AcceptStep(s, id, u, now)
    case JoinOp(id, u, now) => JoinStep(s, id, u, now)
    case LeaveOp(id, u, now) => LeaveStep(s, id, u, now)
    case EndOp(id, u, now) => EndStep(s, id, u, now)
    case ResetOp => (Calls.EMPTY, Ok(""))
  }

  const UUID_LENGTH := 36

  /** The only thing asked of the environment: identifiers are fresh and have the length of a UUID. */
  predicate Legal(s: State, op: Op) { op.CreateOp? ==> |op.id| == UUID_LENGTH && op.id !in s.calls }

  function Run(s: State, ops: seq<Op>): State
    decreases |ops|
  {
    if ops == [] then s else Run(Step(s, ops[0]).0, ops[1..])
  }

  predicate LegalRun(s: State, ops: seq<Op>)
    decreases |ops|
  {
    ops == [] || (Legal(s, ops[0]) && LegalRun(Step(s, ops[0]).0, ops[1..]))
  }

  // ---------------------------------------------------------------------------------------
  // The elementary changes that every operation is made of
  // ---------------------------------------------------------------------------------------

  /** What a single recorded change does to one call. */
  datatype Change =
    | Opening(c: CallRecord)
    | Invitation(u: string, creator: string, at: int)
    | Acceptance(u: string, at: int)
    | LinkJoin(u: string, at: int)
    | Departure(u: string, at: int)
    | Closing(u: string, at: int)

  ghost predicate IsRoomCode(code: string) {
    exists d: Draw :: RoomCode(d) == code
  }

  ghost predicate CanOpen(c: CallRecord) {
    && IsRoomCode(c.roomId)
    && |c.participants| == 1 && c.participants[0].userId == c.creatorId
    && c.participants[0].role == Creator && c.participants[0].status == Joined
    && c.status == Pending && c.endedBy == None
  }

  predicate MayAccept(c: CallRecord, u: string) {
    var i := IndexOf(c.participants, u);
    c.status != Ended && i >= 0 && c.participants[i].status != Joined
  }

  /** When the service makes a change to a call. */
  predicate Applies(c: CallRecord, ch: Change) {
    match ch
    case Opening(_) => false
    case Invitation(u, creator, _) => c.status != Ended && IndexOf(c.participants, u) < 0 && creator == c.creatorId
    case Acceptance(u, _) => MayAccept(c, u)
    case LinkJoin(u, _) => c.status != Ended && IndexOf(c.participants, u) < 0 && c.visibility == Link
    case Departure(u, _) =>
      IndexOf(c.participants, u) >= 0 && c.participants[IndexOf(c.participants, u)].status != Left
    case Closing(u, _) => c.status != Ended && IndexOf(c.participants, u) >= 0
  }

  function Changed(c: CallRecord, ch: Change): CallRecord
    requires Applies(c, ch)
  {
    match ch
    case Opening(c') => c'
    case Invitation(u, _, at) =>
      c.(participants := c.participants + [Participant(u, Invitee, Invited, at, None, None)])
    case Acceptance(u, at) => Rejoined(c, IndexOf(c.participants, u), at)
    case LinkJoin(u, at) =>
      Activate(c.(participants := c.participants + [Participant(u, Invitee, Joined, at, Some(at), None)]), at)
    case Departure(u, at) =>
      var i := IndexOf(c.participants, u);
      c.(participants := c.participants[i := c.participants[i].(status := Left, leftAt := Some(at))])
    case Closing(u, at) => c.(status := Ended, endedAt := Some(at), endedBy := Some(u))
  }

  /** The events a change records. */
  function Recorded(id: string, ch: Change, n: nat): seq<Event> {
    match ch
    case Opening(c) => [Event(n, id, CreatedEvent, c.creatorId, Room(c.roomId, c.visibility), c.createdAt)]
    case Invitation(u, creator, at) => [Event(n, id, InvitedEvent, u, By(creator), at)]
    case Acceptance(u, at) =>
      [Event(n, id, AcceptedEvent, u, NoPayload, at), Event(n + 1, id, JoinedEvent, u, NoPayload, at)]
    case LinkJoin(u, at) => [Event(n, id, JoinedEvent, u, ViaLink, at)]
    case Departure(u, at) => [Event(n, id, LeftEvent, u, NoPayload, at)]
    case Closing(u, at) => [Event(n, id, EndedEvent, u, NoPayload, at)]
  }

  /** One change to one call, as the service makes it: table, code index and log together. */
  ghost predicate Atomic(s: State, s': State, id: string, ch: Change) {
    var ok :=
      && s'.events == s.events + Recorded(id, ch, s.nextId)
      && s'.nextId == s.nextId + |Recorded(id, ch, s.nextId)|
      && match ch
         case Opening(c) =>
           && id !in s.calls && CanOpen(c) && c.id == id && |id| == UUID_LENGTH
           && c.roomId !in s.codeIndex
           && s' == s.(calls := s.calls[id := c], order := s.order + [id], codeIndex := s.codeIndex[c.roomId := id],
                       events := s'.events, nextId := s'.nextId)
         case _ =>
           && id in s.calls && Applies(s.calls[id], ch)
           && s' == s.(calls := s.calls[id := Changed(s.calls[id], ch)],
                       codeIndex := if ch.Closing? then s.codeIndex - {s.calls[id].roomId} else s.codeIndex,
                       events := s'.events, nextId := s'.nextId);
    ok
  }

  /** What holds in every state of a run. */
  datatype Law = Keys | Replays | Words | Index | Order

  ghost predicate Obeys(s: State, law: Law) {
    var ok :=
      match law
      case Keys => WellKeyed(s)
      case Replays => Replayable(s)
      case Words => WellWorded(s)
      case Index => IndexExact(s)
      case Order => OrderExact(s);
    ok
  }

  ghost predicate Inv(s: State) {
    forall law: Law :: Obeys(s, law)
  }

  lemma ChangeKeepsLaw(s: State, s': State, id: string, ch: Change, law: Law)
    requires Inv(s) && Atomic(s, s', id, ch)
    ensures Obeys(s', law)
  {
    assert Obeys(s, law);
    match law
    case Keys => ChangeKeepsKeys(s, s', id, ch);
    case Replays => ChangeKeepsReplays(s, s', id, ch);
    case Words =>
      assert Obeys(s, Keys);
      ChangeKeepsWords(s, s', id, ch);
    case Index => ChangeKeepsIndex(s, s', id, ch);
    case Order =>
  }

  lemma ChangeKeepsInv(s: State, s': State, id: string, ch: Change)
    requires Inv(s) && Atomic(s, s', id, ch)
    ensures Inv(s')
  {
    forall law: Law ensures Obeys(s', law) { ChangeKeepsLaw(s, s', id, ch, law); }
  }

  // ---- laws: keys and numbering ----

  predicate HasKey(c: CallRecord, id: string) { c.id == id && |id| == UUID_LENGTH && |c.roomId| == 11 }

  ghost predicate CallsKeyed(s: State) {
    forall id :: id in s.calls ==> HasKey(s.calls[id], id)
  }

  ghost predicate LogNumbered(s: State) {
    && s.nextId == |s.events| + 1
    && (forall i :: 0 <= i < |s.events| ==> s.events[i].id == i + 1)
    && (forall e :: e in s.events ==> e.callId in s.calls)
  }

  ghost predicate WellKeyed(s: State) { CallsKeyed(s) && LogNumbered(s) }

  ghost predicate Puts(s: State, s': State, id: string, ch: Change, c': CallRecord) {
    var ok :=
      && s'.calls == s.calls[id := c']
      && if ch.Opening? then CanOpen(c') && c' == ch.c && c'.id == id && |id| == UUID_LENGTH
         else id in s.calls && Applies(s.calls[id], ch) && c' == Changed(s.calls[id], ch);
    ok
  }

  /** A change puts one record into the table. */
  lemma ChangePuts(s: State, s': State, id: string, ch: Change) returns (c': CallRecord)
    requires Atomic(s, s', id, ch)
    ensures Puts(s, s', id, ch, c')
  {
    c' := s'.calls[id];
  }

  predicate NumberedFrom(es: seq<Event>, id: string, n: nat) {
    forall i :: 0 <= i < |es| ==> es[i].id == n + i && es[i].callId == id
  }

  lemma AppendKeepsNumbers(s: State, s': State, id: string, more: seq<Event>)
    requires LogNumbered(s) && NumberedFrom(more, id, s.nextId) && s.calls.Keys <= s'.calls.Keys && id in s'.calls
    requires s'.events == s.events + more && s'.nextId == s.nextId + |more|
    ensures LogNumbered(s')
  {
  }

  lemma ChangeKeepsKeys(s: State, s': State, id: string, ch: Change)
    requires WellKeyed(s) && Atomic(s, s', id, ch)
    ensures WellKeyed(s')
  {
    AppendKeepsNumbers(s, s', id, Recorded(id, ch, s.nextId));
  }

  // ---- laws: the log replays to the table ----

  function UntimedOne(p: Participant): Participant { p.(invitedAt := 0, joinedAt := None, leftAt := None) }

  function UntimedAll(ps: seq<Participant>): (r: seq<Participant>)
    ensures |r| == |ps| && forall i :: 0 <= i < |ps| ==> r[i] == UntimedOne(ps[i])
  {
    seq(|ps|, i requires 0 <= i < |ps| => UntimedOne(ps[i]))
  }

  /** A call with its timestamps forgotten. */
  function Untimed(c: CallRecord): CallRecord {
    c.(participants := UntimedAll(c.participants), createdAt := 0, startedAt := None, endedAt := None)
  }

  function SetStatus(ps: seq<Participant>, userId: string, status: ParticipantStatus): seq<Participant> {
    var i := IndexOf(ps, userId);
    if i < 0 then ps else ps[i := ps[i].(status := status)]
  }

  function Wake(c: CallRecord): CallRecord { if c.status == Pending then c.(status := Active) else c }

  /** What a reader of the log makes of one event, knowing only the events before it. */
  function ReplayOne(v: Option<CallRecord>, e: Event): Option<CallRecord> {
    if e.kind == CreatedEvent && e.payload.Room? then
      Some(CallRecord(e.callId, e.payload.roomId, Pending, e.payload.visibility, e.userId,
                      [Participant(e.userId, Creator, Joined, 0, None, None)], 0, None, None, None))
    else if v.None? then None
    else
      var c := v.value;
      match e.kind
      case CreatedEvent => None
      case InvitedEvent =>
        Some(c.(participants := c.participants + [Participant(e.userId, Invitee, Invited, 0, None, None)]))
      case AcceptedEvent => Some(Wake(c.(participants := SetStatus(c.participants, e.userId, Joined))))
      case JoinedEvent =>
        if e.payload == ViaLink then
          Some(Wake(c.(participants := c.participants + [Participant(e.userId, Invitee, Joined, 0, None, None)])))
        else v
      case LeftEvent => Some(c.(participants := SetStatus(c.participants, e.userId, Left)))
      case EndedEvent => Some(c.(status := Ended, endedBy := Some(e.userId)))
  }

  function Replay(es: seq<Event>): Option<CallRecord> {
    if es == [] then None else ReplayOne(Replay(es[..|es| - 1]), es[|es| - 1])
  }

  ghost predicate Replayable(s: State) {
    forall id :: Replay(ForCall(s.events, id)) == if id in s.calls then Some(Untimed(s.calls[id])) else None
  }

  lemma {:induction false} ForCallAppends(events: seq<Event>, more: seq<Event>, id: string)
    ensures ForCall(events + more, id) == ForCall(events, id) + ForCall(more, id)
  {
    if more == [] {
      assert events + more == events;
    } else {
      var n := |more| - 1;
      ForCallAppends(events, more[..n], id);
      assert (events + more)[..|events + more| - 1] == events + more[..n];
    }
  }

  lemma ForCallOfRecorded(id: string, ch: Change, n: nat, k: string)
    ensures ForCall(Recorded(id, ch, n), k) == if k == id then Recorded(id, ch, n) else []
  {
    var es := Recorded(id, ch, n);
    if ch.Acceptance? {
      assert es[..1] == [es[0]] && es[..1][..0] == [];
      assert ForCall(es[..1], k) == if k == id then [es[0]] else [];
    } else {
      assert es[..0] == [];
    }
  }

  /** A change extends the log of its own call by what it records, and no other. */
  lemma LogGrows(s: State, s': State, id: string, ch: Change, k: string)
    requires Atomic(s, s', id, ch)
    ensures ForCall(s'.events, k) == ForCall(s.events, k) + if k == id then Recorded(id, ch, s.nextId) else []
  {
    ForCallAppends(s.events, Recorded(id, ch, s.nextId), k);
    ForCallOfRecorded(id, ch, s.nextId, k);
  }

  lemma {:induction false} IndexIgnoresTimes(ps: seq<Participant>, u: string)
    ensures IndexOf(UntimedAll(ps), u) == IndexOf(ps, u)
  {
    if ps == [] {
    } else {
      IndexIgnoresTimes(ps[..|ps| - 1], u);
      assert UntimedAll(ps)[..|ps| - 1] == UntimedAll(ps[..|ps| - 1]);
    }
  }

  lemma UntimedAppend(ps: seq<Participant>, p: Participant)
    ensures UntimedAll(ps + [p]) == UntimedAll(ps) + [UntimedOne(p)]
  {
  }

  lemma UntimedUpdate(ps: seq<Participant>, i: nat, p: Participant)
    requires i < |ps|
    ensures UntimedAll(ps[i := p]) == UntimedAll(ps)[i := UntimedOne(p)]
  {
  }

  lemma ReplayFollowsEntry(c: CallRecord, id: string, ch: Change, n: nat)
    requires Applies(c, ch) && (ch.Invitation? || ch.LinkJoin?)
    ensures ReplayOne(Some(Untimed(c)), Recorded(id, ch, n)[0]) == Some(Untimed(Changed(c, ch)))
  {
    UntimedAppend(c.participants, Changed(c, ch).participants[|c.participants|]);
  }

  lemma ReplayFollowsStatus(c: CallRecord, id: string, ch: Change, n: nat)
    requires Applies(c, ch) && (ch.Acceptance? || ch.Departure?)
    ensures ReplayOne(Some(Untimed(c)), Recorded(id, ch, n)[0]) == Some(Untimed(Changed(c, ch)))
  {
    var i := IndexOf(c.participants, ch.u);
    IndexIgnoresTimes(c.participants, ch.u);
    UntimedUpdate(c.participants, i, Changed(c, ch).participants[i]);
  }

  lemma ReplayFollowsChange(c: CallRecord, id: string, ch: Change, n: nat)
    requires Applies(c, ch)
    ensures ReplayOne(Some(Untimed(c)), Recorded(id, ch, n)[0]) == Some(Untimed(Changed(c, ch)))
  {
    if ch.Invitation? || ch.LinkJoin? {
      ReplayFollowsEntry(c, id, ch, n);
    } else if !ch.Closing? {
      ReplayFollowsStatus(c, id, ch, n);
    }
  }

  lemma OpeningReplays(c: CallRecord, e: Event)
    requires CanOpen(c) && e == Event(e.id, c.id, CreatedEvent, c.creatorId, Room(c.roomId, c.visibility), e.createdAt)
    ensures ReplayOne(None, e) == Some(Untimed(c))
  {
    assert UntimedAll(c.participants) == [Participant(c.creatorId, Creator, Joined, 0, None, None)];
  }

  /** The `joined` event after an `accepted` one tells a reader nothing new. */
  lemma ReplaySkipsJoined(es: seq<Event>, a: Event, j: Event)
    requires j.kind == JoinedEvent && j.payload != ViaLink && Replay(es + [a]).Some?
    ensures Replay(es + [a, j]) == Replay(es + [a])
  {
    assert es + [a, j] == es + [a] + [j];
  }

  /** Extending the log of a call by what a change records replays to the changed call. */
  lemma ReplayExtends(es: seq<Event>, c: CallRecord, id: string, ch: Change, n: nat)
    requires Replay(es) == Some(Untimed(c)) && Applies(c, ch)
    ensures Replay(es + Recorded(id, ch, n)) == Some(Untimed(Changed(c, ch)))
  {
    var more := Recorded(id, ch, n);
    ReplayFollowsChange(c, id, ch, n);
    if ch.Acceptance? {
      ReplaySkipsJoined(es, more[0], more[1]);
    }
  }

  lemma ChangeKeepsReplays(s: State, s': State, id: string, ch: Change)
    requires Replayable(s) && Atomic(s, s', id, ch)
    ensures Replayable(s')
  {
    forall k ensures Replay(ForCall(s'.events, k)) == if k in s'.calls then Some(Untimed(s'.calls[k])) else None {
      LogGrows(s, s', id, ch, k);
      var es := ForCall(s.events, k);
      if k != id {
        assert es + [] == es;
      } else if ch.Opening? {
        OpeningReplays(ch.c, Recorded(id, ch, s.nextId)[0]);
      } else {
        ReplayExtends(es, s.calls[k], id, ch, s.nextId);
      }
    }
  }

  // ---- laws: the language of the log ----

  predicate IsEntry(e: Event) {
    e.kind == CreatedEvent || e.kind == InvitedEvent || (e.kind == JoinedEvent && e.payload == ViaLink)
  }

  /** The user arrives (by creating the call or joining it), or departs. */
  predicate Moves(e: Event, u: string, arriving: bool) {
    e.userId == u && if arriving then e.kind == JoinedEvent || e.kind == CreatedEvent else e.kind == LeftEvent
  }

  /** The user arrives, or departs, strictly between positions `i` and `j`. */
  predicate MovesBetween(es: seq<Event>, i: int, j: int, u: string, arriving: bool) {
    exists k :: 0 <= i < k < j <= |es| && Moves(es[k], u, arriving)
  }

  /** `created` comes first and only there. */
  predicate StartsOnce(es: seq<Event>) {
    es != [] && forall i :: 0 <= i < |es| ==> (es[i].kind == CreatedEvent <==> i == 0)
  }

  /** The `joined` that goes with an `accepted`. */
  predicate IsAnswer(a: Event, j: Event) {
    j.kind == JoinedEvent && j.payload != ViaLink && j.userId == a.userId && j.createdAt == a.createdAt
  }

  /** `accepted` is directly followed by the same user's plain `joined`, which occurs nowhere else. */
  predicate AcceptsPaired(es: seq<Event>) {
    && (forall i :: 0 <= i < |es| && es[i].kind == AcceptedEvent ==>
          i + 1 < |es| && IsAnswer(es[i], es[i + 1]))
    && (forall i :: 0 <= i < |es| && es[i].kind == JoinedEvent && es[i].payload != ViaLink ==>
          0 < i && es[i - 1].kind == AcceptedEvent && IsAnswer(es[i - 1], es[i]))
  }

  predicate BothMove(es: seq<Event>, i: int, j: int, u: string, arriving: bool) {
    0 <= i < j < |es| && Moves(es[i], u, arriving) && Moves(es[j], u, arriving)
  }

  /** Two departures of a user are separated by an arrival; or the other way round. */
  ghost predicate Separated(es: seq<Event>, arriving: bool) {
    forall i, j, u :: BothMove(es, i, j, u, arriving) ==> MovesBetween(es, i, j, u, !arriving)
  }

  /** After the end there are only departures; in particular there is no second end. */
  predicate EndsQuietly(es: seq<Event>) {
    forall i, j :: 0 <= i < j < |es| && es[i].kind == EndedEvent ==> es[j].kind == LeftEvent
  }

  /** Nobody enters twice: by creating the call, by being invited, or through the link. */
  predicate EntersOnce(es: seq<Event>) {
    forall i, j :: 0 <= i < j < |es| && IsEntry(es[i]) && IsEntry(es[j]) ==> es[i].userId != es[j].userId
  }

  predicate Enters(es: seq<Event>, u: string, end: int) {
    exists i :: 0 <= i < end <= |es| && IsEntry(es[i]) && es[i].userId == u
  }

  /** Everything a user does comes after the user has entered. */
  predicate ActsAfterEntry(es: seq<Event>) {
    forall j :: 0 <= j < |es| ==> Enters(es, es[j].userId, j + 1)
  }

  /** What an event of a call carries, given the event that opened it. */
  ghost predicate PayloadFits(first: Event, e: Event) {
    match e.kind
    case CreatedEvent => e.payload.Room? && IsRoomCode(e.payload.roomId)
    case InvitedEvent => e.payload == By(first.userId)
    case JoinedEvent =>
      e.payload == NoPayload || (e.payload == ViaLink && first.payload.Room? && first.payload.visibility == Link)
    case _ => e.payload == NoPayload
  }

  ghost predicate PayloadsFit(es: seq<Event>) {
    forall i :: 0 <= i < |es| ==> PayloadFits(es[0], es[i])
  }

  datatype Rule = Starts | Pairs | Alternates(arriving: bool) | Ends | EntersAtMostOnce | Acts | Carries

  ghost predicate Follows(es: seq<Event>, rule: Rule) {
    var ok :=
      match rule
      case Starts => StartsOnce(es)
      case Pairs => AcceptsPaired(es)
      case Alternates(arriving) => Separated(es, arriving)
      case Ends => EndsQuietly(es)
      case EntersAtMostOnce => EntersOnce(es)
      case Acts => ActsAfterEntry(es)
      case Carries => PayloadsFit(es);
    ok
  }

  /** The language of the log of one call. */
  ghost predicate Word(es: seq<Event>) {
    forall rule: Rule :: Follows(es, rule)
  }

  /** A log, apart from the pairing of acceptances. */
  ghost predicate Loose(es: seq<Event>) {
    forall rule: Rule :: rule == Pairs || Follows(es, rule)
  }

  predicate HasEnded(es: seq<Event>) {
    exists i :: 0 <= i < |es| && es[i].kind == EndedEvent
  }

  predicate Distinct(ps: seq<Participant>) {
    forall i, j :: 0 <= i < j < |ps| ==> ps[i].userId != ps[j].userId
  }

  /** Every arrival of the user has been followed by a departure; or the other way round. */
  predicate Undone(es: seq<Event>, u: string, arriving: bool) {
    forall i :: 0 <= i < |es| && Moves(es[i], u, arriving) ==> MovesBetween(es, i, |es|, u, !arriving)
  }

  /** A user's status, as far as the log shows it. */
  predicate Stands(es: seq<Event>, u: string, status: ParticipantStatus) {
    var ok := (status != Joined <==> Undone(es, u, true)) && (status != Left <==> Undone(es, u, false));
    ok
  }

  datatype Tie = EndTie | EntryTie | StatusTie | NameTie | OpeningTie

  ghost predicate Tied(es: seq<Event>, c: CallRecord, tie: Tie) {
    var ok :=
      match tie
      case EndTie => HasEnded(es) <==> c.status == Ended
      case EntryTie => forall u :: IndexOf(c.participants, u) >= 0 <==> Enters(es, u, |es|)
      case StatusTie =>
        forall u :: IndexOf(c.participants, u) >= 0 ==> Stands(es, u, c.participants[IndexOf(c.participants, u)].status)
      case NameTie => Distinct(c.participants)
      case OpeningTie => es != [] && es[0].userId == c.creatorId && es[0].payload == Room(c.roomId, c.visibility);
    ok
  }

  /** How the log of a call and its current fields hang together. */
  ghost predicate Coupled(es: seq<Event>, c: CallRecord) {
    forall tie: Tie :: Tied(es, c, tie)
  }

  ghost predicate WellWordedCall(s: State, id: string) {
    id in s.calls ==> IsLogOf(ForCall(s.events, id), s.calls[id])
  }

  ghost predicate WellWorded(s: State) {
    forall id :: WellWordedCall(s, id)
  }

  lemma {:induction false} IndexAfterUpdate(ps: seq<Participant>, i: nat, p: Participant, u: string)
    requires i < |ps| && p.userId == ps[i].userId
    ensures IndexOf(ps[i := p], u) == IndexOf(ps, u)
  {
    var n := |ps| - 1;
    if i < n {
      IndexAfterUpdate(ps[..n], i, p, u);
      assert ps[i := p][..n] == ps[..n][i := p];
    } else {
      assert ps[i := p][..n] == ps[..n];
    }
  }

  lemma MovesBetweenGrows(es: seq<Event>, e: Event, i: int, j: int, u: string, arriving: bool)
    requires MovesBetween(es, i, j, u, arriving)
    ensures MovesBetween(es + [e], i, j, u, arriving) && MovesBetween(es + [e], i, |es| + 1, u, arriving)
  {
    var k :| 0 <= i < k < j <= |es| && Moves(es[k], u, arriving);
    assert (es + [e])[k] == es[k];
  }

  lemma EntersGrows(es: seq<Event>, e: Event, u: string, end: int)
    requires 0 <= end <= |es|
    ensures Enters(es + [e], u, end) <==> Enters(es, u, end)
    ensures Enters(es + [e], u, |es| + 1) <==> Enters(es, u, |es|) || (IsEntry(e) && e.userId == u)
  {
    var es' := es + [e];
    assert forall i :: 0 <= i < |es| ==> es'[i] == es[i];
    assert es'[|es|] == e;
    if Enters(es, u, |es|) {
      var i :| 0 <= i < |es| && IsEntry(es[i]) && es[i].userId == u;
      assert IsEntry(es'[i]);
    }
    if Enters(es, u, end) {
      var i :| 0 <= i < end && IsEntry(es[i]) && es[i].userId == u;
      assert IsEntry(es'[i]);
    }
  }

  lemma ActsAfterEntryGrows(es: seq<Event>, e: Event)
    requires ActsAfterEntry(es) && (IsEntry(e) || Enters(es, e.userId, |es|))
    ensures ActsAfterEntry(es + [e])
  {
    var es' := es + [e];
    forall j | 0 <= j < |es'| ensures Enters(es', es'[j].userId, j + 1) {
      if j < |es| {
        assert Enters(es, es[j].userId, j + 1);
        EntersGrows(es, e, es[j].userId, j + 1);
      } else {
        EntersGrows(es, e, e.userId, |es|);
      }
    }
  }

  lemma SeparationGrows(es: seq<Event>, e: Event, arriving: bool)
    requires Separated(es, arriving) && (Moves(e, e.userId, arriving) ==> Undone(es, e.userId, arriving))
    ensures Separated(es + [e], arriving)
  {
    var es' := es + [e];
    forall i, j, u | BothMove(es', i, j, u, arriving) ensures MovesBetween(es', i, j, u, !arriving) {
      if j < |es| {
        assert BothMove(es, i, j, u, arriving);
        MovesBetweenGrows(es, e, i, j, u, !arriving);
      } else {
        assert Moves(es[i], u, arriving);
        MovesBetweenGrows(es, e, i, |es|, u, !arriving);
      }
    }
  }

  lemma EndingGrows(es: seq<Event>, e: Event)
    requires EndsQuietly(es) && (HasEnded(es) ==> e.kind == LeftEvent)
    ensures EndsQuietly(es + [e])
    ensures HasEnded(es + [e]) <==> HasEnded(es) || e.kind == EndedEvent
  {
    var es' := es + [e];
    assert es'[|es|] == e;
    if HasEnded(es) {
      var i :| 0 <= i < |es| && es[i].kind == EndedEvent;
      assert es'[i].kind == EndedEvent;
    }
  }

  /** What one more event means for the arrivals, or departures, of a user. */
  lemma UndoneGrows(es: seq<Event>, e: Event, u: string, arriving: bool)
    ensures Undone(es + [e], u, arriving)
       <==> Moves(e, u, !arriving) || (!Moves(e, u, arriving) && Undone(es, u, arriving))
  {
    var es' := es + [e];
    assert es'[|es|] == e && forall i :: 0 <= i < |es| ==> es'[i] == es[i];
    if Moves(e, u, arriving) {
      assert !MovesBetween(es', |es|, |es'|, u, !arriving);
    } else {
      forall i | 0 <= i < |es| && Moves(es[i], u, arriving)
        ensures MovesBetween(es', i, |es'|, u, !arriving)
           <==> Moves(e, u, !arriving) || MovesBetween(es, i, |es|, u, !arriving)
      {
        if MovesBetween(es, i, |es|, u, !arriving) { MovesBetweenGrows(es, e, i, |es|, u, !arriving); }
      }
    }
  }

  /** What an event must satisfy to extend a log, apart from the pairing of acceptances. */
  ghost predicate Fits(es: seq<Event>, e: Event) {
    var ok :=
      && e.kind != CreatedEvent
      && (IsEntry(e) <==> !Enters(es, e.userId, |es|))
      && (forall arriving :: Moves(e, e.userId, arriving) ==> Undone(es, e.userId, arriving))
      && (HasEnded(es) ==> e.kind == LeftEvent)
      && es != [] && PayloadFits(es[0], e);
    ok
  }

  lemma RuleGrows(es: seq<Event>, e: Event, rule: Rule)
    requires Loose(es) && Fits(es, e) && rule != Pairs
    ensures Follows(es + [e], rule)
  {
    assert Follows(es, rule);
    match rule
    case Starts =>
    case Alternates(arriving) => SeparationGrows(es, e, arriving);
    case Ends => EndingGrows(es, e);
    case EntersAtMostOnce =>
    case Acts => ActsAfterEntryGrows(es, e);
    case Carries =>
  }

  /** What one event means for one user's standing in a call. */
  predicate FollowsFor(c: CallRecord, c': CallRecord, e: Event, u: string) {
    var k, k' := IndexOf(c.participants, u), IndexOf(c'.participants, u);
    var ok :=
      && (k' >= 0 <==> k >= 0 || (IsEntry(e) && e.userId == u))
      && (k' >= 0 ==>
            var status := c'.participants[k'].status;
            if Moves(e, u, true) then status == Joined
            else if Moves(e, u, false) then status == Left
            else if k >= 0 then status == c.participants[k].status
            else status == Invited);
    ok
  }

  /** The fields of a call after one event, as far as the log is concerned. */
  ghost predicate Reflects(c: CallRecord, c': CallRecord, e: Event) {
    && (c'.status == Ended <==> c.status == Ended || e.kind == EndedEvent)
    && c'.creatorId == c.creatorId && c'.roomId == c.roomId && c'.visibility == c.visibility
    && Distinct(c'.participants)
    && forall u :: FollowsFor(c, c', e, u)
  }

  lemma StatusGrows(es: seq<Event>, e: Event, c: CallRecord, c': CallRecord, u: string)
    requires Loose(es) && Coupled(es, c) && FollowsFor(c, c', e, u) && IndexOf(c'.participants, u) >= 0
    ensures Stands(es + [e], u, c'.participants[IndexOf(c'.participants, u)].status)
  {
    assert Tied(es, c, EntryTie) && Tied(es, c, StatusTie) && Follows(es, Acts);
    UndoneGrows(es, e, u, true);
    UndoneGrows(es, e, u, false);
  }

  lemma TieGrows(es: seq<Event>, e: Event, c: CallRecord, c': CallRecord, tie: Tie)
    requires Loose(es) && Fits(es, e) && Coupled(es, c) && Reflects(c, c', e)
    ensures Tied(es + [e], c', tie)
  {
    assert Tied(es, c, tie);
    match tie
    case EndTie =>
      assert Follows(es, Ends);
      EndingGrows(es, e);
    case EntryTie =>
      forall u ensures IndexOf(c'.participants, u) >= 0 <==> Enters(es + [e], u, |es| + 1) {
        assert FollowsFor(c, c', e, u);
        EntersGrows(es, e, u, |es|);
      }
    case StatusTie =>
      forall u | IndexOf(c'.participants, u) >= 0
        ensures Stands(es + [e], u, c'.participants[IndexOf(c'.participants, u)].status)
      {
        assert FollowsFor(c, c', e, u);
        StatusGrows(es, e, c, c', u);
      }
    case NameTie =>
    case OpeningTie =>
  }

  /** The event of a change that its fields follow: the last one it records. */
  function LastRecorded(id: string, ch: Change, n: nat): Event {
    var es := Recorded(id, ch, n);
    es[|es| - 1]
  }

  lemma EntryFollowsFor(c: CallRecord, id: string, ch: Change, n: nat, u: string)
    requires Applies(c, ch) && (ch.Invitation? || ch.LinkJoin?)
    ensures FollowsFor(c, Changed(c, ch), LastRecorded(id, ch, n), u)
  {
    var c', e := Changed(c, ch), LastRecorded(id, ch, n);
    var p := c'.participants[|c.participants|];
    assert c'.participants == c.participants + [p] && IsEntry(e) && e.userId == ch.u == p.userId;
  }

  lemma StatusFollowsFor(c: CallRecord, id: string, ch: Change, n: nat, u: string)
    requires Applies(c, ch) && (ch.Acceptance? || ch.Departure?)
    ensures FollowsFor(c, Changed(c, ch), LastRecorded(id, ch, n), u)
  {
    var c', e, i := Changed(c, ch), LastRecorded(id, ch, n), IndexOf(c.participants, ch.u);
    assert c'.participants == c.participants[i := c'.participants[i]] && !IsEntry(e) && e.userId == ch.u;
    IndexAfterUpdate(c.participants, i, c'.participants[i], u);
  }

  lemma ChangeFollowsFor(c: CallRecord, id: string, ch: Change, n: nat, u: string)
    requires Applies(c, ch)
    ensures FollowsFor(c, Changed(c, ch), LastRecorded(id, ch, n), u)
  {
    if ch.Invitation? || ch.LinkJoin? {
      EntryFollowsFor(c, id, ch, n, u);
    } else if !ch.Closing? {
      StatusFollowsFor(c, id, ch, n, u);
    }
  }

  /** Each change makes the fields follow the event it records. */
  lemma ChangeFollows(c: CallRecord, id: string, ch: Change, n: nat)
    requires Applies(c, ch) && Distinct(c.participants)
    ensures Reflects(c, Changed(c, ch), LastRecorded(id, ch, n))
  {
    forall u { ChangeFollowsFor(c, id, ch, n, u); }
    if ch.Invitation? || ch.LinkJoin? {
      assert forall i :: 0 <= i < |c.participants| ==> c.participants[i].userId != ch.u;
    }
  }

  lemma ChangeFits(es: seq<Event>, c: CallRecord, id: string, ch: Change, n: nat)
    requires Loose(es) && Coupled(es, c) && Applies(c, ch)
    ensures Fits(es, Recorded(id, ch, n)[0])
  {
    var u := ch.u;
    assert Tied(es, c, EndTie) && Tied(es, c, EntryTie) && Tied(es, c, StatusTie) && Tied(es, c, OpeningTie);
    assert IndexOf(c.participants, u) >= 0 <==> Enters(es, u, |es|);
    if ch.LinkJoin? {
      assert Follows(es, Acts);
    }
  }

  predicate IsPlain(e: Event) { (e.kind == AcceptedEvent || e.kind == JoinedEvent) && e.payload == NoPayload }

  /** The two events of an acceptance. */
  predicate IsAcceptance(a: Event, j: Event) {
    var ok := a.kind == AcceptedEvent && IsAnswer(a, j) && IsPlain(a) && IsPlain(j);
    ok
  }

  /** The log of a call, as far as the language and the fields of the call go. */
  ghost predicate IsLogOf(es: seq<Event>, c: CallRecord) {
    var ok := Word(es) && Coupled(es, c);
    ok
  }

  lemma PlainFits(es: seq<Event>, c: CallRecord, e: Event)
    requires Coupled(es, c) && MayAccept(c, e.userId) && IsPlain(e)
    ensures Fits(es, e)
  {
    assert Tied(es, c, EndTie) && Tied(es, c, EntryTie) && Tied(es, c, StatusTie) && Tied(es, c, OpeningTie);
    assert IndexOf(c.participants, e.userId) >= 0 <==> Enters(es, e.userId, |es|);
  }

  lemma LogGrowsByOne(es: seq<Event>, e: Event, c: CallRecord, c': CallRecord)
    requires Loose(es) && Fits(es, e) && Coupled(es, c) && Reflects(c, c', e)
    ensures Loose(es + [e]) && Coupled(es + [e], c')
  {
    forall rule: Rule | rule != Pairs ensures Follows(es + [e], rule) { RuleGrows(es, e, rule); }
    forall tie: Tie ensures Tied(es + [e], c', tie) { TieGrows(es, e, c, c', tie); }
  }

  lemma AcceptanceGrows(es: seq<Event>, a: Event, j: Event, c: CallRecord, c': CallRecord)
    requires IsLogOf(es, c) && Reflects(c, c', j) && MayAccept(c, j.userId) && IsAcceptance(a, j)
    ensures IsLogOf(es + [a] + [j], c')
  {
    assert Loose(es) && Tied(es, c, NameTie) && Follows(es, Pairs);
    PlainFits(es, c, a);
    LogGrowsByOne(es, a, c, c);
    PlainFits(es + [a], c, j);
    LogGrowsByOne(es + [a], j, c, c');
  }

  lemma OtherGrows(es: seq<Event>, e: Event, c: CallRecord, c': CallRecord)
    requires IsLogOf(es, c) && Fits(es, e) && Reflects(c, c', e)
    requires e.kind != AcceptedEvent && (e.kind == JoinedEvent ==> e.payload == ViaLink)
    ensures IsLogOf(es + [e], c')
  {
    assert Loose(es) && Follows(es, Pairs);
    LogGrowsByOne(es, e, c, c');
  }

  lemma AcceptanceExtendsWord(es: seq<Event>, c: CallRecord, id: string, ch: Change, n: nat)
    requires IsLogOf(es, c) && Applies(c, ch) && ch.Acceptance?
    ensures IsLogOf(es + Recorded(id, ch, n), Changed(c, ch))
  {
    var a, j := Recorded(id, ch, n)[0], Recorded(id, ch, n)[1];
    assert j == LastRecorded(id, ch, n);
    assert Tied(es, c, NameTie);
    ChangeFollows(c, id, ch, n);
    AcceptanceGrows(es, a, j, c, Changed(c, ch));
    AppendTwice(es, a, j);
  }

  lemma AppendTwice(es: seq<Event>, a: Event, j: Event)
    ensures es + [a, j] == es + [a] + [j]
  {
  }

  lemma OtherExtendsWord(es: seq<Event>, c: CallRecord, id: string, ch: Change, n: nat)
    requires IsLogOf(es, c) && Applies(c, ch) && !ch.Acceptance?
    ensures IsLogOf(es + Recorded(id, ch, n), Changed(c, ch))
  {
    assert Tied(es, c, NameTie);
    ChangeFits(es, c, id, ch, n);
    ChangeFollows(c, id, ch, n);
    OtherGrows(es, LastRecorded(id, ch, n), c, Changed(c, ch));
  }

  /** The event of a newly created call. */
  predicate OpensAs(c: CallRecord, e: Event) {
    e.kind == CreatedEvent && e.userId == c.creatorId && e.payload == Room(c.roomId, c.visibility)
  }

  lemma TiesAtStart(c: CallRecord, e: Event, tie: Tie)
    requires CanOpen(c) && OpensAs(c, e)
    ensures Tied([e], c, tie)
  {
    var es := [e];
    assert IsEntry(es[0]);
    forall u ensures IndexOf(c.participants, u) >= 0 <==> Enters(es, u, 1) {
      if u == c.creatorId { assert IsEntry(es[0]) && es[0].userId == u; }
    }
    assert Moves(es[0], c.creatorId, true) && !MovesBetween(es, 0, 1, c.creatorId, false);
  }

  lemma WordOpens(c: CallRecord, e: Event)
    requires CanOpen(c) && OpensAs(c, e)
    ensures IsLogOf([e], c)
  {
    forall rule: Rule ensures Follows([e], rule) {}
    forall tie: Tie ensures Tied([e], c, tie) { TiesAtStart(c, e, tie); }
  }

  lemma WordOfChange(s: State, s': State, id: string, ch: Change)
    requires Atomic(s, s', id, ch) && WellWordedCall(s, id) && (ch.Opening? ==> ForCall(s.events, id) == [])
    ensures WellWordedCall(s', id)
  {
    LogGrows(s, s', id, ch, id);
    var es := ForCall(s.events, id);
    if ch.Opening? {
      WordOpens(ch.c, Recorded(id, ch, s.nextId)[0]);
      assert ForCall(s'.events, id) == [Recorded(id, ch, s.nextId)[0]];
    } else if ch.Acceptance? {
      AcceptanceExtendsWord(es, s.calls[id], id, ch, s.nextId);
    } else {
      OtherExtendsWord(es, s.calls[id], id, ch, s.nextId);
    }
  }

  /** A change leaves the other calls and their logs alone. */
  lemma OtherWordsStay(s: State, s': State, id: string, ch: Change, k: string)
    requires Atomic(s, s', id, ch) && WellWordedCall(s, k) && k != id
    ensures WellWordedCall(s', k)
  {
    LogGrows(s, s', id, ch, k);
    assert ForCall(s.events, k) + [] == ForCall(s.events, k);
    var _ := ChangePuts(s, s', id, ch);
  }

  lemma OpeningIsNew(s: State, s': State, id: string, ch: Change)
    requires WellKeyed(s) && Atomic(s, s', id, ch) && ch.Opening?
    ensures ForCall(s.events, id) == []
  {
    UnknownCallHasNoLog(s, id);
  }

  lemma ChangeKeepsWords(s: State, s': State, id: string, ch: Change)
    requires WellWorded(s) && WellKeyed(s) && Atomic(s, s', id, ch)
    ensures WellWorded(s')
  {
    if ch.Opening? { OpeningIsNew(s, s', id, ch); }
    forall k ensures WellWordedCall(s', k) {
      if k == id { WordOfChange(s, s', id, ch); } else { OtherWordsStay(s, s', id, ch, k); }
    }
  }

  lemma UnknownCallHasNoLog(s: State, id: string)
    requires WellKeyed(s) && id !in s.calls
    ensures ForCall(s.events, id) == []
  {
    NoEventsOf(s.events, id);
  }

  lemma {:induction false} NoEventsOf(events: seq<Event>, id: string)
    requires forall e :: e in events ==> e.callId != id
    ensures ForCall(events, id) == []
  {
    if events == [] {
    } else {
      NoEventsOf(events[..|events| - 1], id);
    }
  }

  // ---- laws: the code index ----

  predicate Live(s: State, id: string) { id in s.calls && s.calls[id].status != Ended }

  /** The index maps the code of each call that has not ended to that call, and nothing else. */
  ghost predicate IndexExact(s: State) {
    && (forall code :: code in s.codeIndex ==> Live(s, s.codeIndex[code]) && s.calls[s.codeIndex[code]].roomId == code)
    && (forall id :: Live(s, id) ==> s.calls[id].roomId in s.codeIndex && s.codeIndex[s.calls[id].roomId] == id)
  }

  lemma ChangedKeepsIdentity(c: CallRecord, ch: Change)
    requires Applies(c, ch)
    ensures Changed(c, ch).id == c.id && Changed(c, ch).roomId == c.roomId
    ensures Changed(c, ch).status == Ended <==> c.status == Ended || ch.Closing?
  {
  }

  lemma OpeningKeepsIndex(s: State, s': State, id: string, c: CallRecord)
    requires IndexExact(s) && id !in s.calls && c.roomId !in s.codeIndex && c.status != Ended
    requires s'.calls == s.calls[id := c] && s'.codeIndex == s.codeIndex[c.roomId := id]
    ensures IndexExact(s')
  {
    assert forall k :: k != id ==> (Live(s', k) <==> Live(s, k));
  }

  lemma ChangeKeepsIndex(s: State, s': State, id: string, ch: Change)
    requires IndexExact(s) && Atomic(s, s', id, ch)
    ensures IndexExact(s')
  {
    if ch.Opening? {
      OpeningKeepsIndex(s, s', id, ch.c);
    } else {
      ChangedKeepsIdentity(s.calls[id], ch);
    }
  }

  // ---- laws: insertion order ----

  ghost predicate OrderExact(s: State) {
    && (forall id :: id in s.order <==> id in s.calls)
    && (forall i, j :: 0 <= i < j < |s.order| ==> s.order[i] != s.order[j])
  }

  // ---------------------------------------------------------------------------------------
  // Every operation is made of such changes
  // ---------------------------------------------------------------------------------------

  /** One change of an operation, and the state it leads to. */
  datatype Move = Move(id: string, ch: Change, next: State)

  ghost predicate Path(s: State, links: seq<Move>, s': State)
    decreases |links|
  {
    var ok :=
      if links == [] then s == s'
      else Atomic(s, links[0].next, links[0].id, links[0].ch) && Path(links[0].next, links[1..], s');
    ok
  }

  ghost predicate Keyed(s: State) {
    forall k :: k in s.calls ==> s.calls[k].id == k
  }

  lemma PathPrepends(s: State, l: Move, links: seq<Move>, s': State)
    requires Atomic(s, l.next, l.id, l.ch) && Path(l.next, links, s')
    ensures Path(s, [l] + links, s')
  {
    assert ([l] + links)[1..] == links;
  }

  lemma {:induction false} PathExtends(s: State, links: seq<Move>, mid: State, l: Move)
    requires Path(s, links, mid) && Atomic(mid, l.next, l.id, l.ch)
    ensures Path(s, links + [l], l.next)
    decreases |links|
  {
    if links == [] {
      SinglePath(s, l);
      assert links + [l] == [l];
    } else {
      PathExtends(links[0].next, links[1..], mid, l);
      PathPrepends(s, links[0], links[1..] + [l], l.next);
      assert links + [l] == [links[0]] + (links[1..] + [l]);
    }
  }

  lemma SinglePath(s: State, l: Move)
    requires Atomic(s, l.next, l.id, l.ch)
    ensures Path(s, [l], l.next)
  {
    assert Path(l.next, [l][1..], l.next);
  }

  lemma InviteIsChange(s: State, id: string, u: string, now: int)
    requires id in s.calls && s.calls[id].id == id && s.calls[id].status != Ended && !IsParticipant(s.calls[id], u)
    ensures Atomic(s, InviteInternal(s, id, u, now), id, Invitation(u, s.calls[id].creatorId, now))
  {
  }

  lemma InviteIsPath(s: State, id: string, u: string, now: int) returns (links: seq<Move>)
    requires id in s.calls && s.calls[id].id == id && s.calls[id].status != Ended
    ensures Path(s, links, InviteInternal(s, id, u, now))
    ensures forall l :: l in links ==> l.ch.Invitation?
  {
    if IsParticipant(s.calls[id], u) {
      links := [];
    } else {
      InviteIsChange(s, id, u, now);
      var l := Move(id, Invitation(u, s.calls[id].creatorId, now), InviteInternal(s, id, u, now));
      SinglePath(s, l);
      links := [l];
    }
  }

  lemma InviteKeepsCall(s: State, id: string, u: string, now: int)
    requires id in s.calls && s.calls[id].id == id
    ensures InviteInternal(s, id, u, now).calls[id].id == id
    ensures InviteInternal(s, id, u, now).calls[id].status == s.calls[id].status
  {
  }

  lemma {:induction false} InviteAllIsPath(
      s0: State, first: seq<Move>, s: State, id: string, creatorId: string, invitees: seq<string>, now: int)
    returns (links: seq<Move>)
    requires Path(s0, first, s) && id in s.calls && s.calls[id].id == id && s.calls[id].status != Ended
    ensures
      var s' := InviteAll(s, id, creatorId, invitees, now);
      Path(s0, links, s') && s'.calls[id].id == id && s'.calls[id].status != Ended
    ensures forall l :: l in links ==> l in first || l.ch.Invitation?
    decreases |invitees|
  {
    if invitees == [] {
      links := first;
    } else {
      var n := |invitees| - 1;
      links := InviteAllIsPath(s0, first, s, id, creatorId, invitees[..n], now);
      var before := InviteAll(s, id, creatorId, invitees[..n], now);
      if invitees[n] != creatorId && !IsParticipant(before.calls[id], invitees[n]) {
        var after := InviteInternal(before, id, invitees[n], now);
        var l := Move(id, Invitation(invitees[n], before.calls[id].creatorId, now), after);
        InviteIsChange(before, id, invitees[n], now);
        InviteKeepsCall(before, id, invitees[n], now);
        PathExtends(s0, links, before, l);
        links := links + [l];
      }
    }
  }

  lemma {:induction false} PickedCodeIsFree(codeIndex: map<string, string>, draws: seq<Draw>)
    ensures PickCode(codeIndex, draws).Some? ==>
              PickCode(codeIndex, draws).value !in codeIndex && IsRoomCode(PickCode(codeIndex, draws).value)
  {
    if draws == [] {
    } else {
      PickedCodeIsFree(codeIndex, draws[1..]);
    }
  }

  lemma CreationIsChange(s: State, id: string, creatorId: string, v: Visibility, code: string, now: int)
    requires id !in s.calls && |id| == UUID_LENGTH && IsRoomCode(code) && code !in s.codeIndex
    ensures
      var c := NewCall(id, creatorId, v, code, now);
      Atomic(s, Created(s, c, now), id, Opening(c))
  {
  }

  lemma CreateIsPath(s: State, op: Op) returns (links: seq<Move>)
    requires op.CreateOp? && Legal(s, op)
    ensures Path(s, links, Step(s, op).0)
    ensures forall l :: l in links ==> !l.ch.Closing?
  {
    PickedCodeIsFree(s.codeIndex, op.draws);
    var picked := PickCode(s.codeIndex, op.draws);
    links := [];
    if picked.Some? {
      var v := if op.visibility.Some? then op.visibility.value else Link;
      var c := NewCall(op.id, op.creatorId, v, picked.value, op.now);
      var l := Move(op.id, Opening(c), Created(s, c, op.now));
      CreationIsChange(s, op.id, op.creatorId, v, picked.value, op.now);
      SinglePath(s, l);
      links := InviteAllIsPath(s, [l], Created(s, c, op.now), op.id, op.creatorId, op.invitees, op.now);
      CreateWithCode(s, op.id, op.creatorId, op.invitees, op.visibility, op.draws, op.now, v, picked.value);
    }
  }

  /** The single change of an accept, join, leave or end that does something. */
  function ChangeOf(op: Op): Change
    requires op.AcceptOp? || op.JoinOp? || op.LeaveOp? || op.EndOp?
  {
    match op
    case AcceptOp(_, u, now) => Acceptance(u, now)
    case JoinOp(_, u, now) => LinkJoin(u, now)
    case LeaveOp(_, u, now) => Departure(u, now)
    case EndOp(_, u, now) => Closing(u, now)
  }

  /** Every operation but a reset is a sequence of atomic changes. */
  lemma StepIsPath(s: State, op: Op) returns (links: seq<Move>)
    requires Keyed(s) && Legal(s, op) && op != ResetOp
    ensures Path(s, links, Step(s, op).0)
    ensures forall l :: l in links && l.ch.Closing? ==>
              op.EndOp? && op.callId == l.id && l.id in s.calls && IsParticipant(s.calls[l.id], op.userId)
  {
    links := [];
    if op.CreateOp? {
      links := CreateIsPath(s, op);
    } else if op.InviteOp? {
      if InviteStep(s, op.callId, op.inviter, op.invitee, op.now).1.Ok? {
        links := InviteIsPath(s, op.callId, op.invitee, op.now);
      }
    } else {
      if Step(s, op).0 != s {
        var l := Move(op.callId, ChangeOf(op), Step(s, op).0);
        SinglePath(s, l);
        links := [l];
      }
    }
  }

  lemma {:induction false} PathKeepsInv(s: State, links: seq<Move>, s': State)
    requires Inv(s) && Path(s, links, s')
    ensures Inv(s')
    decreases |links|
  {
    if links == [] {
    } else {
      ChangeKeepsInv(s, links[0].next, links[0].id, links[0].ch);
      PathKeepsInv(links[0].next, links[1..], s');
    }
  }

  lemma StartHasInv()
    ensures Inv(Calls.EMPTY)
  {
    forall law: Law ensures Obeys(Calls.EMPTY, law) {}
  }

  lemma StepKeepsInv(s: State, op: Op)
    requires Inv(s) && Legal(s, op)
    ensures Inv(Step(s, op).0)
  {
    if op == ResetOp {
      StartHasInv();
    } else {
      assert Obeys(s, Keys);
      var links := StepIsPath(s, op);
      PathKeepsInv(s, links, Step(s, op).0);
    }
  }

  lemma {:induction false} RunKeepsInv(s: State, ops: seq<Op>)
    requires Inv(s) && LegalRun(s, ops)
    ensures Inv(Run(s, ops))
    decreases |ops|
  {
    if ops == [] {
    } else {
      StepKeepsInv(s, ops[0]);
      RunKeepsInv(Step(s, ops[0]).0, ops[1..]);
    }
  }

  ghost predicate Reachable(s: State) {
    exists ops: seq<Op> :: LegalRun(Calls.EMPTY, ops) && Run(Calls.EMPTY, ops) == s
  }

  lemma ReachableObeys(s: State, law: Law)
    requires Reachable(s)
    ensures Obeys(s, law)
  {
    var ops: seq<Op> :| LegalRun(Calls.EMPTY, ops) && Run(Calls.EMPTY, ops) == s;
    StartHasInv();
    RunKeepsInv(Calls.EMPTY, ops);
  }

  // ---------------------------------------------------------------------------------------
  // Main results
  // ---------------------------------------------------------------------------------------

  /**
   The log is a complete record: in every reachable state, replaying the events of an identifier
   rebuilds that call, timestamps aside, and yields nothing for identifiers without a call.
   */
  lemma LogRebuildsEveryCall(s: State, id: string)
    requires Reachable(s)
    ensures Replay(ForCall(s.events, id)) == if id in s.calls then Some(Untimed(s.calls[id])) else None
  {
    ReachableObeys(s, Replays);
  }

  /** In every reachable state events are numbered 1..n in the order they were recorded. */
  lemma EventsAreNumbered(s: State)
    requires Reachable(s)
    ensures s.nextId == |s.events| + 1 && forall i :: 0 <= i < |s.events| ==> s.events[i].id == i + 1
  {
    ReachableObeys(s, Keys);
  }

  /** In every reachable state the log of each call is in the language, and nobody is listed twice in it. */
  lemma LogsAreWords(s: State, id: string)
    requires Reachable(s) && id in s.calls
    ensures Word(ForCall(s.events, id)) && Distinct(s.calls[id].participants)
  {
    ReachableObeys(s, Words);
    assert WellWordedCall(s, id);
    assert Tied(ForCall(s.events, id), s.calls[id], NameTie);
  }

  /** In every reachable state the index is exactly the bijection between live calls and their codes. */
  lemma IndexIsBijection(s: State)
    requires Reachable(s)
    ensures forall code, id :: (code in s.codeIndex && s.codeIndex[code] == id)
                          <==> (Live(s, id) && s.calls[id].roomId == code)
    ensures forall id, id' :: Live(s, id) && Live(s, id') && s.calls[id].roomId == s.calls[id'].roomId ==> id == id'
  {
    ReachableObeys(s, Index);
  }

  /**
   Looking up a string finds a call exactly when the string is its identifier, or the code it has
   while it is live; the identifier and the code of a live call therefore lead to the same call,
   because a 36-character identifier is never an 11-character code. What is not found is named.
   */
  lemma LookupIsExact(s: State, x: string, id: string)
    requires Reachable(s)
    ensures GetByIdOrCode(s, x) == Ok(id) <==> (id in s.calls && id == x) || (Live(s, id) && s.calls[id].roomId == x)
    ensures GetByRoomCode(s, x) == Ok(id) <==> Live(s, id) && s.calls[id].roomId == x
    ensures GetByIdOrCode(s, x).Ok? || GetByIdOrCode(s, x) == GetByRoomCode(s, x) == Err(NotFound(x))
  {
    ReachableObeys(s, Keys);
    ReachableObeys(s, Index);
  }

  /** The code leads to this call, which has not ended. */
  predicate IsBound(s: State, code: string, id: string) {
    var ok := Live(s, id) && GetByRoomCode(s, code) == Ok(id);
    ok
  }

  /**
   A code stays bound to its live call through every operation but an `end` of that call or a
   reset, even if an ended call that once had the same code is ended again.
   */
  lemma CodeStaysBound(s: State, op: Op, id: string)
    requires Reachable(s) && Legal(s, op) && Live(s, id)
    requires op != ResetOp && !(op.EndOp? && op.callId == id && IsParticipant(s.calls[id], op.userId))
    ensures IsBound(Step(s, op).0, s.calls[id].roomId, id)
  {
    var s' := Step(s, op).0;
    ReachableExtends(s, op);
    ReachableObeys(s, Keys);
    StepOnlyAdvances(s, op, id);
    LiveCodeFindsCall(s', id);
  }

  lemma LiveCodeFindsCall(s: State, id: string)
    requires Reachable(s) && Live(s, id)
    ensures IsBound(s, s.calls[id].roomId, id)
  {
    ReachableObeys(s, Index);
    ReachableObeys(s, Keys);
  }

  lemma ReachableExtends(s: State, op: Op)
    requires Reachable(s) && Legal(s, op)
    ensures Reachable(Step(s, op).0)
  {
    var ops: seq<Op> :| LegalRun(Calls.EMPTY, ops) && Run(Calls.EMPTY, ops) == s;
    RunExtends(Calls.EMPTY, ops, op);
    assert LegalRun(Calls.EMPTY, ops + [op]);
  }

  lemma {:induction false} RunExtends(s: State, ops: seq<Op>, op: Op)
    requires LegalRun(s, ops) && Legal(Run(s, ops), op)
    ensures LegalRun(s, ops + [op]) && Run(s, ops + [op]) == Step(Run(s, ops), op).0
    decreases |ops|
  {
    var all := ops + [op];
    if ops == [] {
      assert all[1..] == [] && LegalRun(Step(s, op).0, []) && Run(Step(s, op).0, []) == Step(s, op).0;
    } else {
      RunExtends(Step(s, ops[0]).0, ops[1..], op);
      assert all[1..] == ops[1..] + [op];
    }
  }

  // ---- every word is a log ----

  lemma SeparationOfPrefix(es: seq<Event>, k: nat, arriving: bool)
    requires Separated(es, arriving) && k <= |es|
    ensures Separated(es[..k], arriving)
  {
    var before := es[..k];
    forall i, j, u | BothMove(before, i, j, u, arriving) ensures MovesBetween(before, i, j, u, !arriving) {
      assert BothMove(es, i, j, u, arriving);
      var m :| i < m < j && Moves(es[m], u, !arriving);
      assert Moves(before[m], u, !arriving);
    }
  }

  lemma EntersInPrefix(es: seq<Event>, k: nat, u: string, end: nat)
    requires end <= k <= |es|
    ensures Enters(es[..k], u, end) <==> Enters(es, u, end)
  {
    if Enters(es, u, end) {
      var i :| 0 <= i < end && IsEntry(es[i]) && es[i].userId == u;
      assert es[..k][i] == es[i];
    }
  }

  lemma ActsOfPrefix(es: seq<Event>, k: nat)
    requires ActsAfterEntry(es) && k <= |es|
    ensures ActsAfterEntry(es[..k])
  {
    forall j | 0 <= j < k ensures Enters(es[..k], es[..k][j].userId, j + 1) {
      EntersInPrefix(es, k, es[j].userId, j + 1);
    }
  }

  lemma RuleOfPrefix(es: seq<Event>, k: nat, rule: Rule)
    requires Word(es) && 1 <= k <= |es| && es[k - 1].kind != AcceptedEvent
    ensures Follows(es[..k], rule)
  {
    assert Follows(es, rule);
    match rule
    case Alternates(arriving) => SeparationOfPrefix(es, k, arriving);
    case Acts => ActsOfPrefix(es, k);
    case Pairs =>
    case _ =>
  }

  lemma PrefixIsWord(es: seq<Event>, k: nat)
    requires Word(es) && 1 <= k <= |es| && es[k - 1].kind != AcceptedEvent
    ensures Word(es[..k])
  {
    forall rule: Rule ensures Follows(es[..k], rule) { RuleOfPrefix(es, k, rule); }
  }

  lemma EntryIsFirst(es: seq<Event>, k: nat)
    requires EntersOnce(es) && k < |es| && Enters(es, es[k].userId, k + 1)
    ensures IsEntry(es[k]) <==> !Enters(es, es[k].userId, k)
  {
  }

  lemma MoveIsDue(es: seq<Event>, k: nat, arriving: bool)
    requires Separated(es, arriving) && k < |es| && Moves(es[k], es[k].userId, arriving)
    ensures Undone(es[..k], es[k].userId, arriving)
  {
    var before, u := es[..k], es[k].userId;
    forall i | 0 <= i < k && Moves(before[i], u, arriving) ensures MovesBetween(before, i, k, u, !arriving) {
      assert BothMove(es, i, k, u, arriving);
      var m :| i < m < k && Moves(es[m], u, !arriving);
      assert Moves(before[m], u, !arriving);
    }
  }

  lemma EndedBefore(es: seq<Event>, k: nat)
    requires EndsQuietly(es) && k < |es| && HasEnded(es[..k])
    ensures es[k].kind == LeftEvent
  {
    var i :| 0 <= i < k && es[..k][i].kind == EndedEvent;
    assert es[i].kind == EndedEvent;
  }

  /** In a word each event but the first fits the events before it. */
  lemma WordFits(es: seq<Event>, k: nat)
    requires Word(es) && 1 <= k < |es|
    ensures Fits(es[..k], es[k])
  {
    assert Follows(es, Starts) && Follows(es, Ends) && Follows(es, EntersAtMostOnce);
    assert Follows(es, Acts) && Follows(es, Carries);
    EntryIsFirst(es, k);
    EntersInPrefix(es, k, es[k].userId, k);
    forall arriving | Moves(es[k], es[k].userId, arriving) ensures Undone(es[..k], es[k].userId, arriving) {
      assert Follows(es, Alternates(arriving));
      MoveIsDue(es, k, arriving);
    }
    if HasEnded(es[..k]) { EndedBefore(es, k); }
  }

  /** Events of one call, numbered as the store numbers them when there is no other call. */
  predicate IsAlone(es: seq<Event>, id: string) {
    forall i :: 0 <= i < |es| ==> es[i].callId == id && es[i].id == i + 1
  }

  /** A run whose log is exactly this. */
  predicate Yields(ops: seq<Op>, es: seq<Event>) {
    var ok := LegalRun(Calls.EMPTY, ops) && Run(Calls.EMPTY, ops).events == es;
    ok
  }

  /** What is known of a call from its log. */
  ghost predicate IsWholeLog(s: State, es: seq<Event>, id: string) {
    var ok :=
      && s.events == es && s.nextId == |es| + 1
      && id in s.calls && s.calls[id].id == id && IsLogOf(es, s.calls[id]);
    ok
  }

  lemma KnownFromLog(s: State, es: seq<Event>, id: string)
    requires Reachable(s) && s.events == es && es != [] && IsAlone(es, id)
    ensures IsWholeLog(s, es, id)
  {
    ReachableObeys(s, Keys);
    ReachableObeys(s, Words);
    assert es[0] in s.events && WellWordedCall(s, id);
    AllForCall(es, id);
  }

  lemma {:induction false} AllForCall(es: seq<Event>, id: string)
    requires forall i :: 0 <= i < |es| ==> es[i].callId == id
    ensures ForCall(es, id) == es
  {
    if es == [] {
    } else {
      AllForCall(es[..|es| - 1], id);
    }
  }

  /** The operation behind an event, other than those of creation and acceptance. */
  function OpBehind(e: Event, creatorId: string): Op
    requires !e.kind.CreatedEvent? && !e.kind.AcceptedEvent?
  {
    match e.kind
    case InvitedEvent => InviteOp(e.callId, creatorId, e.userId, e.createdAt)
    case JoinedEvent => JoinOp(e.callId, e.userId, e.createdAt)
    case LeftEvent => LeaveOp(e.callId, e.userId, e.createdAt)
    case EndedEvent => EndOp(e.callId, e.userId, e.createdAt)
  }

  lemma CreatorIsThere(es: seq<Event>, c: CallRecord)
    requires Coupled(es, c) && StartsOnce(es)
    ensures IsParticipant(c, c.creatorId)
  {
    assert Tied(es, c, OpeningTie) && Tied(es, c, EntryTie);
    assert IsEntry(es[0]) && Enters(es, c.creatorId, |es|);
  }

  /** What the service asks of a call before it records an event, other than those of creation and acceptance. */
  predicate MayHappen(c: CallRecord, e: Event) {
    var i := IndexOf(c.participants, e.userId);
    var ok :=
      match e.kind
      case InvitedEvent => c.status != Ended && i < 0 && e.payload == By(c.creatorId) && IsParticipant(c, c.creatorId)
      case JoinedEvent => c.status != Ended && i < 0 && e.payload == ViaLink && c.visibility == Link
      case LeftEvent => i >= 0 && c.participants[i].status != Left && e.payload == NoPayload
      case EndedEvent => c.status != Ended && i >= 0 && e.payload == NoPayload
      case _ => false;
    ok
  }

  lemma FittingMayHappen(es: seq<Event>, c: CallRecord, e: Event)
    requires IsLogOf(es, c) && Fits(es, e)
    requires !e.kind.AcceptedEvent? && (e.kind.JoinedEvent? ==> e.payload == ViaLink)
    ensures MayHappen(c, e)
  {
    assert Tied(es, c, EndTie) && Tied(es, c, EntryTie) && Tied(es, c, StatusTie) && Tied(es, c, OpeningTie);
    assert Follows(es, Starts);
    CreatorIsThere(es, c);
    assert IndexOf(c.participants, e.userId) >= 0 <==> Enters(es, e.userId, |es|);
    if e.kind.LeftEvent? { assert Moves(e, e.userId, false); }
  }

  lemma EventFollows(s: State, e: Event)
    requires e.callId in s.calls && s.calls[e.callId].id == e.callId && e.id == s.nextId
    requires MayHappen(s.calls[e.callId], e)
    ensures Step(s, OpBehind(e, s.calls[e.callId].creatorId)).0.events == s.events + [e]
  {
  }

  ghost predicate AcceptanceFits(es: seq<Event>, a: Event, j: Event) {
    var ok := IsAcceptance(a, j) && Fits(es, a) && Undone(es, a.userId, true);
    ok
  }

  lemma AcceptanceFollows(s: State, es: seq<Event>, a: Event, j: Event)
    requires IsWholeLog(s, es, a.callId) && j.callId == a.callId && a.id == |es| + 1 && j.id == |es| + 2
    requires AcceptanceFits(es, a, j)
    ensures Step(s, AcceptOp(a.callId, a.userId, a.createdAt)).0.events == es + [a] + [j]
  {
    var c := s.calls[a.callId];
    assert Tied(es, c, EndTie) && Tied(es, c, EntryTie) && Tied(es, c, StatusTie);
    assert IndexOf(c.participants, a.userId) >= 0 <==> Enters(es, a.userId, |es|);
  }

  lemma CreationYields(e: Event) returns (ops: seq<Op>)
    requires e.kind == CreatedEvent && PayloadFits(e, e) && |e.callId| == UUID_LENGTH && e.id == 1
    ensures Yields(ops, [e])
  {
    var d: Draw :| RoomCode(d) == e.payload.roomId;
    var draws, visibility := seq(MAX_ATTEMPTS, _ => d), e.payload.visibility;
    var op := CreateOp(e.callId, e.userId, [], Some(visibility), draws, e.createdAt);
    CreateWithCode(Calls.EMPTY, op.id, op.creatorId, [], op.visibility, draws, op.now, visibility, RoomCode(d));
    ops := [op];
    assert ops[1..] == [];
    assert LegalRun(Step(Calls.EMPTY, op).0, []) && Run(Step(Calls.EMPTY, op).0, []) == Step(Calls.EMPTY, op).0;
  }

  lemma YieldsMore(ops: seq<Op>, es: seq<Event>, op: Op, more: seq<Event>)
    requires Yields(ops, es) && !op.CreateOp? && Step(Run(Calls.EMPTY, ops), op).0.events == es + more
    ensures Yields(ops + [op], es + more)
  {
    RunExtends(Calls.EMPTY, ops, op);
  }

  lemma PairIsPlain(es: seq<Event>, k: nat)
    requires Word(es) && 1 <= k < |es| && es[k - 1].kind == AcceptedEvent
    ensures IsAcceptance(es[k - 1], es[k])
  {
    assert Follows(es, Pairs) && Follows(es, Carries);
    assert PayloadFits(es[0], es[k - 1]) && PayloadFits(es[0], es[k]);
  }

  /** Who accepts has left, or never been there, before the acceptance. */
  lemma AcceptanceIsDue(es: seq<Event>, k: nat)
    requires Word(es) && 1 <= k < |es| && es[k - 1].kind == AcceptedEvent && Moves(es[k], es[k].userId, true)
    ensures Undone(es[..k - 1], es[k].userId, true)
  {
    assert Follows(es, Alternates(true));
    MoveIsDue(es, k, true);
    assert es[..k] == es[..k - 1] + [es[k - 1]];
    UndoneGrows(es[..k - 1], es[k - 1], es[k].userId, true);
  }

  lemma LastAcceptance(es: seq<Event>)
    requires Word(es) && |es| >= 3 && es[|es| - 2].kind == AcceptedEvent
    ensures AcceptanceFits(es[..|es| - 2], es[|es| - 2], es[|es| - 1])
  {
    WordFits(es, |es| - 2);
    PairIsPlain(es, |es| - 1);
    AcceptanceIsDue(es, |es| - 1);
  }

  /** A word that ends with an acceptance, from a run for what comes before it. */
  lemma AcceptanceYields(es: seq<Event>, id: string, ops: seq<Op>)
    requires Word(es) && IsAlone(es, id) && |es| >= 3 && es[|es| - 2].kind == AcceptedEvent
    requires Yields(ops, es[..|es| - 2])
    ensures Yields(ops + [AcceptOp(id, es[|es| - 1].userId, es[|es| - 1].createdAt)], es)
  {
    var before, a, j := es[..|es| - 2], es[|es| - 2], es[|es| - 1];
    KnownFromLog(Run(Calls.EMPTY, ops), before, id);
    LastAcceptance(es);
    AcceptanceFollows(Run(Calls.EMPTY, ops), before, a, j);
    assert es == before + [a, j];
    YieldsMore(ops, before, AcceptOp(id, j.userId, j.createdAt), [a, j]);
  }

  /** A word that ends otherwise, from a run for what comes before its last event. */
  lemma EventYields(es: seq<Event>, id: string, ops: seq<Op>) returns (op: Op)
    requires |es| >= 2 && Word(es) && Word(es[..|es| - 1]) && IsAlone(es, id) && Yields(ops, es[..|es| - 1])
    requires !es[|es| - 1].kind.AcceptedEvent? && (es[|es| - 1].kind.JoinedEvent? ==> es[|es| - 1].payload == ViaLink)
    ensures Yields(ops + [op], es)
  {
    var before, e := es[..|es| - 1], es[|es| - 1];
    var s := Run(Calls.EMPTY, ops);
    KnownFromLog(s, before, id);
    WordFits(es, |es| - 1);
    FittingMayHappen(before, s.calls[id], e);
    EventFollows(s, e);
    op := OpBehind(e, s.calls[id].creatorId);
    assert es == before + [e];
    YieldsMore(ops, before, op, [e]);
  }

  /** How a word ends: with an acceptance, or with another event after none that awaits its answer. */
  ghost predicate EndsProperly(es: seq<Event>) {
    var n := |es| - 1;
    var ok :=
      && n >= 0
      && if n == 0 then es[0].kind == CreatedEvent && PayloadFits(es[0], es[0])
         else if es[n].kind == JoinedEvent && es[n].payload != ViaLink
         then n >= 2 && es[n - 1].kind == AcceptedEvent && es[n - 2].kind != AcceptedEvent
         else es[n].kind != AcceptedEvent && es[n - 1].kind != AcceptedEvent;
    ok
  }

  lemma LastOfWord(es: seq<Event>)
    requires Word(es)
    ensures EndsProperly(es)
  {
    assert Follows(es, Starts) && Follows(es, Pairs) && Follows(es, Carries);
    assert es[0].kind == CreatedEvent;
  }

  /** Every word of the language, numbered from 1, is the whole log of some run. */
  lemma {:induction false} EveryWordIsALog(es: seq<Event>, id: string) returns (ops: seq<Op>)
    requires Word(es) && IsAlone(es, id) && |id| == UUID_LENGTH
    ensures Yields(ops, es)
    decreases |es|
  {
    LastOfWord(es);
    var n := |es| - 1;
    if n == 0 {
      ops := CreationYields(es[0]);
      assert es == [es[0]];
    } else if es[n].kind == JoinedEvent && es[n].payload != ViaLink {
      PrefixIsWord(es, n - 1);
      var ops' := EveryWordIsALog(es[..n - 1], id);
      AcceptanceYields(es, id, ops');
      ops := ops' + [AcceptOp(id, es[n].userId, es[n].createdAt)];
    } else {
      PrefixIsWord(es, n);
      var ops' := EveryWordIsALog(es[..n], id);
      var op := EventYields(es, id, ops');
      ops := ops' + [op];
    }
  }

  /** The logs of runs about a single call are exactly the words of the language, numbered from 1. */
  lemma LogsAreExactlyWords(es: seq<Event>, id: string)
    requires es != [] && forall i :: 0 <= i < |es| ==> es[i].callId == id
    ensures (exists ops :: Yields(ops, es)) <==> Word(es) && IsAlone(es, id) && |id| == UUID_LENGTH
  {
    if ops :| Yields(ops, es) {
      var s := Run(Calls.EMPTY, ops);
      assert Reachable(s);
      EventsAreNumbered(s);
      KnownFromLog(s, es, id);
      AllForCall(es, id);
      LogsAreWords(s, id);
      ReachableObeys(s, Keys);
    }
    if Word(es) && IsAlone(es, id) && |id| == UUID_LENGTH { var ops := EveryWordIsALog(es, id); }
  }

  function Rank(st: Status): nat { match st case Pending => 0 case Active => 1 case Ended => 2 }

  /** One call before and after: nothing that was recorded is taken back. */
  predicate Advances(c: CallRecord, c': CallRecord) {
    var ok :=
      && c'.id == c.id && c'.roomId == c.roomId && c'.visibility == c.visibility && c'.creatorId == c.creatorId
      && c'.createdAt == c.createdAt && Rank(c.status) <= Rank(c'.status)
      && (c.status != Pending ==> c'.startedAt == c.startedAt)
      && (c.status == Ended ==> c'.endedAt == c.endedAt && c'.endedBy == c.endedBy)
      && |c.participants| <= |c'.participants|
      && forall i :: 0 <= i < |c.participants| ==>
           && c'.participants[i].userId == c.participants[i].userId && c'.participants[i].role == c.participants[i].role
           && c'.participants[i].invitedAt == c.participants[i].invitedAt;
    ok
  }

  lemma ChangeAdvances(c: CallRecord, ch: Change)
    requires Applies(c, ch)
    ensures Advances(c, Changed(c, ch))
    ensures Changed(c, ch).status == Ended ==> c.status == Ended || ch.Closing?
  {
  }

  lemma {:induction false} PathAdvances(s: State, links: seq<Move>, s': State, id: string)
    requires Path(s, links, s') && id in s.calls
    ensures id in s'.calls && Advances(s.calls[id], s'.calls[id])
    ensures s'.calls[id].status == Ended && s.calls[id].status != Ended ==>
              exists l :: l in links && l.ch.Closing? && l.id == id
    decreases |links|
  {
    if links == [] {
    } else {
      var l := links[0];
      if l.id == id { ChangeAdvances(s.calls[id], l.ch); }
      assert id in l.next.calls && Advances(s.calls[id], l.next.calls[id]);
      PathAdvances(l.next, links[1..], s', id);
      assert forall x :: x in links[1..] ==> x in links;
    }
  }

  /** Statuses never move backwards, and participant lists only grow, with names and roles fixed. */
  lemma StepOnlyAdvances(s: State, op: Op, id: string)
    requires Keyed(s) && Legal(s, op) && op != ResetOp && id in s.calls
    ensures id in Step(s, op).0.calls && Advances(s.calls[id], Step(s, op).0.calls[id])
    ensures Step(s, op).0.calls[id].status == Ended ==>
              s.calls[id].status == Ended || (op.EndOp? && op.callId == id && IsParticipant(s.calls[id], op.userId))
  {
    var links := StepIsPath(s, op);
    PathAdvances(s, links, Step(s, op).0, id);
  }

  lemma {:induction false} PathKeepsKeyed(s: State, links: seq<Move>, s': State)
    requires Keyed(s) && Path(s, links, s')
    ensures Keyed(s')
    decreases |links|
  {
    if links == [] {
    } else {
      var l := links[0];
      if !l.ch.Opening? { ChangedKeepsIdentity(s.calls[l.id], l.ch); }
      PathKeepsKeyed(l.next, links[1..], s');
    }
  }

  /** The same over whole runs without a reset. */
  lemma {:induction false} RunOnlyAdvances(s: State, ops: seq<Op>, id: string)
    requires Keyed(s) && LegalRun(s, ops) && ResetOp !in ops && id in s.calls
    ensures id in Run(s, ops).calls && Advances(s.calls[id], Run(s, ops).calls[id])
    decreases |ops|
  {
    if ops == [] {
    } else {
      var s' := Step(s, ops[0]).0;
      var links := StepIsPath(s, ops[0]);
      PathKeepsKeyed(s, links, s');
      StepOnlyAdvances(s, ops[0], id);
      RunOnlyAdvances(s', ops[1..], id);
    }
  }

  // ---- failures and retries ----

  /** An operation that throws has changed nothing. */
  lemma FailuresChangeNothing(s: State, op: Op)
    requires Step(s, op).1.Err?
    ensures Step(s, op).0 == s
  {
  }

  /** The operations of a run that do not throw. */
  function Successful(s: State, ops: seq<Op>): seq<Op>
    decreases |ops|
  {
    if ops == [] then []
    else
      var (s', outcome) := Step(s, ops[0]);
      (if outcome.Ok? then [ops[0]] else []) + Successful(s', ops[1..])
  }

  /** A run in which no operation throws. */
  predicate AllSucceed(s: State, ops: seq<Op>)
    decreases |ops|
  {
    ops == [] || (Legal(s, ops[0]) && Step(s, ops[0]).1.Ok? && AllSucceed(Step(s, ops[0]).0, ops[1..]))
  }

  /** Failures leave no trace: without the operations that throw, every run ends in the same state. */
  lemma {:induction false} FailuresLeaveNoTrace(s: State, ops: seq<Op>)
    requires LegalRun(s, ops)
    ensures Run(s, Successful(s, ops)) == Run(s, ops) && AllSucceed(s, Successful(s, ops))
    decreases |ops|
  {
    if ops == [] {
    } else {
      var (s', outcome) := Step(s, ops[0]);
      FailuresLeaveNoTrace(s', ops[1..]);
      if outcome.Ok? {
        assert ([ops[0]] + Successful(s', ops[1..]))[1..] == Successful(s', ops[1..]);
      } else {
        FailuresChangeNothing(s, ops[0]);
        assert Successful(s, ops) == Successful(s', ops[1..]);
      }
    }
  }

  /** The same operation at another time. */
  function At(op: Op, now: int): Op {
    match op
    case CreateOp(id, creator, invitees, visibility, draws, _) =>
      CreateOp(id, creator, invitees, visibility, draws, now)
    case InviteOp(id, inviter, invitee, _) => InviteOp(id, inviter, invitee, now)
    case AcceptOp(id, u, _) => AcceptOp(id, u, now)
    case JoinOp(id, u, _) => JoinOp(id, u, now)
    case LeaveOp(id, u, _) => LeaveOp(id, u, now)
    case EndOp(id, u, _) => EndOp(id, u, now)
    case ResetOp => ResetOp
  }

  lemma RepeatedInvite(s: State, op: Op, later: int)
    requires Keyed(s) && op.InviteOp? && InviteStep(s, op.callId, op.inviter, op.invitee, op.now).1.Ok?
    ensures Step(Step(s, op).0, At(op, later)) == Step(s, op)
  {
  }

  lemma RepeatedAccept(s: State, op: Op, later: int)
    requires Keyed(s) && op.AcceptOp? && AcceptStep(s, op.callId, op.userId, op.now).1.Ok?
    ensures Step(Step(s, op).0, At(op, later)) == Step(s, op)
  {
    var ps := s.calls[op.callId].participants;
    var i := IndexOf(ps, op.userId);
    IndexAfterUpdate(ps, i, ps[i].(status := Joined, joinedAt := Some(op.now)), op.userId);
  }

  lemma RepeatedLeave(s: State, op: Op, later: int)
    requires Keyed(s) && op.LeaveOp? && LeaveStep(s, op.callId, op.userId, op.now).1.Ok?
    ensures Step(Step(s, op).0, At(op, later)) == Step(s, op)
  {
    var ps := s.calls[op.callId].participants;
    var i := IndexOf(ps, op.userId);
    IndexAfterUpdate(ps, i, ps[i].(status := Left, leftAt := Some(op.now)), op.userId);
  }

  lemma RepeatedEnd(s: State, op: Op, later: int)
    requires Keyed(s) && op.EndOp?
    ensures Step(Step(s, op).0, At(op, later)) == Step(s, op)
  {
  }

  /**
   Retries are harmless: in every reachable state, repeating an invite, accept, join, leave, end or
   reset right away, at whatever time, is answered in the same way and changes nothing, log included.
   */
  lemma RetriesChangeNothing(s: State, op: Op, later: int)
    requires Reachable(s) && !op.CreateOp?
    ensures Step(Step(s, op).0, At(op, later)) == Step(s, op)
  {
    ReachableObeys(s, Keys);
    if Step(s, op).1.Ok? {
      match op
      case InviteOp(_, _, _, _) => RepeatedInvite(s, op, later);
      case AcceptOp(_, _, _) => RepeatedAccept(s, op, later);
      case JoinOp(_, _, _) =>
      case LeaveOp(_, _, _) => RepeatedLeave(s, op, later);
      case EndOp(_, _, _) => RepeatedEnd(s, op, later);
      case ResetOp =>
    } else {
      RefusedAgain(s, op, later);
    }
  }

  lemma RefusedAgain(s: State, op: Op, later: int)
    requires Step(s, op).1.Err? && !op.CreateOp?
    ensures Step(s, At(op, later)) == Step(s, op) && Step(s, op).0 == s
  {
  }

  predicate Taken(codeIndex: map<string, string>, d: Draw) { RoomCode(d) in codeIndex }

  ghost predicate BelongsToLiveCall(s: State, d: Draw) {
    exists id :: Live(s, id) && s.calls[id].roomId == RoomCode(d)
  }

  /** `createCall` gives up exactly when every code it draws belongs to a live call. */
  lemma CollisionIff(s: State, op: Op)
    requires Reachable(s) && op.CreateOp?
    ensures Step(s, op).1 == Err(CodeCollision)
       <==> forall i :: 0 <= i < |op.draws| ==> BelongsToLiveCall(s, op.draws[i])
  {
    ReachableObeys(s, Index);
    NoPickIff(s.codeIndex, op.draws);
    forall d: Draw ensures Taken(s.codeIndex, d) <==> BelongsToLiveCall(s, d) {
      if Taken(s.codeIndex, d) { assert Live(s, s.codeIndex[RoomCode(d)]); }
    }
  }

  lemma {:induction false} NoPickIff(codeIndex: map<string, string>, draws: seq<Draw>)
    ensures PickCode(codeIndex, draws).None? <==> forall i :: 0 <= i < |draws| ==> Taken(codeIndex, draws[i])
  {
    if draws == [] {
    } else {
      var d, rest := draws[0], draws[1..];
      NoPickIff(codeIndex, rest);
      assert draws == [d] + rest;
    }
  }

  // ---- listings ----

  predicate HasStatus(s: State, st: Status, id: string) { id in s.calls && s.calls[id].status == st }

  function StatusTest(s: State, st: Status): string -> bool { id => HasStatus(s, st, id) }

  /** `listForUser` lists by descending creation time, calls created at the same time in insertion order. */
  lemma ListingIsStableSort(s: State, userId: string, status: Option<Status>)
    ensures StableSort.IsStableSort(Selected(s, userId, status), ListForUser(s, userId, status), CreatedAt(s))
    ensures multiset(ListForUser(s, userId, status)) == multiset(Selected(s, userId, status))
  {
    StableSort.SortIsStable(Selected(s, userId, status), CreatedAt(s));
  }

  /** In every reachable state it lists exactly the calls the user takes part in, once each. */
  lemma ListingIsComplete(s: State, userId: string)
    requires Reachable(s)
    ensures multiset(ListForUser(s, userId, None))
            == multiset(set id | id in s.calls && IsParticipant(s.calls[id], userId))
  {
    ReachableObeys(s, Order);
    ListingIsStableSort(s, userId, None);
    StableSort.FilterOnce(s.order, Selector(s, userId, None));
    assert (set id | id in s.calls && IsParticipant(s.calls[id], userId))
        == StableSort.Chosen(s.order, Selector(s, userId, None));
  }

  /** Listing one status is filtering the full listing. */
  lemma ListingCommutesWithFilter(s: State, userId: string, st: Status)
    ensures ListForUser(s, userId, Some(st)) == StableSort.Filter(ListForUser(s, userId, None), StatusTest(s, st))
  {
    FilterOfSelected(s, s.order, userId, st);
    StableSort.SortCommutesWithFilter(Selected(s, userId, None), StatusTest(s, st), CreatedAt(s));
  }

  lemma {:induction false} FilterOfSelected(s: State, order: seq<string>, userId: string, st: Status)
    ensures StableSort.Filter(order, Selector(s, userId, Some(st)))
            == StableSort.Filter(StableSort.Filter(order, Selector(s, userId, None)), StatusTest(s, st))
  {
    if order == [] {
    } else {
      FilterOfSelected(s, order[1..], userId, st);
      StableSort.FilterCons(order[0], StableSort.Filter(order[1..], Selector(s, userId, None)), StatusTest(s, st));
    }
  }

  /** The three statuses partition the full listing. */
  lemma ListingsPartition(s: State, userId: string)
    ensures multiset(ListForUser(s, userId, None))
            == multiset(ListForUser(s, userId, Some(Pending)))
               + multiset(ListForUser(s, userId, Some(Active)))
               + multiset(ListForUser(s, userId, Some(Ended)))
  {
    var all := ListForUser(s, userId, None);
    StableSort.SortIsStable(Selected(s, userId, None), CreatedAt(s));
    forall id | id in all ensures id in s.calls {
      assert id in multiset(all);
      assert id in Selected(s, userId, None);
      StableSort.FilterMember(s.order, Selector(s, userId, None), id);
    }
    StableSort.FilterPartition(all, StatusTest(s, Pending), StatusTest(s, Active), StatusTest(s, Ended));
    ListingCommutesWithFilter(s, userId, Pending);
    ListingCommutesWithFilter(s, userId, Active);
    ListingCommutesWithFilter(s, userId, Ended);
  }
}
