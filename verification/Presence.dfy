/**
 In-memory presence (src/presence/in-memory-presence.service.ts).

 Sockets are kept in buckets, one per user or call, and a bucket is dropped when the timer set by
 its last refresh fires. The source spells the same code out twice, once for users and once for
 calls; here one table of buckets is used twice. Clock readings are integer milliseconds.
 */
module Presence {
  import opened Common

  const DEFAULT_PRESENCE_TTL_SECONDS := 60

  /** The longest delay that Node's setTimeout accepts; any other delay becomes one millisecond. */
  const TIMEOUT_MAX := 0x7FFF_FFFF

  function ResolvePresenceTtl(ttl: Option<int>): int {
    if ttl.None? || ttl.value <= 0 then DEFAULT_PRESENCE_TTL_SECONDS else ttl.value
  }

  /** The TTL of one call: the one it asks for, or the service's default. */
  function TtlOr(ttlSeconds: Option<int>, defaultTtlSeconds: int): int {
    if ttlSeconds.Some? then ttlSeconds.value else defaultTtlSeconds
  }

  function TimerDelay(ms: int): int { if 1 <= ms <= TIMEOUT_MAX then ms else 1 }

  datatype Timer = Timer(key: string, due: int)

  datatype TtlEntry = TtlEntry(timer: nat, expiresAt: int)

  /** Buckets, their TTL entries, and the timers pending in the event loop, by timer handle. */
  datatype Table = Table(
    buckets: map<string, set<string>>,
    ttl: map<string, TtlEntry>,
    timers: map<nat, Timer>,
    nextTimer: nat)

  const EMPTY := Table(map[], map[], map[], 0)

  function ClearTtl(t: Table, key: string): Table {
    if key !in t.ttl then t else t.(timers := t.timers - {t.ttl[key].timer}, ttl := t.ttl - {key})
  }

  function RefreshTtl(t: Table, key: string, ttlSeconds: int, now: int): Table {
    var c := ClearTtl(t, key);
    var ttlMs := ttlSeconds * 1000;
    c.(timers := c.timers[c.nextTimer := Timer(key, now + TimerDelay(ttlMs))],
       ttl := c.ttl[key := TtlEntry(c.nextTimer, now + ttlMs)],
       nextTimer := c.nextTimer + 1)
  }

  function Bucket(t: Table, key: string): set<string> { if key in t.buckets then t.buckets[key] else {} }

  /** `markOnline` and `trackCall`. */
  function Mark(t: Table, key: string, socketId: string, ttlSeconds: int, now: int): Table {
    RefreshTtl(t.(buckets := t.buckets[key := Bucket(t, key) + {socketId}]), key, ttlSeconds, now)
  }

  /** `markOffline` and `untrackCall`. */
  function Unmark(t: Table, key: string, socketId: string): Table {
    if key !in t.buckets then t
    else if t.buckets[key] - {socketId} == {} then ClearTtl(t.(buckets := t.buckets - {key}), key)
    else t.(buckets := t.buckets[key := t.buckets[key] - {socketId}])
  }

  /** Handles and keys of the timers that are due. */
  function Due(t: Table, now: int): set<nat> { set id | id in t.timers && t.timers[id].due <= now }

  function KeysOf(timers: map<nat, Timer>, ids: set<nat>): set<string> {
    set id | id in ids && id in timers :: timers[id].key
  }

  function DueKeys(t: Table, now: int): set<string> { KeysOf(t.timers, Due(t, now)) }

  lemma KeysOfGrows(timers: map<nat, Timer>, ids: set<nat>, id: nat)
    requires id in timers
    ensures KeysOf(timers, ids + {id}) == KeysOf(timers, ids) + {timers[id].key}
  {
  }

  /** Timers fire; each callback drops a bucket and its TTL entry. */
  function FireAll(t: Table, ids: set<nat>): Table {
    t.(buckets := t.buckets - KeysOf(t.timers, ids),
       ttl := t.ttl - KeysOf(t.timers, ids),
       timers := t.timers - ids)
  }

  /** The event loop runs every due timer. */
  function FireDue(t: Table, now: int): Table { FireAll(t, Due(t, now)) }

  function FireOne(t: Table, id: nat): Table
    requires id in t.timers
  {
    var key := t.timers[id].key;
    t.(buckets := t.buckets - {key}, ttl := t.ttl - {key}, timers := t.timers - {id})
  }

  lemma FireOneFirst(t: Table, id: nat, now: int)
    requires id in Due(t, now)
    ensures Due(FireOne(t, id), now) == Due(t, now) - {id}
    ensures FireDue(FireOne(t, id), now) == FireDue(t, now)
  {
    var t', key := FireOne(t, id), t.timers[id].key;
    var rest := Due(t, now) - {id};
    assert Due(t', now) == rest;
    assert KeysOf(t'.timers, rest) == KeysOf(t.timers, rest);
    KeysOfGrows(t.timers, rest, id);
    assert rest + {id} == Due(t, now) == {id} + rest;
    MinusTwice(t.timers, {id}, rest);
    MinusTwice(t.buckets, {key}, KeysOf(t.timers, rest));
    MinusTwice(t.ttl, {key}, KeysOf(t.timers, rest));
    assert {key} + KeysOf(t.timers, rest) == DueKeys(t, now);
  }

  lemma NothingDue(t: Table, now: int)
    requires Due(t, now) == {}
    ensures FireDue(t, now) == t
  {
    assert DueKeys(t, now) == {};
  }

  /** One of the two tables of the service, with the timers it has set. */
  class TtlBuckets {
    var buckets: map<string, set<string>>
    var ttl: map<string, TtlEntry>
    var timers: map<nat, Timer>
    var nextTimer: nat

    ghost function Model(): Table
      reads this
    {
      Table(buckets, ttl, timers, nextTimer)
    }

    constructor ()
      ensures Model() == EMPTY
    {
      buckets, ttl, timers, nextTimer := map[], map[], map[], 0;
    }

    method ClearEntry(key: string)
      modifies this
      ensures Model() == ClearTtl(old(Model()), key)
    {
      if key !in ttl { return; }
      timers := timers - {ttl[key].timer};
      ttl := ttl - {key};
    }

    method Refresh(key: string, ttlSeconds: int, now: int)
      modifies this
      ensures Model() == RefreshTtl(old(Model()), key, ttlSeconds, now)
    {
      ClearEntry(key);
      var ttlMs := ttlSeconds * 1000;
      var timer := nextTimer;
      nextTimer := nextTimer + 1;
      timers := timers[timer := Timer(key, now + TimerDelay(ttlMs))];
      ttl := ttl[key := TtlEntry(timer, now + ttlMs)];
    }

    method Add(key: string, socketId: string, ttlSeconds: int, now: int)
      modifies this
      ensures Model() == Mark(old(Model()), key, socketId, ttlSeconds, now)
    {
      var bucket := if key in buckets then buckets[key] else {};
      buckets := buckets[key := bucket + {socketId}];
      Refresh(key, ttlSeconds, now);
    }

    method Remove(key: string, socketId: string)
      modifies this
      ensures Model() == Unmark(old(Model()), key, socketId)
    {
      if key !in buckets { return; }
      var bucket := buckets[key] - {socketId};
      if bucket == {} {
        buckets := buckets - {key};
        ClearEntry(key);
      } else {
        buckets := buckets[key := bucket];
      }
    }

    /** The callback of a timer, which Node has already taken out of its queue. */
    method Expire(key: string)
      modifies this`buckets, this`ttl
      ensures buckets == old(buckets) - {key} && ttl == old(ttl) - {key}
    {
      buckets := buckets - {key};
      ttl := ttl - {key};
    }

    /** Node takes the timer out of its queue and runs its callback. */
    method Fire(id: nat)
      requires id in timers
      modifies this
      ensures Model() == FireOne(old(Model()), id)
    {
      var key := timers[id].key;
      timers := timers - {id};
      Expire(key);
    }

    /** One turn of the event loop: due timers fire in some order. */
    method RunTimers(now: int)
      modifies this
      ensures Model() == FireDue(old(Model()), now)
    {
      ghost var was := Model();
      var due := set id | id in timers && timers[id].due <= now;
      while due != {}
        invariant due == Due(Model(), now) && FireDue(Model(), now) == FireDue(was, now)
        decreases |due|
      {
        var id :| id in due;
        FireOneFirst(Model(), id, now);
        Fire(id);
        due := due - {id};
      }
      NothingDue(Model(), now);
    }

    method Occupied(keys: seq<string>) returns (online: set<string>)
      ensures online == set k | k in keys && k in buckets && buckets[k] != {}
    {
      online := {};
      for i := 0 to |keys|
        invariant online == set k | k in keys[..i] && k in buckets && buckets[k] != {}
      {
        if keys[i] in buckets && buckets[keys[i]] != {} {
          online := online + {keys[i]};
        }
      }
      assert keys[..|keys|] == keys;
    }

    method Members(key: string) returns (sockets: set<string>)
      ensures sockets == Bucket(Model(), key)
    {
      sockets := if key in buckets then buckets[key] else {};
    }

    method Destroy()
      modifies this
      ensures buckets == map[] && ttl == map[] && nextTimer == old(nextTimer)
      ensures timers == old(timers) - set k | k in old(ttl) :: old(ttl)[k].timer
      ensures TimersMatch(old(Model())) ==> timers == map[]
    {
      var entries := ttl.Keys;
      ghost var was := timers;
      while entries != {}
        invariant entries <= ttl.Keys && ttl == old(ttl) && nextTimer == old(nextTimer)
        invariant timers == was - set k | k in ttl.Keys - entries :: ttl[k].timer
        decreases |entries|
      {
        var key :| key in entries;
        timers := timers - {ttl[key].timer};
        entries := entries - {key};
      }
      assert ttl.Keys - entries == ttl.Keys;
      ttl := map[];
      buckets := map[];
    }
  }

  class InMemoryPresenceService {
    const users: TtlBuckets
    const calls: TtlBuckets
    const defaultTtlSeconds: int

    constructor (defaultTtl: Option<int>)
      ensures users != calls && fresh(users) && fresh(calls)
      ensures users.Model() == EMPTY && calls.Model() == EMPTY
      ensures defaultTtlSeconds == ResolvePresenceTtl(defaultTtl)
    {
      users := new TtlBuckets();
      calls := new TtlBuckets();
      defaultTtlSeconds := ResolvePresenceTtl(defaultTtl);
    }

    method MarkOnline(userId: string, socketId: string, ttlSeconds: Option<int>, now: int)
      modifies users
      ensures users.Model() == Mark(old(users.Model()), userId, socketId, TtlOr(ttlSeconds, defaultTtlSeconds), now)
    {
      users.Add(userId, socketId, TtlOr(ttlSeconds, defaultTtlSeconds), now);
    }

    method MarkOffline(userId: string, socketId: string)
      modifies users
      ensures users.Model() == Unmark(old(users.Model()), userId, socketId)
    {
      users.Remove(userId, socketId);
    }

    method WhoIsOnline(userIds: seq<string>) returns (online: set<string>)
      ensures online == set u | u in userIds && Bucket(users.Model(), u) != {}
    {
      online := users.Occupied(userIds);
    }

    method TrackCall(callId: string, socketId: string, ttlSeconds: Option<int>, now: int)
      modifies calls
      ensures calls.Model() == Mark(old(calls.Model()), callId, socketId, TtlOr(ttlSeconds, defaultTtlSeconds), now)
    {
      calls.Add(callId, socketId, TtlOr(ttlSeconds, defaultTtlSeconds), now);
    }

    method UntrackCall(callId: string, socketId: string)
      modifies calls
      ensures calls.Model() == Unmark(old(calls.Model()), callId, socketId)
    {
      calls.Remove(callId, socketId);
    }

    method CallSockets(callId: string) returns (sockets: set<string>)
      ensures sockets == Bucket(calls.Model(), callId)
    {
      sockets := calls.Members(callId);
    }

    method SocketsForUser(userId: string) returns (sockets: set<string>)
      ensures sockets == Bucket(users.Model(), userId)
    {
      sockets := users.Members(userId);
    }
  }

  // ---------------------------------------------------------------------------------------
  // Runs
  // ---------------------------------------------------------------------------------------

  datatype Op =
    | MarkOp(key: string, socketId: string, ttlSeconds: int, now: int)
    | UnmarkOp(key: string, socketId: string, now: int)

  /** The table together with everything that has been asked of it. */
  datatype World = World(table: Table, history: seq<Op>)

  const START := World(EMPTY, [])

  /** Due timers fire before the next operation is handled. */
  function Handled(t: Table, op: Op): Table {
    match op
    case MarkOp(key, s, ttl, now) => Mark(t, key, s, ttl, now)
    case UnmarkOp(key, s, _) => Unmark(t, key, s)
  }

  /** An operation, recorded. */
  function Asking(w: World, op: Op): World { World(Handled(w.table, op), w.history + [op]) }

  /** The world at time `now`, once the timers due by then have fired. */
  function Later(w: World, now: int): World { w.(table := FireDue(w.table, now)) }

  function Next(w: World, op: Op): World { Asking(Later(w, op.now), op) }

  function Run(w: World, ops: seq<Op>): World
    decreases |ops|
  {
    if ops == [] then w else Run(Next(w, ops[0]), ops[1..])
  }

  predicate Monotone(ops: seq<Op>, start: int, end: int)
    decreases |ops|
  {
    if ops == [] then start <= end else start <= ops[0].now && Monotone(ops[1..], ops[0].now, end)
  }

  // ---- timers ----

  /**
   Each live bucket is nonempty, has one TTL entry and exactly one pending timer, namely the one
   its entry names; no other timer is pending.
   */
  ghost predicate TimersMatch(t: Table) {
    var ok :=
      && t.ttl.Keys == t.buckets.Keys
      && (forall key :: key in t.buckets ==> t.buckets[key] != {})
      && (forall key :: key in t.ttl ==> t.ttl[key].timer in t.timers && t.timers[t.ttl[key].timer].key == key)
      && (forall id :: id in t.timers ==> t.timers[id].key in t.ttl && t.ttl[t.timers[id].key].timer == id)
      && (forall id :: id in t.timers ==> id < t.nextTimer);
    ok
  }

  /** When the bucket of `key` will be dropped. */
  function Expiry(t: Table, key: string): int
    requires TimersMatch(t) && key in t.buckets
  {
    t.timers[t.ttl[key].timer].due
  }

  lemma FireDueDropsExpired(t: Table, now: int)
    requires TimersMatch(t)
    ensures TimersMatch(FireDue(t, now))
    ensures forall key :: key in FireDue(t, now).buckets <==> key in t.buckets && now < Expiry(t, key)
    ensures forall key :: key in FireDue(t, now).buckets ==>
      && FireDue(t, now).buckets[key] == t.buckets[key]
      && Expiry(FireDue(t, now), key) == Expiry(t, key)
  {
    forall key | key in t.buckets ensures key in DueKeys(t, now) <==> Expiry(t, key) <= now {
      var id := t.ttl[key].timer;
      if id in Due(t, now) { assert t.timers[id].key in DueKeys(t, now); }
    }
  }

  lemma TimersAreAhead(t: Table, now: int)
    ensures forall id :: id in FireDue(t, now).timers ==> now < FireDue(t, now).timers[id].due
  {
  }

  lemma MarkSetsOneTimer(t: Table, key: string, s: string, ttlSeconds: int, now: int)
    requires TimersMatch(t)
    ensures
      var t' := Mark(t, key, s, ttlSeconds, now);
      && TimersMatch(t')
      && t'.buckets == t.buckets[key := Bucket(t, key) + {s}]
      && Expiry(t', key) == now + TimerDelay(ttlSeconds * 1000)
      && forall k :: k in t.buckets && k != key ==> Expiry(t', k) == Expiry(t, k)
  {
  }

  lemma UnmarkKeepsOtherTimers(t: Table, key: string, s: string)
    requires TimersMatch(t)
    ensures
      var t' := Unmark(t, key, s);
      && TimersMatch(t')
      && (forall k :: Bucket(t', k) == if k == key then Bucket(t, k) - {s} else Bucket(t, k))
      && forall k :: k in t'.buckets ==> k in t.buckets && Expiry(t', k) == Expiry(t, k)
  {
  }

  // ---- the history predicate ----

  predicate Marks(op: Op, key: string) { op.MarkOp? && op.key == key }

  /** When the TTL set by the last refresh of `key` runs out. */
  function Deadline(h: seq<Op>, key: string): Option<int> {
    if h == [] then None
    else if Marks(h[|h| - 1], key) then
      Some(h[|h| - 1].now + TimerDelay(h[|h| - 1].ttlSeconds * 1000))
    else Deadline(h[..|h| - 1], key)
  }

  predicate Before(t: int, deadline: Option<int>) { deadline.Some? && t < deadline.value }

  /** Socket `s` was added to `key` by operation `i` and not removed since. */
  predicate Holds(h: seq<Op>, i: int, key: string, s: string) {
    && 0 <= i < |h| && Marks(h[i], key) && h[i].socketId == s
    && forall j :: i < j < |h| && h[j].UnmarkOp? ==> !(h[j].key == key && h[j].socketId == s)
  }

  /** Refresh number `k` of the bucket, if it is one, came in time. */
  predicate InTimeAt(h: seq<Op>, k: int, key: string) {
    0 <= k < |h| && Marks(h[k], key) ==> Before(h[k].now, Deadline(h[..k], key))
  }

  /** Since operation `i`, every refresh of `key` came before the TTL of the previous one ran out. */
  predicate Unbroken(h: seq<Op>, i: int, key: string) {
    forall k :: 0 <= i < k < |h| ==> InTimeAt(h, k, key)
  }

  /** The specification: who ought to be reported for `key` at time `t`. */
  ghost predicate Reported(h: seq<Op>, key: string, s: string, t: int) {
    Before(t, Deadline(h, key)) && exists i :: Holds(h, i, key, s) && Unbroken(h, i, key)
  }

  lemma HoldsGrows(h: seq<Op>, op: Op, i: int, key: string, s: string)
    requires i < |h|
    ensures Holds(h + [op], i, key, s)
            <==> Holds(h, i, key, s) && !(op.UnmarkOp? && op.key == key && op.socketId == s)
  {
    var h' := h + [op];
    assert forall k :: 0 <= k < |h| ==> h'[k] == h[k];
    if Holds(h', i, key, s) && op.UnmarkOp? {
      assert h'[|h|].UnmarkOp?;
    }
  }

  lemma UnbrokenGrows(h: seq<Op>, op: Op, i: nat, key: string)
    requires i < |h|
    ensures Unbroken(h + [op], i, key)
            <==> Unbroken(h, i, key) && (Marks(op, key) ==> Before(op.now, Deadline(h, key)))
  {
    var h' := h + [op];
    assert h'[..|h|] == h;
    forall k | 0 <= k < |h| ensures InTimeAt(h', k, key) <==> InTimeAt(h, k, key) {
      assert h'[k] == h[k] && h'[..k] == h[..k];
    }
    assert InTimeAt(h', |h|, key) <==> (Marks(op, key) ==> Before(op.now, Deadline(h, key)));
  }

  lemma DeadlineGrows(h: seq<Op>, op: Op, key: string)
    ensures Deadline(h + [op], key)
            == if Marks(op, key) then Some(op.now + TimerDelay(op.ttlSeconds * 1000)) else Deadline(h, key)
  {
    assert (h + [op])[..|h|] == h;
  }

  /** One more operation: what is reported right after it, in terms of what was reported before it. */
  lemma ReportedGrows(h: seq<Op>, op: Op, key: string, s: string)
    ensures Reported(h + [op], key, s, op.now)
            <==> match op
                 case MarkOp(k, x, _, now) => Reported(h, key, s, now) || (k == key && x == s)
                 case UnmarkOp(k, x, now) => Reported(h, key, s, now) && !(k == key && x == s)
  {
    var h' := h + [op];
    DeadlineGrows(h, op, key);
    if Marks(op, key) && op.socketId == s {
      assert Holds(h', |h|, key, s) && Unbroken(h', |h|, key);
    } else if Reported(h, key, s, op.now) {
      var i :| Holds(h, i, key, s) && Unbroken(h, i, key);
      HoldsGrows(h, op, i, key, s);
      UnbrokenGrows(h, op, i, key);
    }
    if Reported(h', key, s, op.now) {
      var i :| Holds(h', i, key, s) && Unbroken(h', i, key);
      if i < |h| {
        HoldsGrows(h, op, i, key, s);
        UnbrokenGrows(h, op, i, key);
      }
    }
  }

  datatype Claim = OneTimerEach | RightSockets | RightDeadlines

  ghost predicate AgreesOn(w: World, t: int, claim: Claim) {
    var ok :=
      match claim
      case OneTimerEach => TimersMatch(w.table)
      case RightSockets => forall key, s :: s in Bucket(w.table, key) <==> Reported(w.history, key, s, t)
      case RightDeadlines =>
        TimersMatch(w.table)
        && forall key :: key in w.table.buckets ==> Deadline(w.history, key) == Some(Expiry(w.table, key));
    ok
  }

  /** The table holds exactly what the history says should be reported at time `t`. */
  ghost predicate Agrees(w: World, t: int) {
    forall claim: Claim :: AgreesOn(w, t, claim)
  }

  lemma AllClaims(w: World, t: int)
    ensures Agrees(w, t) <==> AgreesOn(w, t, RightSockets) && AgreesOn(w, t, RightDeadlines)
  {
    assert AgreesOn(w, t, RightDeadlines) ==> AgreesOn(w, t, OneTimerEach);
  }

  lemma TimePassing(w: World, t: int, now: int)
    requires Agrees(w, t) && t <= now
    ensures Agrees(Later(w, now), now)
  {
    var fired := FireDue(w.table, now);
    AllClaims(w, t);
    FireDueDropsExpired(w.table, now);
    forall key, s ensures s in Bucket(fired, key) <==> Reported(w.history, key, s, now) {
      assert s in Bucket(w.table, key) <==> Reported(w.history, key, s, t);
    }
    AllClaims(Later(w, now), now);
  }

  lemma MarkSetsDeadline(w: World, op: Op)
    requires op.MarkOp? && AgreesOn(w, op.now, RightDeadlines)
    ensures AgreesOn(Asking(w, op), op.now, RightDeadlines)
  {
    MarkSetsOneTimer(w.table, op.key, op.socketId, op.ttlSeconds, op.now);
    var w' := Asking(w, op);
    forall key | key in w'.table.buckets ensures Deadline(w'.history, key) == Some(Expiry(w'.table, key)) {
      DeadlineGrows(w.history, op, key);
    }
  }

  lemma UnmarkKeepsDeadlines(w: World, op: Op)
    requires op.UnmarkOp? && AgreesOn(w, op.now, RightDeadlines)
    ensures AgreesOn(Asking(w, op), op.now, RightDeadlines)
  {
    UnmarkKeepsOtherTimers(w.table, op.key, op.socketId);
    var w' := Asking(w, op);
    forall key | key in w'.table.buckets ensures Deadline(w'.history, key) == Some(Expiry(w'.table, key)) {
      DeadlineGrows(w.history, op, key);
    }
  }

  /** What an operation does to the sockets of one key. */
  lemma BucketGrows(t: Table, op: Op, key: string, s: string)
    ensures
      var t' := Handled(t, op);
      s in Bucket(t', key) <==> match op
                                case MarkOp(k, x, _, _) => s in Bucket(t, key) || (k == key && x == s)
                                case UnmarkOp(k, x, _) => s in Bucket(t, key) && !(k == key && x == s)
  {
  }

  lemma AskingAgrees(w: World, op: Op)
    requires Agrees(w, op.now)
    ensures Agrees(Asking(w, op), op.now)
  {
    var w' := Asking(w, op);
    AllClaims(w, op.now);
    forall key, s ensures s in Bucket(w'.table, key) <==> Reported(w'.history, key, s, op.now) {
      ReportedGrows(w.history, op, key, s);
      BucketGrows(w.table, op, key, s);
    }
    if op.MarkOp? { MarkSetsDeadline(w, op); } else { UnmarkKeepsDeadlines(w, op); }
    AllClaims(w', op.now);
  }

  lemma {:induction false} RunAgrees(w: World, ops: seq<Op>, start: int, end: int)
    requires Agrees(w, start) && Monotone(ops, start, end)
    ensures Agrees(Later(Run(w, ops), end), end)
    decreases |ops|
  {
    if ops == [] {
      TimePassing(w, start, end);
    } else {
      TimePassing(w, start, ops[0].now);
      AskingAgrees(Later(w, ops[0].now), ops[0]);
      RunAgrees(Next(w, ops[0]), ops[1..], ops[0].now, end);
    }
  }

  lemma RunReportsRightly(ops: seq<Op>, start: int, now: int)
    requires Monotone(ops, start, now)
    ensures Agrees(Later(Run(START, ops), now), now)
  {
    AllClaims(START, start);
    RunAgrees(START, ops, start, now);
  }

  /**
   After any run, at any later time, the sockets reported for a key are exactly those with a mark
   that was not undone and whose bucket, from then on, was always refreshed in time.
   */
  lemma PresenceIsExact(ops: seq<Op>, start: int, now: int, key: string, s: string)
    requires Monotone(ops, start, now)
    ensures s in Bucket(FireDue(Run(START, ops).table, now), key) <==> Reported(Run(START, ops).history, key, s, now)
  {
    RunReportsRightly(ops, start, now);
    assert AgreesOn(Later(Run(START, ops), now), now, RightSockets);
  }

  /** `whoIsOnline` answers with the users for whom some socket ought to be reported. */
  lemma OnlineIsExact(ops: seq<Op>, start: int, now: int, userIds: seq<string>)
    requires Monotone(ops, start, now)
    ensures
      var w := Run(START, ops);
      forall u :: u in (set u | u in userIds && Bucket(FireDue(w.table, now), u) != {})
                  <==> u in userIds && exists s :: Reported(w.history, u, s, now)
  {
    var w := Run(START, ops);
    forall u | u in userIds
      ensures Bucket(FireDue(w.table, now), u) != {} <==> exists s :: Reported(w.history, u, s, now)
    {
      if s :| s in Bucket(FireDue(w.table, now), u) {
        PresenceIsExact(ops, start, now, u, s);
      }
      if s :| Reported(w.history, u, s, now) {
        PresenceIsExact(ops, start, now, u, s);
      }
    }
  }

  /**
   After any run, at any later time, each live bucket has exactly one pending timer, the one set by
   its last refresh, which is still to come; so no stale timer can drop a refreshed bucket.
   */
  lemma OneTimerPerBucket(ops: seq<Op>, start: int, now: int)
    requires Monotone(ops, start, now)
    ensures
      var w := Later(Run(START, ops), now);
      && TimersMatch(w.table)
      && forall id :: id in w.table.timers ==>
           && now < w.table.timers[id].due
           && Deadline(w.history, w.table.timers[id].key) == Some(w.table.timers[id].due)
  {
    RunReportsRightly(ops, start, now);
    var w := Later(Run(START, ops), now);
    AllClaims(w, now);
    TimersAreAhead(Run(START, ops).table, now);
    forall id | id in w.table.timers
      ensures Deadline(w.history, w.table.timers[id].key) == Some(w.table.timers[id].due)
    {
      assert w.table.timers[id].key in w.table.buckets;
    }
  }

  // ---------------------------------------------------------------------------------------
  // How long a mark lasts
  // ---------------------------------------------------------------------------------------

  /**
   For how many milliseconds a mark lasts, given the TTL asked for and the one the service was
   constructed with: a minute if there is neither, or the latter is not positive.
   */
  function Lasting(asked: Option<int>, constructed: Option<int>): int {
    var seconds := match asked
                   case Some(n) => n
                   case None => if constructed.Some? && constructed.value > 0 then constructed.value else 60;
    if 1 <= 1000 * seconds <= 2147483647 then 1000 * seconds else 1
  }

  /** Left alone, a mark is reported for exactly as long as was asked for, in every state of the service. */
  lemma MarkLastsAsAsked(
      t: Table, key: string, s: string, asked: Option<int>, constructed: Option<int>, now: int, later: int)
    requires TimersMatch(t) && now <= later
    ensures
      var t' := Mark(t, key, s, TtlOr(asked, ResolvePresenceTtl(constructed)), now);
      s in Bucket(FireDue(t', later), key) <==> later < now + Lasting(asked, constructed)
  {
    var ttl := TtlOr(asked, ResolvePresenceTtl(constructed));
    MarkSetsOneTimer(t, key, s, ttl, now);
    FireDueDropsExpired(Mark(t, key, s, ttl, now), later);
  }

  // ---------------------------------------------------------------------------------------
  // TTLs that timers cannot represent
  // ---------------------------------------------------------------------------------------

  /** The TTL is a delay that a timer keeps. */
  predicate IsRepresentable(op: Op) { op.MarkOp? ==> 1 <= op.ttlSeconds * 1000 <= TIMEOUT_MAX }

  predicate AllRepresentable(ops: seq<Op>) {
    forall i :: 0 <= i < |ops| ==> IsRepresentable(ops[i])
  }

  /** Every bucket is dropped at the time that its TTL entry states. */
  ghost predicate KeepsItsWord(t: Table) {
    TimersMatch(t) && forall key :: key in t.buckets ==> t.ttl[key].expiresAt == Expiry(t, key)
  }

  lemma StepKeepsItsWordIff(w: World, op: Op)
    requires KeepsItsWord(w.table)
    ensures TimersMatch(Next(w, op).table)
    ensures KeepsItsWord(Next(w, op).table) <==> IsRepresentable(op)
  {
    var t := FireDue(w.table, op.now);
    FireDueDropsExpired(w.table, op.now);
    if op.MarkOp? {
      MarkSetsOneTimer(t, op.key, op.socketId, op.ttlSeconds, op.now);
      var t' := Next(w, op).table;
      assert op.key in t'.buckets && t'.ttl[op.key].expiresAt == op.now + op.ttlSeconds * 1000;
    } else {
      UnmarkKeepsOtherTimers(t, op.key, op.socketId);
    }
  }

  ghost predicate AlwaysKeepsItsWord(w: World, ops: seq<Op>)
    decreases |ops|
  {
    KeepsItsWord(w.table) && (ops == [] || AlwaysKeepsItsWord(Next(w, ops[0]), ops[1..]))
  }

  lemma {:induction false} RunKeepsItsWordIff(w: World, ops: seq<Op>)
    requires KeepsItsWord(w.table)
    ensures AlwaysKeepsItsWord(w, ops) <==> AllRepresentable(ops)
    decreases |ops|
  {
    if ops == [] {
    } else {
      StepKeepsItsWordIff(w, ops[0]);
      assert AllRepresentable(ops) <==> IsRepresentable(ops[0]) && AllRepresentable(ops[1..]) by {
        assert ops == [ops[0]] + ops[1..];
      }
      if IsRepresentable(ops[0]) { RunKeepsItsWordIff(Next(w, ops[0]), ops[1..]); }
    }
  }

  /**
   In every run, all buckets are dropped when their TTL entries say, throughout, if and only if
   every TTL asked for is at least one and at most 2147483647 milliseconds.
   */
  lemma TtlIsKeptIff(ops: seq<Op>)
    ensures AlwaysKeepsItsWord(START, ops) <==> AllRepresentable(ops)
  {
    RunKeepsItsWordIff(START, ops);
  }

  /** A TTL of zero or less: the socket is reported although its entry has expired. */
  lemma ExpiredEntryIsReported(key: string, s: string, ttlSeconds: int, now: int)
    requires ttlSeconds <= 0
    ensures
      var t := FireDue(Run(START, [MarkOp(key, s, ttlSeconds, now)]).table, now);
      s in Bucket(t, key) && key in t.ttl && t.ttl[key].expiresAt <= now
  {
    MarkedAlone(key, s, ttlSeconds, now);
    FireDueDropsExpired(Mark(EMPTY, key, s, ttlSeconds, now), now);
  }

  /** A TTL that is too long: the socket is gone after a millisecond. */
  lemma LongTtlIsCutShort(key: string, s: string, ttlSeconds: int, now: int)
    requires ttlSeconds * 1000 > TIMEOUT_MAX
    ensures
      var t := Run(START, [MarkOp(key, s, ttlSeconds, now)]).table;
      s in Bucket(t, key) && key in t.ttl && now + 1 < t.ttl[key].expiresAt && Bucket(FireDue(t, now + 1), key) == {}
  {
    MarkedAlone(key, s, ttlSeconds, now);
    FireDueDropsExpired(Mark(EMPTY, key, s, ttlSeconds, now), now + 1);
  }

  lemma MarkedAlone(key: string, s: string, ttlSeconds: int, now: int)
    ensures
      var t := Mark(EMPTY, key, s, ttlSeconds, now);
      && Run(START, [MarkOp(key, s, ttlSeconds, now)]).table == t && TimersMatch(t) && s in Bucket(t, key)
      && Expiry(t, key) == now + TimerDelay(ttlSeconds * 1000) && t.ttl[key].expiresAt == now + ttlSeconds * 1000
  {
    NothingDue(EMPTY, now);
    MarkSetsOneTimer(EMPTY, key, s, ttlSeconds, now);
    assert [MarkOp(key, s, ttlSeconds, now)][1..] == [];
  }

  // ---------------------------------------------------------------------------------------
  // Timers that fire late and in any order
  // ---------------------------------------------------------------------------------------

  /** An operation, or the event loop getting round to a timer that is due. */
  datatype Turn = Asked(op: Op) | Fired(timer: nat, now: int)

  function TimeOf(turn: Turn): int { match turn case Asked(op) => op.now case Fired(_, now) => now }

  /** Nothing fires before an operation is handled unless the event loop says so. */
  function Take(w: World, turn: Turn): World {
    match turn
    case Asked(op) => Asking(w, op)
    case Fired(id, now) =>
      if id in w.table.timers && w.table.timers[id].due <= now then w.(table := FireOne(w.table, id)) else w
  }

  function TakeAll(w: World, turns: seq<Turn>): World
    decreases |turns|
  {
    if turns == [] then w else TakeAll(Take(w, turns[0]), turns[1..])
  }

  predicate InTime(turns: seq<Turn>, start: int, end: int)
    decreases |turns|
  {
    if turns == [] then start <= end else start <= TimeOf(turns[0]) && InTime(turns[1..], TimeOf(turns[0]), end)
  }

  ghost predicate CoversOn(w: World, t: int, claim: Claim) {
    var ok :=
      match claim
      case RightSockets =>
        forall key, s ::
          && (Reported(w.history, key, s, t) ==> s in Bucket(w.table, key))
          && (s in Bucket(w.table, key) ==> Marked(w.history, key, s))
      case _ => AgreesOn(w, t, claim);
    ok
  }

  /** Everybody who ought to be reported is, and only those with a mark that was not undone are. */
  ghost predicate Covers(w: World, t: int) {
    forall claim: Claim :: CoversOn(w, t, claim)
  }

  lemma AllCovered(w: World, t: int)
    ensures Covers(w, t) <==> CoversOn(w, t, RightSockets) && CoversOn(w, t, RightDeadlines)
  {
    assert CoversOn(w, t, RightDeadlines) ==> CoversOn(w, t, OneTimerEach);
  }

  ghost predicate Marked(h: seq<Op>, key: string, s: string) {
    exists i :: Holds(h, i, key, s)
  }

  lemma MarkedGrows(h: seq<Op>, op: Op, key: string, s: string)
    ensures Marked(h, key, s) && !(op.UnmarkOp? && op.key == key && op.socketId == s) ==> Marked(h + [op], key, s)
    ensures Marks(op, key) && op.socketId == s ==> Marked(h + [op], key, s)
  {
    if Marks(op, key) && op.socketId == s {
      assert Holds(h + [op], |h|, key, s);
    } else if Marked(h, key, s) {
      var i :| Holds(h, i, key, s);
      HoldsGrows(h, op, i, key, s);
    }
  }

  lemma WaitingCovers(w: World, t: int, now: int)
    requires Covers(w, t) && t <= now
    ensures Covers(w, now)
  {
    AllCovered(w, t);
    forall key, s | Reported(w.history, key, s, now) ensures s in Bucket(w.table, key) {
      assert Reported(w.history, key, s, t);
    }
    AllCovered(w, now);
  }

  lemma AskingCovers(w: World, op: Op)
    requires Covers(w, op.now)
    ensures Covers(Asking(w, op), op.now)
  {
    var w' := Asking(w, op);
    AllCovered(w, op.now);
    forall key, s
      ensures Reported(w'.history, key, s, op.now) ==> s in Bucket(w'.table, key)
      ensures s in Bucket(w'.table, key) ==> Marked(w'.history, key, s)
    {
      ReportedGrows(w.history, op, key, s);
      MarkedGrows(w.history, op, key, s);
      BucketGrows(w.table, op, key, s);
    }
    if op.MarkOp? { MarkSetsDeadline(w, op); } else { UnmarkKeepsDeadlines(w, op); }
    AllCovered(w', op.now);
  }

  lemma FireOneKeepsOthers(t: Table, id: nat)
    requires TimersMatch(t) && id in t.timers
    ensures
      var t', gone := FireOne(t, id), t.timers[id].key;
      && TimersMatch(t') && Expiry(t, gone) == t.timers[id].due
      && (forall k :: Bucket(t', k) == if k == gone then {} else Bucket(t, k))
      && forall k :: k in t'.buckets ==> k in t.buckets && Expiry(t', k) == Expiry(t, k)
  {
  }

  lemma FiringCovers(w: World, id: nat, now: int)
    requires Covers(w, now)
    ensures Covers(Take(w, Fired(id, now)), now)
  {
    if id in w.table.timers && w.table.timers[id].due <= now {
      AllCovered(w, now);
      AllCovered(Take(w, Fired(id, now)), now);
      FireOneKeepsOthers(w.table, id);
      var t', gone := FireOne(w.table, id), w.table.timers[id].key;
      assert gone in w.table.buckets && !Before(now, Deadline(w.history, gone));
      forall key, s
        ensures Reported(w.history, key, s, now) ==> s in Bucket(t', key)
        ensures s in Bucket(t', key) ==> Marked(w.history, key, s)
      {
        assert s in Bucket(t', key) ==> s in Bucket(w.table, key);
      }
    }
  }

  lemma {:induction false} TurnsCover(w: World, turns: seq<Turn>, start: int, end: int)
    requires Covers(w, start) && InTime(turns, start, end)
    ensures Covers(TakeAll(w, turns), end)
    decreases |turns|
  {
    if turns == [] {
      WaitingCovers(w, start, end);
    } else {
      var now := TimeOf(turns[0]);
      WaitingCovers(w, start, now);
      match turns[0] {
        case Asked(op) => AskingCovers(w, op);
        case Fired(id, t) => FiringCovers(w, id, t);
      }
      TurnsCover(Take(w, turns[0]), turns[1..], now, end);
    }
  }

  lemma TurnsReportEnough(turns: seq<Turn>, start: int, now: int)
    requires InTime(turns, start, now)
    ensures Covers(TakeAll(START, turns), now)
  {
    AllCovered(START, start);
    TurnsCover(START, turns, start, now);
  }

  /**
   However late and in whatever order due timers fire, nobody is dropped early: whoever ought to be
   reported is, and whoever is reported has a mark that was not undone. In particular no timer drops
   a bucket before the TTL of its last refresh has run out.
   */
  lemma NobodyIsDroppedEarly(turns: seq<Turn>, start: int, now: int, key: string, s: string)
    requires InTime(turns, start, now)
    ensures
      var w := TakeAll(START, turns);
      && (Reported(w.history, key, s, now) ==> s in Bucket(w.table, key))
      && (s in Bucket(w.table, key) ==> Marked(w.history, key, s))
  {
    TurnsReportEnough(turns, start, now);
    assert CoversOn(TakeAll(START, turns), now, RightSockets);
  }

  /** A timer that fires drops only a bucket whose last TTL has run out. */
  lemma OnlyExpiredBucketsAreDropped(turns: seq<Turn>, start: int, id: nat, now: int, key: string)
    requires InTime(turns, start, now)
    ensures
      var w := TakeAll(START, turns);
      Before(now, Deadline(w.history, key)) ==> Bucket(Take(w, Fired(id, now)).table, key) == Bucket(w.table, key)
  {
    TurnsReportEnough(turns, start, now);
    var w := TakeAll(START, turns);
    assert CoversOn(w, now, RightDeadlines);
    if id in w.table.timers { FireOneKeepsOthers(w.table, id); }
  }
}
