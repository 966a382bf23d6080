/**
 Per-socket event limiter of the signaling gateway (src/signaling/rate-limit.guard.ts): a
 fixed window that opens at a socket's first event and admits `capacity` events.
 */
module FixedWindow {
  import opened Common

  datatype Options = Options(capacity: int, windowMs: int)

  const DEFAULT_OPTIONS := Options(30, 1000)

  datatype Bucket = Bucket(tokens: int, refilledAt: int)

  type Buckets = map<string, Bucket>

  /** One event against an existing bucket. */
  function Consume(b: Bucket, opts: Options, now: int): (Bucket, bool) {
    if now - b.refilledAt >= opts.windowMs then (Bucket(opts.capacity - 1, now), true)
    else if b.tokens <= 0 then (b, false)
    else (b.(tokens := b.tokens - 1), true)
  }

  function TryConsumeStep(buckets: Buckets, opts: Options, socketId: string, now: int): (Buckets, bool) {
    if socketId !in buckets then
      (buckets[socketId := Bucket(opts.capacity - 1, now)], true)
    else
      var (b, ok) := Consume(buckets[socketId], opts, now);
      (buckets[socketId := b], ok)
  }

  class RateLimitGuard {
    const options: Options
    var buckets: Buckets

    constructor (options: Options)
      ensures this.options == options && buckets == map[]
    {
      this.options := options;
      buckets := map[];
    }

    method TryConsume(socketId: string, now: int) returns (allowed: bool)
      modifies this`buckets
      ensures (buckets, allowed) == TryConsumeStep(old(buckets), options, socketId, now)
    {
      if socketId !in buckets {
        buckets := buckets[socketId := Bucket(options.capacity - 1, now)];
        return true;
      }
      var bucket := buckets[socketId];
      var elapsed := now - bucket.refilledAt;
      if elapsed >= options.windowMs {
        buckets := buckets[socketId := bucket.(tokens := options.capacity - 1, refilledAt := now)];
        return true;
      }
      if bucket.tokens <= 0 {
        assert buckets[socketId := bucket] == buckets;
        return false;
      }
      buckets := buckets[socketId := bucket.(tokens := bucket.tokens - 1)];
      return true;
    }
  }

  // ---------------------------------------------------------------------------------------
  // Runs
  // ---------------------------------------------------------------------------------------

  datatype Event = Event(socketId: string, now: int)

  /** The guard's buckets, and the times at which events of the observed socket were admitted. */
  datatype Trace = Trace(buckets: Buckets, admitted: seq<int>)

  const EMPTY := Trace(map[], [])

  function Next(opts: Options, t: Trace, e: Event, s: string): Trace {
    var (bs, ok) := TryConsumeStep(t.buckets, opts, e.socketId, e.now);
    Trace(bs, if ok && e.socketId == s then t.admitted + [e.now] else t.admitted)
  }

  /** A run of events of any sockets, observing socket `s`. */
  function Run(opts: Options, t: Trace, events: seq<Event>, s: string): Trace
    decreases |events|
  {
    if events == [] then t else Run(opts, Next(opts, t, events[0], s), events[1..], s)
  }

  lemma {:induction false} RunAppends(opts: Options, t: Trace, events: seq<Event>, more: seq<Event>, s: string)
    ensures Run(opts, t, events + more, s) == Run(opts, Run(opts, t, events, s), more, s)
    decreases |events|
  {
    if events == [] {
      assert events + more == more;
    } else {
      var all, t' := events + more, Next(opts, t, events[0], s);
      RunAppends(opts, t', events[1..], more, s);
      assert all[0] == events[0] && all[1..] == events[1..] + more;
      assert Run(opts, t, all, s) == Run(opts, t', all[1..], s);
    }
  }

  /** Nondecreasing times from `start`, none after `end`. */
  predicate Monotone(events: seq<Event>, start: int, end: int)
    decreases |events|
  {
    if events == [] then start <= end else start <= events[0].now && Monotone(events[1..], events[0].now, end)
  }

  predicate Sorted(a: seq<int>) {
    forall i, j :: 0 <= i < j < |a| ==> a[i] <= a[j]
  }

  /** Any 2c consecutive admitted events span at least a whole window. */
  predicate Spread(a: seq<int>, opts: Options) {
    forall i, j :: 0 <= i < j < |a| && i + 2 * opts.capacity - 1 <= j ==> a[j] >= a[i] + opts.windowMs
  }

  /**
   What the bucket of a socket knows about the events admitted so far: the current window
   opened at the event with index `w`, and each earlier event that is at least `capacity`
   places before it lies a whole window back.
   */
  predicate Explains(b: Bucket, a: seq<int>, opts: Options, w: int) {
    && 0 <= w < |a| <= w + opts.capacity
    && b == Bucket(opts.capacity - (|a| - w), a[w])
    && forall i :: 0 <= i <= w - opts.capacity ==> a[w] >= a[i] + opts.windowMs
  }

  /** The bucket of a socket, if any, explains the events admitted so far, all before `last`. */
  ghost predicate Tracks(found: Option<Bucket>, a: seq<int>, opts: Options, last: int) {
    var ok :=
      && Sorted(a) && Spread(a, opts)
      && (a != [] ==> a[|a| - 1] <= last)
      && match found
         case None => a == []
         case Some(b) => exists w :: Explains(b, a, opts, w);
    ok
  }

  lemma SpreadGrows(opts: Options, a: seq<int>, now: int)
    requires opts.capacity >= 1 && Spread(a, opts)
    requires forall i :: 0 <= i <= |a| - 2 * opts.capacity + 1 && i < |a| ==> now >= a[i] + opts.windowMs
    ensures Spread(a + [now], opts)
  {
  }

  /** The events admitted before, at least `c` and at least `2c-1` places back, lie a window back. */
  lemma OpeningIsFar(opts: Options, b: Bucket, a: seq<int>, w: int, now: int)
    requires Sorted(a) && Explains(b, a, opts, w) && now - b.refilledAt >= opts.windowMs
    ensures forall i :: 0 <= i <= |a| - opts.capacity && i < |a| ==> now >= a[i] + opts.windowMs
  {
    forall i | 0 <= i <= |a| - opts.capacity && i < |a| ensures now >= a[i] + opts.windowMs {
      assert i <= w && a[i] <= a[w];
    }
  }

  lemma FollowingIsFar(opts: Options, b: Bucket, a: seq<int>, w: int, now: int)
    requires Sorted(a) && Explains(b, a, opts, w) && b.tokens > 0 && a[|a| - 1] <= now
    ensures forall i :: 0 <= i <= |a| - 2 * opts.capacity + 1 && i < |a| ==> now >= a[i] + opts.windowMs
  {
    assert a[w] <= a[|a| - 1];
  }

  lemma ConsumeKeepsExplanation(opts: Options, b: Bucket, a: seq<int>, w: int, now: int)
    requires opts.capacity >= 1
    requires Sorted(a) && Spread(a, opts) && Explains(b, a, opts, w)
    requires a[|a| - 1] <= now && Consume(b, opts, now).1
    ensures Sorted(a + [now]) && Spread(a + [now], opts)
    ensures Explains(Consume(b, opts, now).0, a + [now], opts,
                     if now - b.refilledAt >= opts.windowMs then |a| else w)
  {
    if now - b.refilledAt >= opts.windowMs {
      OpeningIsFar(opts, b, a, w, now);
    } else {
      FollowingIsFar(opts, b, a, w, now);
    }
    SpreadGrows(opts, a, now);
  }

  function Lookup(bs: Buckets, s: string): Option<Bucket> { if s in bs then Some(bs[s]) else None }

  lemma TracksStep(found: Option<Bucket>, a: seq<int>, opts: Options, last: int, now: int)
    requires opts.capacity >= 1 && Tracks(found, a, opts, last) && last <= now
    ensures
      var (b', ok) :=
        match found case None => (Bucket(opts.capacity - 1, now), true) case Some(b) => Consume(b, opts, now);
      Tracks(Some(b'), if ok then a + [now] else a, opts, now)
  {
    match found
    case None =>
      assert Explains(Bucket(opts.capacity - 1, now), a + [now], opts, 0);
    case Some(b) =>
      var w :| Explains(b, a, opts, w);
      if Consume(b, opts, now).1 {
        ConsumeKeepsExplanation(opts, b, a, w, now);
      }
  }

  lemma NextTracks(opts: Options, t: Trace, e: Event, s: string, last: int)
    requires opts.capacity >= 1 && last <= e.now
    requires Tracks(Lookup(t.buckets, s), t.admitted, opts, last)
    ensures var t' := Next(opts, t, e, s); Tracks(Lookup(t'.buckets, s), t'.admitted, opts, e.now)
  {
    if e.socketId == s {
      TracksStep(Lookup(t.buckets, s), t.admitted, opts, last, e.now);
    } else {
      assert Lookup(Next(opts, t, e, s).buckets, s) == Lookup(t.buckets, s);
    }
  }

  lemma {:induction false} RunTracks(opts: Options, t: Trace, events: seq<Event>, s: string, start: int, end: int)
    requires opts.capacity >= 1 && Monotone(events, start, end)
    requires Tracks(Lookup(t.buckets, s), t.admitted, opts, start)
    ensures var t' := Run(opts, t, events, s); Tracks(Lookup(t'.buckets, s), t'.admitted, opts, end)
    decreases |events|
  {
    if events == [] {
    } else {
      var e := events[0];
      NextTracks(opts, t, e, s, start);
      RunTracks(opts, Next(opts, t, e, s), events[1..], s, e.now, end);
    }
  }

  /** Number of admitted events in the half-open interval [from, to). */
  function CountIn(a: seq<int>, from: int, to: int): nat {
    if a == [] then 0
    else CountIn(a[..|a| - 1], from, to) + if from <= a[|a| - 1] < to then 1 else 0
  }

  /** The `n` entries from index `i` on lie between `from` and `to`, if the sequence is sorted. */
  predicate LieBetween(a: seq<int>, i: nat, n: nat, from: int, to: int) {
    var ok := 0 < n && i + n <= |a| && from <= a[i] && a[i + n - 1] < to;
    ok
  }

  /** In a sorted sequence the entries counted are consecutive; `i` is the first of them. */
  lemma {:induction false} CountIsConsecutive(a: seq<int>, from: int, to: int) returns (i: nat)
    requires Sorted(a) && CountIn(a, from, to) > 0
    ensures LieBetween(a, i, CountIn(a, from, to), from, to)
  {
    var n, before := |a| - 1, a[..|a| - 1];
    if from <= a[n] < to {
      CountEndsAtLast(before, from, to);
      i := n - CountIn(before, from, to);
    } else {
      i := CountIsConsecutive(before, from, to);
    }
  }

  /** If nothing lies beyond the interval, the entries counted are the last ones. */
  lemma {:induction false} CountEndsAtLast(a: seq<int>, from: int, to: int)
    requires Sorted(a) && (a != [] ==> a[|a| - 1] < to)
    ensures CountIn(a, from, to) <= |a|
    ensures forall i :: |a| - CountIn(a, from, to) <= i < |a| ==> from <= a[i]
    ensures forall i :: 0 <= i < |a| - CountIn(a, from, to) ==> a[i] < from
  {
    if a == [] {
    } else {
      CountEndsAtLast(a[..|a| - 1], from, to);
    }
  }

  lemma SpreadBoundsLength(opts: Options, a: seq<int>, i: nat, n: nat)
    requires opts.capacity >= 1 && Spread(a, opts)
    requires 0 < n && i + n <= |a| && a[i + n - 1] < a[i] + opts.windowMs
    ensures n <= 2 * opts.capacity - 1
  {
    var j := i + n - 1;
    assert a[j] < a[i] + opts.windowMs;
  }

  lemma SpreadBoundsCount(opts: Options, a: seq<int>, from: int)
    requires opts.capacity >= 1 && Sorted(a) && Spread(a, opts)
    ensures CountIn(a, from, from + opts.windowMs) <= 2 * opts.capacity - 1
  {
    if CountIn(a, from, from + opts.windowMs) > 0 {
      var i := CountIsConsecutive(a, from, from + opts.windowMs);
      SpreadBoundsLength(opts, a, i, CountIn(a, from, from + opts.windowMs));
    }
  }

  // ---- capacities below one ----

  /** What a capacity is worth: the first event of a window is admitted in any case. */
  function Quota(opts: Options): int { MaxInt(1, opts.capacity) }

  function Raised(opts: Options): Options { opts.(capacity := Quota(opts)) }

  /** Two buckets that open and refuse at the same times. */
  predicate ActsAs(a: Bucket, b: Bucket) { a == b || (a.refilledAt == b.refilledAt && a.tokens <= 0 && b.tokens <= 0) }

  ghost predicate ActAlike(bs: Buckets, ds: Buckets) {
    var ok := bs.Keys == ds.Keys && forall s :: s in bs && s in ds ==> ActsAs(bs[s], ds[s]);
    ok
  }

  lemma {:induction false} RunActsAlike(opts: Options, t: Trace, t': Trace, events: seq<Event>, s: string)
    requires ActAlike(t.buckets, t'.buckets) && t'.admitted == t.admitted
    ensures
      var end, end' := Run(opts, t, events, s), Run(Raised(opts), t', events, s);
      ActAlike(end.buckets, end'.buckets) && end'.admitted == end.admitted
    decreases |events|
  {
    if events == [] {
    } else {
      RunActsAlike(opts, Next(opts, t, events[0], s), Next(Raised(opts), t', events[0], s), events[1..], s);
    }
  }

  /** A capacity of zero or less admits and refuses in every run as a capacity of one does. */
  lemma LowCapacityActsAsOne(opts: Options, events: seq<Event>, e: Event)
    ensures Run(opts, EMPTY, events, e.socketId).admitted == Run(Raised(opts), EMPTY, events, e.socketId).admitted
    ensures TryConsumeStep(Run(opts, EMPTY, events, e.socketId).buckets, opts, e.socketId, e.now).1
         == TryConsumeStep(Run(Raised(opts), EMPTY, events, e.socketId).buckets, Raised(opts), e.socketId, e.now).1
  {
    RunActsAlike(opts, EMPTY, EMPTY, events, e.socketId);
  }

  // ---- the bound ----

  lemma AdmittedAreSpread(opts: Options, events: seq<Event>, s: string, start: int, end: int)
    requires Monotone(events, start, end)
    ensures var a := Run(opts, EMPTY, events, s).admitted; Sorted(a) && Spread(a, Raised(opts))
  {
    RunActsAlike(opts, EMPTY, EMPTY, events, s);
    RunTracks(Raised(opts), EMPTY, events, s, start, end);
  }

  /**
   No half-open interval as long as the window contains more than 2c-1 admitted events of one
   socket, whatever events of other sockets are interleaved; a capacity below one counts as one.
   */
  lemma AtMostTwiceMinusOne(opts: Options, events: seq<Event>, s: string, start: int, end: int, from: int)
    requires Monotone(events, start, end)
    ensures CountIn(Run(opts, EMPTY, events, s).admitted, from, from + opts.windowMs) <= 2 * Quota(opts) - 1
  {
    AdmittedAreSpread(opts, events, s, start, end);
    SpreadBoundsCount(Raised(opts), Run(opts, EMPTY, events, s).admitted, from);
  }

  lemma RefusalIsExplained(b: Bucket, a: seq<int>, opts: Options, now: int)
    requires opts.capacity >= 1 && Tracks(Some(b), a, opts, now) && !Consume(b, opts, now).1
    ensures |a| >= opts.capacity
    ensures forall i :: |a| - opts.capacity <= i < |a| ==> now - opts.windowMs < a[i] <= now
  {
    var w :| Explains(b, a, opts, w);
    assert a[w] == b.refilledAt;
  }

  /**
   An event is refused only when the socket's current window is full: then the last c events
   admitted all lie within the preceding window.
   */
  lemma RefusedOnlyWhenFull(opts: Options, events: seq<Event>, start: int, e: Event)
    requires Monotone(events, start, e.now)
    requires !TryConsumeStep(Run(opts, EMPTY, events, e.socketId).buckets, opts, e.socketId, e.now).1
    ensures
      var a := Run(opts, EMPTY, events, e.socketId).admitted;
      && |a| >= Quota(opts)
      && forall i :: |a| - Quota(opts) <= i < |a| ==> e.now - opts.windowMs < a[i] <= e.now
  {
    LowCapacityActsAsOne(opts, events, e);
    RunTracks(Raised(opts), EMPTY, events, e.socketId, start, e.now);
    var t := Run(Raised(opts), EMPTY, events, e.socketId);
    RefusalIsExplained(t.buckets[e.socketId], t.admitted, Raised(opts), e.now);
  }

  // ---- the bound is attained ----

  /** One event, then c-1 events at the end of the window, then c events as the next one opens. */
  function BurstTime(opts: Options, i: int): int {
    if i <= 0 then 0 else if i < opts.capacity then opts.windowMs - 1 else opts.windowMs
  }

  function BurstTimes(opts: Options, n: nat): (a: seq<int>)
    ensures |a| == n && forall i :: 0 <= i < n ==> a[i] == BurstTime(opts, i)
  {
    if n == 0 then [] else BurstTimes(opts, n - 1) + [BurstTime(opts, n - 1)]
  }

  function Burst(opts: Options, s: string, i: int, n: int): seq<Event>
    requires i <= n
    decreases n - i
  {
    if i == n then [] else [Event(s, BurstTime(opts, i))] + Burst(opts, s, i + 1, n)
  }

  /** The guard after the first `i` events of the burst, all of them admitted. */
  function BurstTrace(opts: Options, s: string, i: nat): Trace {
    Trace(
      if i == 0 then map[]
      else if i <= opts.capacity then map[s := Bucket(opts.capacity - i, 0)]
      else map[s := Bucket(2 * opts.capacity - i, opts.windowMs)],
      BurstTimes(opts, i))
  }

  lemma BurstStep(opts: Options, s: string, i: nat)
    requires opts.capacity >= 1 && opts.windowMs >= 1 && i < 2 * opts.capacity
    ensures Next(opts, BurstTrace(opts, s, i), Event(s, BurstTime(opts, i)), s) == BurstTrace(opts, s, i + 1)
  {
  }

  lemma {:induction false} BurstIsAdmitted(opts: Options, s: string, i: nat, n: nat)
    requires opts.capacity >= 1 && opts.windowMs >= 1 && i <= n <= 2 * opts.capacity
    ensures Run(opts, BurstTrace(opts, s, i), Burst(opts, s, i, n), s) == BurstTrace(opts, s, n)
    ensures Monotone(Burst(opts, s, i, n), BurstTime(opts, i - 1), BurstTime(opts, n - 1))
    decreases n - i
  {
    if i == n {
    } else {
      BurstStep(opts, s, i);
      BurstIsAdmitted(opts, s, i + 1, n);
    }
  }

  lemma {:induction false} CountBurst(opts: Options, n: nat)
    requires opts.capacity >= 2 && opts.windowMs >= 2 && n <= 2 * opts.capacity
    ensures CountIn(BurstTimes(opts, n), opts.windowMs - 1, opts.windowMs - 1 + opts.windowMs) == MaxInt(0, n - 1)
  {
    if n == 0 {
    } else {
      CountBurst(opts, n - 1);
      assert BurstTimes(opts, n)[..n - 1] == BurstTimes(opts, n - 1);
    }
  }

  /** A run on a monotone clock with 2c-1 admitted events of the socket in the given interval. */
  ghost predicate Attains(opts: Options, s: string, events: seq<Event>, from: int) {
    && (exists start, end :: Monotone(events, start, end))
    && CountIn(Run(opts, EMPTY, events, s).admitted, from, from + opts.windowMs) == 2 * Quota(opts) - 1
  }

  lemma RaisedAttains(opts: Options, s: string, events: seq<Event>, from: int)
    ensures Attains(opts, s, events, from) <==> Attains(Raised(opts), s, events, from)
  {
    RunActsAlike(opts, EMPTY, EMPTY, events, s);
  }

  lemma SingleAttains(opts: Options, s: string)
    requires opts.capacity == 1 && opts.windowMs >= 1
    ensures Attains(opts, s, Burst(opts, s, 0, 1), 0)
  {
    BurstIsAdmitted(opts, s, 0, 1);
    assert BurstTrace(opts, s, 0) == EMPTY && BurstTimes(opts, 1) == [0];
    assert [0][..0] == [] && CountIn([], 0, opts.windowMs) == 0;
  }

  lemma ManyAttain(opts: Options, s: string)
    requires opts.capacity >= 2 && opts.windowMs >= 2
    ensures Attains(opts, s, Burst(opts, s, 0, 2 * opts.capacity), opts.windowMs - 1)
  {
    BurstIsAdmitted(opts, s, 0, 2 * opts.capacity);
    assert BurstTrace(opts, s, 0) == EMPTY;
    CountBurst(opts, 2 * opts.capacity);
  }

  lemma BurstAttains(opts: Options, s: string) returns (events: seq<Event>, from: int)
    requires opts.windowMs >= 2 || (opts.windowMs == 1 && opts.capacity <= 1)
    ensures Attains(opts, s, events, from)
  {
    var up := Raised(opts);
    if up.capacity == 1 {
      events, from := Burst(up, s, 0, 1), 0;
      SingleAttains(up, s);
    } else {
      events, from := Burst(up, s, 0, 2 * up.capacity), up.windowMs - 1;
      ManyAttain(up, s);
    }
    RaisedAttains(opts, s, events, from);
  }

  // ---- windows of one millisecond, and of none ----

  /** Any `capacity + 1` consecutive admitted events span more than an instant. */
  predicate Tight(a: seq<int>, opts: Options) {
    forall i, j :: 0 <= i < j < |a| && i + opts.capacity <= j ==> a[i] < a[j]
  }

  /** The current window is one instant, and all earlier events came before it. */
  predicate OneInstant(a: seq<int>, w: int) {
    0 <= w < |a| && forall i :: 0 <= i < |a| ==> if i < w then a[i] < a[w] else a[i] == a[w]
  }

  ghost predicate TracksInstants(found: Option<Bucket>, a: seq<int>, opts: Options, last: int) {
    var ok :=
      && Tight(a, opts)
      && (a != [] ==> a[|a| - 1] <= last)
      && match found
         case None => a == []
         case Some(b) =>
           exists w :: OneInstant(a, w) && |a| <= w + opts.capacity && b == Bucket(opts.capacity - (|a| - w), a[w]);
    ok
  }

  lemma InstantGrows(a: seq<int>, w: int, now: int, opts: Options)
    requires opts.capacity >= 1 && Tight(a, opts) && OneInstant(a, w)
    requires now > a[w] || (now == a[w] && |a| < w + opts.capacity)
    ensures Tight(a + [now], opts) && OneInstant(a + [now], if now > a[w] then |a| else w)
  {
  }

  lemma TracksInstantsStep(found: Option<Bucket>, a: seq<int>, opts: Options, last: int, now: int)
    requires opts.capacity >= 1 && opts.windowMs == 1 && TracksInstants(found, a, opts, last) && last <= now
    ensures
      var (b', ok) :=
        match found case None => (Bucket(opts.capacity - 1, now), true) case Some(b) => Consume(b, opts, now);
      TracksInstants(Some(b'), if ok then a + [now] else a, opts, now)
  {
    match found
    case None =>
      assert OneInstant(a + [now], 0);
    case Some(b) =>
      var w :| OneInstant(a, w) && |a| <= w + opts.capacity && b == Bucket(opts.capacity - (|a| - w), a[w]);
      assert a[|a| - 1] == a[w];
      if Consume(b, opts, now).1 {
        InstantGrows(a, w, now, opts);
      }
  }

  lemma {:induction false} RunTracksInstants(
      opts: Options, t: Trace, events: seq<Event>, s: string, start: int, end: int)
    requires opts.capacity >= 1 && opts.windowMs == 1 && Monotone(events, start, end)
    requires TracksInstants(Lookup(t.buckets, s), t.admitted, opts, start)
    ensures var t' := Run(opts, t, events, s); TracksInstants(Lookup(t'.buckets, s), t'.admitted, opts, end)
    decreases |events|
  {
    if events == [] {
    } else {
      var e := events[0];
      if e.socketId == s {
        TracksInstantsStep(Lookup(t.buckets, s), t.admitted, opts, start, e.now);
      }
      RunTracksInstants(opts, Next(opts, t, e, s), events[1..], s, e.now, end);
    }
  }

  lemma TightBoundsCount(opts: Options, a: seq<int>, from: int)
    requires opts.capacity >= 1 && Sorted(a) && Tight(a, opts)
    ensures CountIn(a, from, from + 1) <= opts.capacity
  {
    var n := CountIn(a, from, from + 1);
    if n > 0 {
      var i := CountIsConsecutive(a, from, from + 1);
      var j := i + n - 1;
      assert a[j] <= a[i];
    }
  }

  /** With a window of one millisecond and an integer clock, no instant sees more than c admitted events. */
  lemma AtMostCapacityPerInstant(opts: Options, events: seq<Event>, s: string, start: int, end: int, from: int)
    requires opts.windowMs == 1 && Monotone(events, start, end)
    ensures CountIn(Run(opts, EMPTY, events, s).admitted, from, from + 1) <= Quota(opts)
  {
    RunActsAlike(opts, EMPTY, EMPTY, events, s);
    RunTracksInstants(Raised(opts), EMPTY, events, s, start, end);
    AdmittedAreSpread(opts, events, s, start, end);
    TightBoundsCount(Raised(opts), Run(opts, EMPTY, events, s).admitted, from);
  }

  lemma {:induction false} NothingInNoTime(a: seq<int>, from: int, to: int)
    requires to <= from
    ensures CountIn(a, from, to) == 0
  {
    if a == [] {
    } else {
      NothingInNoTime(a[..|a| - 1], from, to);
    }
  }

  /**
   For every capacity, some run attains 2c-1 if and only if the window has at least two milliseconds,
   or has one and c is at most 1. With a window of one millisecond an interval sees a single instant
   of the integer clock, hence at most c.
   */
  lemma BoundIsAttainedIff(opts: Options, s: string)
    ensures (exists events: seq<Event>, from: int :: Attains(opts, s, events, from))
       <==> opts.windowMs >= 2 || (opts.windowMs == 1 && opts.capacity <= 1)
  {
    if opts.windowMs >= 2 || (opts.windowMs == 1 && opts.capacity <= 1) {
      var events, from := BurstAttains(opts, s);
    } else {
      forall events: seq<Event>, from: int ensures !Attains(opts, s, events, from) {
        NotAttained(opts, s, events, from);
      }
    }
  }

  lemma NotAttained(opts: Options, s: string, events: seq<Event>, from: int)
    requires opts.windowMs <= 0 || (opts.windowMs == 1 && opts.capacity > 1)
    ensures !Attains(opts, s, events, from)
  {
    if opts.windowMs <= 0 {
      NothingInNoTime(Run(opts, EMPTY, events, s).admitted, from, from + opts.windowMs);
    } else if start, end :| Monotone(events, start, end) {
      AtMostCapacityPerInstant(opts, events, s, start, end, from);
    }
  }
}
