/**
 Token-bucket rate limiter (src/security/rate-limit.service.ts).

 Buckets are refilled lazily, and a background sweep deletes the ones that have been idle for
 five minutes. Token counts are exact reals and clock readings are integer milliseconds.
 */
module TokenBucket {
  import opened Common

  datatype Scope = Socket | User | Ip | Unknown(name: string)

  /** A cost argument: JavaScript numbers also include NaN and the infinities. */
  datatype Cost = Finite(amount: real) | NotFinite

  datatype Config = Config(
    socketPerSecond: real, userPerSecond: real, ipPerSecond: real,
    burstSocket: real, burstUser: real, burstIp: real)

  datatype Limits = Limits(capacity: real, ratePerSecond: real)

  datatype Bucket = Bucket(tokens: real, updatedAt: int)

  type Backend = map<Scope, map<string, Bucket>>

  /** How long to wait: a number of milliseconds, or Infinity when nothing is ever refilled. */
  datatype Wait = Ms(n: int) | Never

  datatype Decision = Decision(allowed: bool, remaining: int, retryAfter: Wait)

  datatype Error = UnknownScope | EmptyKey | BadCost

  const IDLE_TTL_MS := 5 * 60 * 1000

  predicate ValidConfig(cfg: Config) {
    && 0.0 <= cfg.socketPerSecond && 0.0 <= cfg.userPerSecond && 0.0 <= cfg.ipPerSecond
    && 0.0 <= cfg.burstSocket && 0.0 <= cfg.burstUser && 0.0 <= cfg.burstIp
  }

  function LimitsFor(cfg: Config, scope: Scope): Limits
    requires !scope.Unknown?
  {
    match scope
    case Socket => Limits(cfg.burstSocket, cfg.socketPerSecond)
    case User => Limits(cfg.burstUser, cfg.userPerSecond)
    case Ip => Limits(cfg.burstIp, cfg.ipPerSecond)
  }

  /** The argument checks of `acquireDetailed`, in its order. */
  function Rejection(scope: Scope, key: string, cost: Cost): Option<Error> {
    if scope.Unknown? then Some(UnknownScope)
    else if key == "" then Some(EmptyKey)
    else if cost.NotFinite? || cost.amount <= 0.0 then Some(BadCost)
    else None
  }

  function Find(be: Backend, scope: Scope, key: string): Option<Bucket> {
    if scope in be && key in be[scope] then Some(be[scope][key]) else None
  }

  function Store(be: Backend, scope: Scope, key: string, b: Bucket): (r: Backend)
    ensures forall s, k :: Find(r, s, k) == if s == scope && k == key then Some(b) else Find(be, s, k)
  {
    be[scope := (if scope in be then be[scope] else map[])[key := b]]
  }

  lemma StoreOverwrites(be: Backend, scope: Scope, key: string, b: Bucket, b': Bucket)
    ensures Store(Store(be, scope, key, b), scope, key, b') == Store(be, scope, key, b')
  {
    var inner := if scope in be then be[scope] else map[];
    assert inner[key := b][key := b'] == inner[key := b'];
  }

  /** Tokens earned in `ms` milliseconds. */
  function Gain(lim: Limits, ms: int): real { ms as real / 1000.0 * lim.ratePerSecond }

  function Refill(b: Bucket, lim: Limits, now: int): real {
    MinReal(lim.capacity, b.tokens + Gain(lim, MaxInt(0, now - b.updatedAt)))
  }

  function RetryAfter(lim: Limits, deficit: real): Wait {
    if lim.ratePerSecond == 0.0 then Never else Ms(Ceil(deficit / lim.ratePerSecond * 1000.0))
  }

  function Decide(lim: Limits, tokens: real, cost: real): Decision {
    if tokens >= cost then
      Decision(true, (tokens - cost).Floor, Ms(0))
    else
      Decision(false, 0, RetryAfter(lim, cost - tokens))
  }

  /**
   `acquireDetailed`: the clock is read once when a bucket is created (`born`) and once to
   refill it (`now`).
   */
  function Acquire(be: Backend, cfg: Config, scope: Scope, key: string, cost: Cost, born: int, now: int)
    : (Backend, Result<Decision, Error>)
  {
    match Rejection(scope, key, cost)
    case Some(e) => (be, Err(e))
    case None =>
      var lim := LimitsFor(cfg, scope);
      var found := Find(be, scope, key);
      var bucket := if found.Some? then found.value else Bucket(lim.capacity, born);
      var tokens := Refill(bucket, lim, now);
      var d := Decide(lim, tokens, cost.amount);
      (Store(be, scope, key, Bucket(if d.allowed then tokens - cost.amount else tokens, now)), Ok(d))
  }

  function SweptScope(buckets: map<string, Bucket>, now: int): map<string, Bucket> {
    map k | k in buckets && now - buckets[k].updatedAt <= IDLE_TTL_MS :: buckets[k]
  }

  function Sweep(be: Backend, now: int): Backend {
    map s | s in be :: SweptScope(be[s], now)
  }

  function Reset(be: Backend, scope: Option<Scope>, key: string): Backend {
    if scope.None? then map[]
    else if scope.value !in be then be
    else if key == "" then be[scope.value := map[]]
    else be[scope.value := be[scope.value] - {key}]
  }

  class RateLimitService {
    const config: Config
    var backend: Backend

    constructor (config: Config)
      ensures this.config == config
      ensures backend == map[Socket := map[], User := map[], Ip := map[]]
    {
      this.config := config;
      backend := map[Socket := map[], User := map[], Ip := map[]];
    }

    method GetOrCreateBucket(scope: Scope, key: string, capacity: real, born: int) returns (bucket: Bucket)
      modifies this`backend
      ensures bucket == match Find(old(backend), scope, key) case Some(b) => b case None => Bucket(capacity, born)
      ensures backend == Store(old(backend), scope, key, bucket)
    {
      if scope !in backend {
        backend := backend[scope := map[]];
      }
      if key !in backend[scope] {
        backend := backend[scope := backend[scope][key := Bucket(capacity, born)]];
      }
      bucket := backend[scope][key];
      assert backend[scope][key := bucket] == backend[scope];
    }

    method AcquireDetailed(scope: Scope, key: string, cost: Cost, born: int, now: int)
      returns (r: Result<Decision, Error>)
      modifies this`backend
      ensures (backend, r) == Acquire(old(backend), config, scope, key, cost, born, now)
    {
      if scope.Unknown? { return Err(UnknownScope); }
      if key == "" { return Err(EmptyKey); }
      if cost.NotFinite? || cost.amount <= 0.0 { return Err(BadCost); }

      var limits := LimitsFor(config, scope);
      ghost var was := backend;
      var found := GetOrCreateBucket(scope, key, limits.capacity, born);
      var bucket := found;
      var elapsed := MaxInt(0, now - bucket.updatedAt);
      var tokens := MinReal(limits.capacity, bucket.tokens + Gain(limits, elapsed));
      assert tokens == Refill(found, limits, now);
      bucket := bucket.(updatedAt := now);
      if tokens >= cost.amount {
        bucket := bucket.(tokens := tokens - cost.amount);
        UpdateBucket(scope, key, bucket, was, found);
        return Ok(Decision(true, bucket.tokens.Floor, Ms(0)));
      }
      bucket := bucket.(tokens := tokens);
      UpdateBucket(scope, key, bucket, was, found);
      return Ok(Decision(false, 0, RetryAfter(limits, cost.amount - tokens)));
    }

    /** Writes a bucket back to the backend; the source shares the object, so it needs no such write. */
    method UpdateBucket(scope: Scope, key: string, bucket: Bucket, ghost was: Backend, ghost found: Bucket)
      requires backend == Store(was, scope, key, found)
      modifies this`backend
      ensures backend == Store(was, scope, key, bucket)
    {
      StoreOverwrites(was, scope, key, found, bucket);
      backend := backend[scope := backend[scope][key := bucket]];
    }

    /** The timer callback. */
    method SweepIdle(now: int)
      modifies this`backend
      ensures backend == Sweep(old(backend), now)
    {
      ghost var was := backend;
      var scopes := backend.Keys;
      while scopes != {}
        invariant scopes <= backend.Keys == was.Keys
        invariant forall s :: s in was ==> backend[s] == if s in scopes then was[s] else SweptScope(was[s], now)
        decreases |scopes|
      {
        var scope :| scope in scopes;
        var buckets := SweepBuckets(backend[scope], now);
        backend := backend[scope := buckets];
        scopes := scopes - {scope};
      }
    }

    /** The inner loop of the sweep, which deletes from the map it walks. */
    static method SweepBuckets(idle: map<string, Bucket>, now: int) returns (buckets: map<string, Bucket>)
      ensures buckets == SweptScope(idle, now)
    {
      buckets := idle;
      var keys := idle.Keys;
      while keys != {}
        invariant keys <= buckets.Keys <= idle.Keys
        invariant forall k :: k in idle ==>
                    (k in buckets <==> k in keys || now - idle[k].updatedAt <= IDLE_TTL_MS)
        invariant forall k :: k in buckets ==> buckets[k] == idle[k]
        decreases |keys|
      {
        var key :| key in keys;
        if now - buckets[key].updatedAt > IDLE_TTL_MS {
          buckets := buckets - {key};
        }
        keys := keys - {key};
      }
    }

    method ResetBuckets(scope: Option<Scope>, key: string)
      modifies this`backend
      ensures backend == Reset(old(backend), scope, key)
    {
      if scope.None? {
        backend := map[];
        return;
      }
      if scope.value !in backend { return; }
      if key == "" {
        backend := backend[scope.value := map[]];
        return;
      }
      backend := backend[scope.value := backend[scope.value] - {key}];
    }
  }

  // ---------------------------------------------------------------------------------------
  // Runs
  // ---------------------------------------------------------------------------------------

  datatype Op =
    | AcquireOp(scope: Scope, key: string, cost: Cost, born: int, now: int)
    | SweepOp(now: int)
    | ResetOp(which: Option<Scope>, one: string)

  datatype Output = Answer(r: Result<Decision, Error>) | Silence

  function Apply(be: Backend, cfg: Config, op: Op): (Backend, Output) {
    match op
    case AcquireOp(s, k, c, born, now) =>
      var (be', r) := Acquire(be, cfg, s, k, c, born, now); (be', Answer(r))
    case SweepOp(now) => (Sweep(be, now), Silence)
    case ResetOp(s, k) => (Reset(be, s, k), Silence)
  }

  function Outputs(be: Backend, cfg: Config, ops: seq<Op>): (outs: seq<Output>)
    ensures |outs| == |ops|
    decreases |ops|
  {
    if ops == [] then [] else
    var (be', o) := Apply(be, cfg, ops[0]);
    [o] + Outputs(be', cfg, ops[1..])
  }

  function Final(be: Backend, cfg: Config, ops: seq<Op>): Backend
    decreases |ops|
  {
    if ops == [] then be else Final(Apply(be, cfg, ops[0]).0, cfg, ops[1..])
  }

  /** The clock after an operation, given the clock before it. */
  function After(op: Op, t: int): int { if op.ResetOp? then t else op.now }

  /** No reading of the clock is earlier than the one before; the last is at most `end`. */
  predicate Monotone(ops: seq<Op>, t: int, end: int)
    decreases |ops|
  {
    if ops == [] then t <= end else
    && t <= After(ops[0], t)
    && Monotone(ops[1..], After(ops[0], t), end)
  }

  predicate BucketOk(b: Bucket, lim: Limits) { 0.0 <= b.tokens <= lim.capacity }

  /** Tokens stay within the capacity, whatever the clock did. */
  ghost predicate Valid(be: Backend, cfg: Config) {
    forall s: Scope, k: string ::
      !s.Unknown? && Find(be, s, k).Some? ==> BucketOk(Find(be, s, k).value, LimitsFor(cfg, s))
  }

  ghost predicate NotLaterThan(be: Backend, t: int) {
    forall s: Scope, k: string :: Find(be, s, k).Some? ==> Find(be, s, k).value.updatedAt <= t
  }

  /** Every bucket is in range, and none was touched after `t`. */
  ghost predicate ValidBy(be: Backend, cfg: Config, t: int) {
    var ok := Valid(be, cfg) && NotLaterThan(be, t);
    ok
  }

  /** What a caller can observe of a bucket: the tokens it would hold if refilled at `now`. */
  function Level(be: Backend, cfg: Config, scope: Scope, key: string, now: int): real
    requires !scope.Unknown?
  {
    match Find(be, scope, key)
    case None => LimitsFor(cfg, scope).capacity
    case Some(b) => Refill(b, LimitsFor(cfg, scope), now)
  }

  // Arithmetic of the refill

  lemma GainAdds(lim: Limits, x: int, y: int)
    ensures Gain(lim, x) + Gain(lim, y) == Gain(lim, x + y)
  {
    assert (x + y) as real / 1000.0 == x as real / 1000.0 + y as real / 1000.0;
  }

  lemma GainMonotone(lim: Limits, x: int, y: int)
    requires 0.0 <= lim.ratePerSecond && x <= y
    ensures Gain(lim, x) <= Gain(lim, y)
  {
    GainAdds(lim, x, y - x);
    assert 0.0 <= (y - x) as real / 1000.0;
  }

  lemma GainNonNegative(lim: Limits, x: int)
    requires 0.0 <= lim.ratePerSecond && 0 <= x
    ensures 0.0 <= Gain(lim, x)
  {
    GainMonotone(lim, 0, x);
    assert Gain(lim, 0) == 0.0;
  }

  lemma LevelAdvances(be: Backend, cfg: Config, scope: Scope, key: string, t: int, now: int)
    requires ValidConfig(cfg) && !scope.Unknown? && NotLaterThan(be, t) && t <= now
    ensures Level(be, cfg, scope, key, now)
            == MinReal(LimitsFor(cfg, scope).capacity,
                       Level(be, cfg, scope, key, t) + Gain(LimitsFor(cfg, scope), now - t))
  {
    match Find(be, scope, key)
    case None => GainNonNegative(LimitsFor(cfg, scope), now - t);
    case Some(b) =>
  }

  lemma LevelInRange(be: Backend, cfg: Config, scope: Scope, key: string, now: int)
    requires ValidConfig(cfg) && !scope.Unknown? && Valid(be, cfg)
    ensures 0.0 <= Level(be, cfg, scope, key, now) <= LimitsFor(cfg, scope).capacity
  {
    var lim := LimitsFor(cfg, scope);
    match Find(be, scope, key)
    case None =>
    case Some(b) => GainNonNegative(lim, MaxInt(0, now - b.updatedAt));
  }

  /**
   An acquire is decided by the level alone, and changes no level but its own. In particular
   the reading `born` taken when a bucket is created never matters.
   */
  lemma AcquireByLevel(be: Backend, cfg: Config, scope: Scope, key: string, cost: Cost, born: int, now: int)
    requires ValidConfig(cfg) && Valid(be, cfg) && Rejection(scope, key, cost).None?
    ensures
      var (be', r) := Acquire(be, cfg, scope, key, cost, born, now);
      var level := Level(be, cfg, scope, key, now);
      && r == Ok(Decide(LimitsFor(cfg, scope), level, cost.amount))
      && Find(be', scope, key) == Some(Bucket(if level >= cost.amount then level - cost.amount else level, now))
      && Valid(be', cfg)
      && (forall s, k :: (s, k) != (scope, key) ==> Find(be', s, k) == Find(be, s, k))
  {
    var lim := LimitsFor(cfg, scope);
    LevelInRange(be, cfg, scope, key, now);
    if Find(be, scope, key).None? {
      GainNonNegative(lim, MaxInt(0, now - born));
    }
  }

  lemma FindAfterSweep(be: Backend, now: int, scope: Scope, key: string)
    ensures Find(Sweep(be, now), scope, key)
            == match Find(be, scope, key)
               case None => None
               case Some(b) => if now - b.updatedAt > IDLE_TTL_MS then None else Some(b)
  {
  }

  predicate Covers(which: Option<Scope>, one: string, scope: Scope, key: string) {
    which.None? || (which.value == scope && (one == "" || one == key))
  }

  lemma FindAfterReset(be: Backend, which: Option<Scope>, one: string, scope: Scope, key: string)
    ensures Find(Reset(be, which, one), scope, key)
            == if Covers(which, one, scope, key) then None else Find(be, scope, key)
  {
  }

  /** Every operation keeps the token counts of every bucket within [0, capacity], on any clock. */
  lemma ApplyKeepsValid(be: Backend, cfg: Config, op: Op)
    requires ValidConfig(cfg) && Valid(be, cfg)
    ensures Valid(Apply(be, cfg, op).0, cfg)
  {
    match op
    case AcquireOp(s, k, c, born, now) =>
      if Rejection(s, k, c).None? { AcquireByLevel(be, cfg, s, k, c, born, now); }
    case SweepOp(now) =>
      forall s, k { FindAfterSweep(be, now, s, k); }
    case ResetOp(which, one) =>
      forall s, k { FindAfterReset(be, which, one, s, k); }
  }

  lemma {:induction false} TokensStayInRange(be: Backend, cfg: Config, ops: seq<Op>)
    requires ValidConfig(cfg) && Valid(be, cfg)
    ensures Valid(Final(be, cfg, ops), cfg)
    decreases |ops|
  {
    if ops == [] {
    } else {
      ApplyKeepsValid(be, cfg, ops[0]);
      TokensStayInRange(Apply(be, cfg, ops[0]).0, cfg, ops[1..]);
    }
  }

  lemma ApplyKeepsTime(be: Backend, cfg: Config, op: Op, t: int)
    requires NotLaterThan(be, t) && t <= After(op, t)
    ensures NotLaterThan(Apply(be, cfg, op).0, After(op, t))
  {
    if op.SweepOp? {
      forall s, k { FindAfterSweep(be, op.now, s, k); }
    } else if op.ResetOp? {
      forall s, k { FindAfterReset(be, op.which, op.one, s, k); }
    }
  }

  // ---------------------------------------------------------------------------------------
  // Sweeps and denied attempts cannot be observed
  // ---------------------------------------------------------------------------------------

  /** Two backends that no caller can tell apart from time `t` on. */
  ghost predicate Agree(cfg: Config, be1: Backend, be2: Backend, t: int) {
    var ok :=
      && Valid(be1, cfg) && Valid(be2, cfg) && NotLaterThan(be1, t) && NotLaterThan(be2, t)
      && forall s: Scope, k: string :: !s.Unknown? ==> Level(be1, cfg, s, k, t) == Level(be2, cfg, s, k, t);
    ok
  }

  /**
   The exact condition under which deleting an idle bucket loses nothing: a bucket swept at the
   first opportunity, 300001 ms after its last use, would have refilled from empty.
   */
  ghost predicate SweepSafe(cfg: Config) {
    forall s: Scope :: !s.Unknown? ==> LimitsFor(cfg, s).capacity <= Gain(LimitsFor(cfg, s), IDLE_TTL_MS + 1)
  }

  lemma AgreeAdvances(cfg: Config, be1: Backend, be2: Backend, t: int, now: int)
    requires ValidConfig(cfg) && Agree(cfg, be1, be2, t) && t <= now
    ensures Agree(cfg, be1, be2, now)
  {
    forall s: Scope, k: string | !s.Unknown?
      ensures Level(be1, cfg, s, k, now) == Level(be2, cfg, s, k, now)
    {
      LevelAdvances(be1, cfg, s, k, t, now);
      LevelAdvances(be2, cfg, s, k, t, now);
    }
  }

  lemma SweepKeepsLevels(cfg: Config, be: Backend, now: int)
    requires ValidConfig(cfg) && SweepSafe(cfg) && Valid(be, cfg) && NotLaterThan(be, now)
    ensures Agree(cfg, Sweep(be, now), be, now)
  {
    forall s: Scope, k: string
      ensures Find(Sweep(be, now), s, k).Some? ==> Find(Sweep(be, now), s, k) == Find(be, s, k)
    {
      FindAfterSweep(be, now, s, k);
    }
    forall s: Scope, k: string | !s.Unknown?
      ensures Level(Sweep(be, now), cfg, s, k, now) == Level(be, cfg, s, k, now)
    {
      FindAfterSweep(be, now, s, k);
      var found := Find(be, s, k);
      if found.Some? && now - found.value.updatedAt > IDLE_TTL_MS {
        GainMonotone(LimitsFor(cfg, s), IDLE_TTL_MS + 1, now - found.value.updatedAt);
        assert 0.0 <= found.value.tokens;
      }
    }
  }

  /** The levels right after an operation, in terms of the levels when it happened. */
  lemma LevelAfter(be: Backend, cfg: Config, op: Op, t: int, scope: Scope, key: string)
    requires ValidConfig(cfg) && Valid(be, cfg) && NotLaterThan(be, t) && t <= After(op, t)
    requires op.SweepOp? ==> SweepSafe(cfg)
    requires !scope.Unknown?
    ensures
      var now := After(op, t);
      var before := Level(be, cfg, scope, key, now);
      Level(Apply(be, cfg, op).0, cfg, scope, key, now)
      == match op
         case AcquireOp(s, k, c, _, _) =>
           if (s, k) == (scope, key) && Rejection(s, k, c).None? && before >= c.amount then before - c.amount
           else before
         case SweepOp(_) => before
         case ResetOp(which, one) => if Covers(which, one, scope, key) then LimitsFor(cfg, scope).capacity else before
  {
    match op
    case AcquireOp(s, k, c, born, now) =>
      if Rejection(s, k, c).None? {
        AcquireByLevel(be, cfg, s, k, c, born, now);
        LevelInRange(be, cfg, s, k, now);
        if (s, k) == (scope, key) {
          assert Gain(LimitsFor(cfg, s), 0) == 0.0;
        } else {
          assert Find(Apply(be, cfg, op).0, scope, key) == Find(be, scope, key);
        }
      }
    case SweepOp(now) =>
      assert NotLaterThan(be, now);
      SweepKeepsLevels(cfg, be, now);
    case ResetOp(which, one) => FindAfterReset(be, which, one, scope, key);
  }

  lemma SameOpKeepsAgreement(cfg: Config, be1: Backend, be2: Backend, op: Op, t: int)
    requires ValidConfig(cfg) && Agree(cfg, be1, be2, t) && t <= After(op, t)
    requires op.SweepOp? ==> SweepSafe(cfg)
    ensures Agree(cfg, Apply(be1, cfg, op).0, Apply(be2, cfg, op).0, After(op, t))
    ensures Apply(be1, cfg, op).1 == Apply(be2, cfg, op).1
  {
    var now := After(op, t);
    AgreeAdvances(cfg, be1, be2, t, now);
    ApplyKeepsValid(be1, cfg, op); ApplyKeepsValid(be2, cfg, op);
    ApplyKeepsTime(be1, cfg, op, t); ApplyKeepsTime(be2, cfg, op, t);
    forall s: Scope, k: string | !s.Unknown?
      ensures Level(Apply(be1, cfg, op).0, cfg, s, k, now) == Level(Apply(be2, cfg, op).0, cfg, s, k, now)
    {
      LevelAfter(be1, cfg, op, t, s, k);
      LevelAfter(be2, cfg, op, t, s, k);
    }
    if op.AcquireOp? && Rejection(op.scope, op.key, op.cost).None? {
      AcquireByLevel(be1, cfg, op.scope, op.key, op.cost, op.born, op.now);
      AcquireByLevel(be2, cfg, op.scope, op.key, op.cost, op.born, op.now);
    }
  }

  predicate Admits(o: Output) { o.Answer? && o.r.Ok? && o.r.value.allowed }

  /** A sweep, or an attempt that is refused in the state where it is made. */
  predicate Silent(be: Backend, cfg: Config, op: Op) {
    op.SweepOp? || (op.AcquireOp? && !Admits(Apply(be, cfg, op).1))
  }

  lemma SilentOpKeepsAgreement(cfg: Config, be1: Backend, be2: Backend, op: Op, t: int)
    requires ValidConfig(cfg) && Agree(cfg, be1, be2, t) && t <= After(op, t)
    requires Silent(be1, cfg, op) && (op.SweepOp? ==> SweepSafe(cfg))
    ensures Agree(cfg, Apply(be1, cfg, op).0, be2, After(op, t))
  {
    var now := After(op, t);
    AgreeAdvances(cfg, be1, be2, t, now);
    ApplyKeepsValid(be1, cfg, op);
    ApplyKeepsTime(be1, cfg, op, t);
    if op.AcquireOp? && Rejection(op.scope, op.key, op.cost).None? {
      AcquireByLevel(be1, cfg, op.scope, op.key, op.cost, op.born, op.now);
    }
    forall s: Scope, k: string | !s.Unknown?
      ensures Level(Apply(be1, cfg, op).0, cfg, s, k, now) == Level(be2, cfg, s, k, now)
    {
      LevelAfter(be1, cfg, op, t, s, k);
    }
  }

  /** A run in which some operations are marked as extra. */
  datatype Step = Step(op: Op, extra: bool)

  function Full(steps: seq<Step>): (ops: seq<Op>)
    ensures |ops| == |steps|
    decreases |steps|
  {
    if steps == [] then [] else [steps[0].op] + Full(steps[1..])
  }

  function Kept(steps: seq<Step>): seq<Op>
    decreases |steps|
  {
    if steps == [] then []
    else (if steps[0].extra then [] else [steps[0].op]) + Kept(steps[1..])
  }

  /** What the run with the extra operations answers to the others. */
  function KeptOutputs(be: Backend, cfg: Config, steps: seq<Step>): seq<Output>
    decreases |steps|
  {
    if steps == [] then [] else
    var (be', o) := Apply(be, cfg, steps[0].op);
    (if steps[0].extra then [] else [o]) + KeptOutputs(be', cfg, steps[1..])
  }

  /** Every extra operation is silent where it happens, and sweeps happen only if they are safe. */
  ghost predicate ExtrasSilent(be: Backend, cfg: Config, steps: seq<Step>)
    decreases |steps|
  {
    steps == [] ||
    (&& (steps[0].extra ==> Silent(be, cfg, steps[0].op))
     && (steps[0].op.SweepOp? ==> SweepSafe(cfg))
     && ExtrasSilent(Apply(be, cfg, steps[0].op).0, cfg, steps[1..]))
  }

  /**
   Inserting sweeps and refused attempts anywhere into a run on a monotone clock changes no
   answer to any other operation.
   */
  lemma {:induction false} SilentOpsAreInvisible(
    cfg: Config, be1: Backend, be2: Backend, steps: seq<Step>, t: int, end: int)
    requires ValidConfig(cfg) && Agree(cfg, be1, be2, t)
    requires Monotone(Full(steps), t, end) && ExtrasSilent(be1, cfg, steps)
    ensures KeptOutputs(be1, cfg, steps) == Outputs(be2, cfg, Kept(steps))
    decreases |steps|
  {
    if steps == [] {
    } else {
      var op, rest := steps[0].op, steps[1..];
      var be1' := Apply(be1, cfg, op).0;
      assert Full(steps)[1..] == Full(rest);
      if steps[0].extra {
        SilentOpKeepsAgreement(cfg, be1, be2, op, t);
        SilentOpsAreInvisible(cfg, be1', be2, rest, After(op, t), end);
        assert Kept(steps) == Kept(rest);
        assert KeptOutputs(be1, cfg, steps) == KeptOutputs(be1', cfg, rest);
      } else {
        SameOpKeepsAgreement(cfg, be1, be2, op, t);
        SilentOpsAreInvisible(cfg, be1', Apply(be2, cfg, op).0, rest, After(op, t), end);
        assert Kept(steps)[0] == op && Kept(steps)[1..] == Kept(rest);
      }
    }
  }

  // ---- the exact condition for sweeps ----

  predicate OnlySweepsExtra(steps: seq<Step>) {
    forall i :: 0 <= i < |steps| && steps[i].extra ==> steps[i].op.SweepOp?
  }

  predicate NoKeptSweeps(steps: seq<Step>) {
    forall i :: 0 <= i < |steps| && steps[i].op.SweepOp? ==> steps[i].extra
  }

  /** No run on a monotone clock, started empty, is answered differently because sweeps happened. */
  ghost predicate SweepsUnobservable(cfg: Config) {
    forall steps: seq<Step>, t: int, end: int ::
      Monotone(Full(steps), t, end) && OnlySweepsExtra(steps) && NoKeptSweeps(steps)
      ==> KeptOutputs(map[], cfg, steps) == Outputs(map[], cfg, Kept(steps))
  }

  lemma {:induction false} SweepsAreSilent(be: Backend, cfg: Config, steps: seq<Step>)
    requires SweepSafe(cfg) && OnlySweepsExtra(steps)
    ensures ExtrasSilent(be, cfg, steps)
    decreases |steps|
  {
    if steps == [] {
    } else {
      SweepsAreSilent(Apply(be, cfg, steps[0].op).0, cfg, steps[1..]);
    }
  }

  /** Drain a bucket, sweep it away, drain it again. */
  function DrainSweepDrain(cfg: Config, scope: Scope): seq<Op>
    requires !scope.Unknown?
  {
    var all, late := Finite(LimitsFor(cfg, scope).capacity), IDLE_TTL_MS + 1;
    [AcquireOp(scope, "k", all, 0, 0), SweepOp(late), AcquireOp(scope, "k", all, late, late)]
  }

  lemma DrainIsMonotone(cfg: Config, scope: Scope)
    requires !scope.Unknown?
    ensures Monotone(DrainSweepDrain(cfg, scope), 0, IDLE_TTL_MS + 1)
  {
    var ops, late := DrainSweepDrain(cfg, scope), IDLE_TTL_MS + 1;
    assert Monotone([], late, late);
    assert Monotone([ops[2]], late, late);
    assert Monotone([ops[1], ops[2]], 0, late);
    assert After(ops[0], 0) == 0 && ops[1..] == [ops[1], ops[2]];
  }

  /** The same operations, the sweep being extra. */
  function DrainAndWait(cfg: Config, scope: Scope): seq<Step>
    requires !scope.Unknown?
  {
    var ops := DrainSweepDrain(cfg, scope);
    [Step(ops[0], false), Step(ops[1], true), Step(ops[2], false)]
  }

  lemma DrainInFull(cfg: Config, scope: Scope)
    requires !scope.Unknown?
    ensures Full(DrainAndWait(cfg, scope)) == DrainSweepDrain(cfg, scope)
  {
    var steps := DrainAndWait(cfg, scope);
    assert steps[1..][1..] == [steps[2]] && Full([steps[2]]) == [steps[2].op];
    assert Full(steps[1..]) == [steps[1].op, steps[2].op];
  }

  lemma DrainedBucketReveals(cfg: Config, scope: Scope)
    requires ValidConfig(cfg) && !scope.Unknown?
    requires LimitsFor(cfg, scope).capacity > Gain(LimitsFor(cfg, scope), IDLE_TTL_MS + 1)
    ensures KeptOutputs(map[], cfg, DrainAndWait(cfg, scope)) != Outputs(map[], cfg, Kept(DrainAndWait(cfg, scope)))
  {
    var steps := DrainAndWait(cfg, scope);
    var first, again := steps[0].op, steps[2].op;
    var be1 := Apply(map[], cfg, first).0;
    var be2 := Apply(be1, cfg, steps[1].op).0;
    assert steps[1..][1..] == [steps[2]] && steps[1..][1..][1..] == [];
    assert KeptOutputs(be2, cfg, [steps[2]]) == [Apply(be2, cfg, again).1];
    assert KeptOutputs(map[], cfg, steps) == [Apply(map[], cfg, first).1, Apply(be2, cfg, again).1];
    assert Kept(steps[1..]) == Kept([steps[2]]) == [again];
    assert Kept(steps) == [first, again];
    assert [first, again][1..] == [again];
    assert Outputs(be1, cfg, [again]) == [Apply(be1, cfg, again).1];
    assert Outputs(map[], cfg, [first, again]) == [Apply(map[], cfg, first).1, Apply(be1, cfg, again).1];
  }

  /**
   Sweeping cannot be observed if and only if every bucket refills completely within 300001 ms,
   that is, capacity <= 300.001 * ratePerSecond in every scope.
   */
  lemma SweepsUnobservableIff(cfg: Config)
    requires ValidConfig(cfg)
    ensures SweepsUnobservable(cfg) <==> SweepSafe(cfg)
  {
    if SweepSafe(cfg) {
      forall steps: seq<Step>, t: int, end: int
        | Monotone(Full(steps), t, end) && OnlySweepsExtra(steps) && NoKeptSweeps(steps)
        ensures KeptOutputs(map[], cfg, steps) == Outputs(map[], cfg, Kept(steps))
      {
        SweepsAreSilent(map[], cfg, steps);
        SilentOpsAreInvisible(cfg, map[], map[], steps, t, end);
      }
    } else {
      var scope: Scope :| !scope.Unknown?
        && LimitsFor(cfg, scope).capacity > Gain(LimitsFor(cfg, scope), IDLE_TTL_MS + 1);
      DrainedBucketReveals(cfg, scope);
      DrainInFull(cfg, scope);
      DrainIsMonotone(cfg, scope);
    }
  }

  // ---------------------------------------------------------------------------------------
  // Rate bounds
  // ---------------------------------------------------------------------------------------

  predicate Targets(op: Op, scope: Scope, key: string) {
    op.AcquireOp? && op.scope == scope && op.key == key && Rejection(scope, key, op.cost).None?
  }

  /** Total cost admitted for one (scope, key) during a run. */
  function Admitted(be: Backend, cfg: Config, ops: seq<Op>, scope: Scope, key: string): real
    decreases |ops|
  {
    if ops == [] then 0.0 else
    var (be', o) := Apply(be, cfg, ops[0]);
    (if Targets(ops[0], scope, key) && Admits(o) then ops[0].cost.amount else 0.0)
    + Admitted(be', cfg, ops[1..], scope, key)
  }

  /** Forward movement of the clock between the attempts on (scope, key), starting from `last`. */
  function Forward(ops: seq<Op>, scope: Scope, key: string, last: Option<int>): nat
    decreases |ops|
  {
    if ops == [] then 0
    else if Targets(ops[0], scope, key) then
      (if last.Some? then MaxInt(0, ops[0].now - last.value) else 0)
      + Forward(ops[1..], scope, key, Some(ops[0].now))
    else Forward(ops[1..], scope, key, last)
  }

  predicate OnlyAcquires(ops: seq<Op>) {
    forall op <- ops :: op.AcquireOp?
  }

  /** What one attempt does to a bucket there is. */
  lemma AttemptSpends(be: Backend, cfg: Config, op: Op, scope: Scope, key: string, b: Bucket)
    requires ValidConfig(cfg) && Valid(be, cfg) && op.AcquireOp?
    requires !scope.Unknown? && Find(be, scope, key) == Some(b)
    ensures
      var (be', o) := Apply(be, cfg, op);
      && Valid(be', cfg) && Find(be', scope, key).Some?
      && var b' := Find(be', scope, key).value;
         if Targets(op, scope, key) then
           && b'.updatedAt == op.now
           && b'.tokens + (if Admits(o) then op.cost.amount else 0.0)
              <= b.tokens + Gain(LimitsFor(cfg, scope), MaxInt(0, op.now - b.updatedAt))
         else b' == b
  {
    if Rejection(op.scope, op.key, op.cost).None? {
      AcquireByLevel(be, cfg, op.scope, op.key, op.cost, op.born, op.now);
    }
  }

  lemma {:induction false} AdmittedFromBucket(
    be: Backend, cfg: Config, ops: seq<Op>, scope: Scope, key: string, b: Bucket)
    requires ValidConfig(cfg) && Valid(be, cfg) && OnlyAcquires(ops)
    requires !scope.Unknown? && Find(be, scope, key) == Some(b)
    ensures Admitted(be, cfg, ops, scope, key)
            <= b.tokens + Gain(LimitsFor(cfg, scope), Forward(ops, scope, key, Some(b.updatedAt)))
    decreases |ops|
  {
    var lim := LimitsFor(cfg, scope);
    if ops == [] {
      assert BucketOk(b, lim) && Gain(lim, 0) == 0.0;
    } else {
      var op := ops[0];
      var be' := Apply(be, cfg, op).0;
      AttemptSpends(be, cfg, op, scope, key, b);
      AdmittedFromBucket(be', cfg, ops[1..], scope, key, Find(be', scope, key).value);
      if Targets(op, scope, key) {
        GainAdds(lim, MaxInt(0, op.now - b.updatedAt), Forward(ops[1..], scope, key, Some(op.now)));
      }
    }
  }

  /**
   Over any stretch of attempts, from any state and on any clock (even one that steps back), the
   cost admitted for one (scope, key) is at most the capacity plus the rate times the total
   forward movement of the clock between those attempts.
   */
  lemma {:induction false} RateBound(be: Backend, cfg: Config, ops: seq<Op>, scope: Scope, key: string)
    requires ValidConfig(cfg) && Valid(be, cfg) && OnlyAcquires(ops) && !scope.Unknown?
    ensures Admitted(be, cfg, ops, scope, key)
            <= LimitsFor(cfg, scope).capacity + Gain(LimitsFor(cfg, scope), Forward(ops, scope, key, None))
    decreases |ops|
  {
    var lim := LimitsFor(cfg, scope);
    if ops == [] {
      assert Gain(lim, 0) == 0.0;
    } else {
      var op := ops[0];
      var be' := Apply(be, cfg, op).0;
      ApplyKeepsValid(be, cfg, op);
      if Targets(op, scope, key) {
        AcquireByLevel(be, cfg, scope, key, op.cost, op.born, op.now);
        LevelInRange(be, cfg, scope, key, op.now);
        AdmittedFromBucket(be', cfg, ops[1..], scope, key, Find(be', scope, key).value);
      } else {
        RateBound(be', cfg, ops[1..], scope, key);
      }
    }
  }

  /** Either the run has no sweep, or sweeps are safe. */
  ghost predicate SweepsSafeIn(ops: seq<Op>, cfg: Config) {
    forall op <- ops :: op.SweepOp? ==> SweepSafe(cfg)
  }

  predicate NoReset(ops: seq<Op>, scope: Scope, key: string) {
    forall op <- ops :: op.ResetOp? ==> !Covers(op.which, op.one, scope, key)
  }

  /**
   On a monotone clock the same bound holds for runs that also contain sweeps and resets of
   other keys, with the elapsed time in place of the forward movement.
   */
  lemma {:induction false} RateBoundWithSweeps(
    be: Backend, cfg: Config, ops: seq<Op>, scope: Scope, key: string, t: int, end: int)
    requires ValidConfig(cfg) && Valid(be, cfg) && NotLaterThan(be, t) && !scope.Unknown?
    requires SweepsSafeIn(ops, cfg) && Monotone(ops, t, end) && NoReset(ops, scope, key)
    ensures Admitted(be, cfg, ops, scope, key)
            <= Level(be, cfg, scope, key, t) + Gain(LimitsFor(cfg, scope), end - t)
            <= LimitsFor(cfg, scope).capacity + Gain(LimitsFor(cfg, scope), end - t)
    decreases |ops|
  {
    var lim := LimitsFor(cfg, scope);
    LevelInRange(be, cfg, scope, key, t);
    if ops == [] {
      GainNonNegative(lim, end - t);
    } else {
      var op := ops[0];
      var be', now := Apply(be, cfg, op).0, After(op, t);
      ApplyKeepsValid(be, cfg, op);
      ApplyKeepsTime(be, cfg, op, t);
      LevelAdvances(be, cfg, scope, key, t, now);
      LevelAfter(be, cfg, op, t, scope, key);
      if Targets(op, scope, key) {
        AcquireByLevel(be, cfg, scope, key, op.cost, op.born, op.now);
      }
      RateBoundWithSweeps(be', cfg, ops[1..], scope, key, now, end);
      GainAdds(lim, now - t, end - now);
    }
  }

  /** The bound of a run that starts with full buckets. */
  ghost predicate IsBounded(cfg: Config, ops: seq<Op>, scope: Scope, key: string, t: int, end: int) {
    !scope.Unknown? && Monotone(ops, t, end) && NoReset(ops, scope, key)
    ==> Admitted(map[], cfg, ops, scope, key) <= LimitsFor(cfg, scope).capacity + Gain(LimitsFor(cfg, scope), end - t)
  }

  /** No run with sweeps, on a monotone clock, admits more than capacity plus rate times elapsed time. */
  ghost predicate AlwaysBounded(cfg: Config) {
    forall ops: seq<Op>, scope: Scope, key: string, t: int, end: int :: IsBounded(cfg, ops, scope, key, t, end)
  }

  lemma DrainTwice(cfg: Config, scope: Scope)
    requires ValidConfig(cfg) && !scope.Unknown?
    requires LimitsFor(cfg, scope).capacity > Gain(LimitsFor(cfg, scope), IDLE_TTL_MS + 1)
    ensures !IsBounded(cfg, DrainSweepDrain(cfg, scope), scope, "k", 0, IDLE_TTL_MS + 1)
  {
    var capacity, ops := LimitsFor(cfg, scope).capacity, DrainSweepDrain(cfg, scope);
    DrainIsMonotone(cfg, scope);
    var be1 := Apply(map[], cfg, ops[0]).0;
    var be2 := Apply(be1, cfg, ops[1]).0;
    assert ops[1..] == [ops[1], ops[2]] && [ops[1], ops[2]][1..] == [ops[2]] && [ops[2]][1..] == [];
    assert Admitted(be2, cfg, [ops[2]], scope, "k")
        == capacity + Admitted(Apply(be2, cfg, ops[2]).0, cfg, [], scope, "k");
    assert Admitted(be1, cfg, [ops[1], ops[2]], scope, "k") == capacity;
    assert Admitted(map[], cfg, ops, scope, "k") == 2.0 * capacity;
  }

  lemma SafeMeansBounded(cfg: Config, ops: seq<Op>, scope: Scope, key: string, t: int, end: int)
    requires ValidConfig(cfg) && SweepSafe(cfg)
    ensures IsBounded(cfg, ops, scope, key, t, end)
  {
    if !scope.Unknown? && Monotone(ops, t, end) && NoReset(ops, scope, key) {
      RateBoundWithSweeps(map[], cfg, ops, scope, key, t, end);
    }
  }

  /** Sweeps keep the rate bound if and only if every bucket refills completely within 300001 ms. */
  lemma SweepsKeepRateBoundIff(cfg: Config)
    requires ValidConfig(cfg)
    ensures AlwaysBounded(cfg) <==> SweepSafe(cfg)
  {
    if SweepSafe(cfg) {
      forall ops: seq<Op>, scope: Scope, key: string, t: int, end: int ensures IsBounded(cfg, ops, scope, key, t, end) {
        SafeMeansBounded(cfg, ops, scope, key, t, end);
      }
    } else {
      var scope: Scope :| !scope.Unknown?
        && LimitsFor(cfg, scope).capacity > Gain(LimitsFor(cfg, scope), IDLE_TTL_MS + 1);
      DrainTwice(cfg, scope);
    }
  }

  const DEFAULT_CONFIG := Config(30.0, 100.0, 200.0, 30.0, 100.0, 200.0)

  /** The defaults allow a burst of one second's worth, which refills in time. */
  lemma DefaultsAreSweepSafe()
    ensures ValidConfig(DEFAULT_CONFIG) && SweepSafe(DEFAULT_CONFIG)
  {
    forall s: Scope | !s.Unknown?
      ensures LimitsFor(DEFAULT_CONFIG, s).capacity <= Gain(LimitsFor(DEFAULT_CONFIG, s), IDLE_TTL_MS + 1)
    {
      assert (IDLE_TTL_MS + 1) as real / 1000.0 == 300.001;
    }
  }

  // ---------------------------------------------------------------------------------------
  // Each scope has its own settings
  // ---------------------------------------------------------------------------------------

  function Ask(scope: Scope, key: string, cost: real, now: int): Op { AcquireOp(scope, key, Finite(cost), now, now) }

  /** A key without a bucket is charged `first` at time `t`, and asked for `second` after `w` ms. */
  ghost predicate ChargesLike(be: Backend, cfg: Config, scope: Scope, key: string, first: real, second: real, t: int,
                              w: nat, burst: real, perSecond: real)
  {
    var (be', o) := Apply(be, cfg, Ask(scope, key, first, t));
    var again := Apply(be', cfg, Ask(scope, key, second, t + w)).1;
    var left := if first <= burst then burst - first else burst;
    && (Admits(o) <==> first <= burst)
    && (Admits(again) <==> second <= MinReal(burst, left + perSecond * (w as real / 1000.0)))
  }

  lemma SecondCharge(be: Backend, cfg: Config, scope: Scope, key: string, left: real, second: real, t: int, w: nat)
    requires ValidConfig(cfg) && Valid(be, cfg) && !scope.Unknown? && key != ""
    requires second > 0.0 && Find(be, scope, key) == Some(Bucket(left, t))
    ensures
      var lim := LimitsFor(cfg, scope);
      Admits(Apply(be, cfg, Ask(scope, key, second, t + w)).1)
      <==> second <= MinReal(lim.capacity, left + lim.ratePerSecond * (w as real / 1000.0))
  {
    AcquireByLevel(be, cfg, scope, key, Finite(second), t + w, t + w);
    assert Gain(LimitsFor(cfg, scope), w) == LimitsFor(cfg, scope).ratePerSecond * (w as real / 1000.0);
  }

  lemma ChargesByLimits(
    be: Backend, cfg: Config, scope: Scope, key: string, first: real, second: real, t: int, w: nat)
    requires ValidConfig(cfg) && Valid(be, cfg) && !scope.Unknown? && key != ""
    requires first > 0.0 && second > 0.0 && Find(be, scope, key).None?
    ensures
      var lim := LimitsFor(cfg, scope);
      ChargesLike(be, cfg, scope, key, first, second, t, w, lim.capacity, lim.ratePerSecond)
  {
    var burst := LimitsFor(cfg, scope).capacity;
    var be' := Apply(be, cfg, Ask(scope, key, first, t)).0;
    SecondCharge(be', cfg, scope, key, if first <= burst then burst - first else burst, second, t, w);
  }

  /**
   Every scope is charged by its own two settings, and by no other: a key that has no bucket yet has
   the burst of its scope, and regains the rate of its scope, up to the burst.
   */
  lemma EachScopeHasItsOwnLimits(
    be: Backend, cfg: Config, key: string, first: real, second: real, t: int, w: nat)
    requires ValidConfig(cfg) && Valid(be, cfg) && key != "" && first > 0.0 && second > 0.0
    ensures Find(be, Socket, key).None? ==>
              ChargesLike(be, cfg, Socket, key, first, second, t, w, cfg.burstSocket, cfg.socketPerSecond)
    ensures Find(be, User, key).None? ==>
              ChargesLike(be, cfg, User, key, first, second, t, w, cfg.burstUser, cfg.userPerSecond)
    ensures Find(be, Ip, key).None? ==>
              ChargesLike(be, cfg, Ip, key, first, second, t, w, cfg.burstIp, cfg.ipPerSecond)
  {
    if Find(be, Socket, key).None? { ChargesByLimits(be, cfg, Socket, key, first, second, t, w); }
    if Find(be, User, key).None? { ChargesByLimits(be, cfg, User, key, first, second, t, w); }
    if Find(be, Ip, key).None? { ChargesByLimits(be, cfg, Ip, key, first, second, t, w); }
  }

  /** The bound of a scope that starts with full buckets, in terms of its settings. */
  predicate StaysWithin(
    cfg: Config, ops: seq<Op>, scope: Scope, key: string, t: int, end: int, burst: real, perSecond: real)
  {
    var ok :=
      NoReset(ops, scope, key)
      ==> Admitted(map[], cfg, ops, scope, key) <= burst + (end - t) as real / 1000.0 * perSecond;
    ok
  }

  lemma StaysWithinLimits(cfg: Config, ops: seq<Op>, scope: Scope, key: string, t: int, end: int)
    requires ValidConfig(cfg) && SweepsSafeIn(ops, cfg) && Monotone(ops, t, end) && !scope.Unknown?
    ensures
      var lim := LimitsFor(cfg, scope);
      StaysWithin(cfg, ops, scope, key, t, end, lim.capacity, lim.ratePerSecond)
  {
    if NoReset(ops, scope, key) { RateBoundWithSweeps(map[], cfg, ops, scope, key, t, end); }
  }

  /** Over any interval a scope admits for one key at most its own burst plus its own rate times the time elapsed. */
  lemma EachScopeKeepsItsBound(cfg: Config, ops: seq<Op>, key: string, t: int, end: int)
    requires ValidConfig(cfg) && SweepsSafeIn(ops, cfg) && Monotone(ops, t, end)
    ensures StaysWithin(cfg, ops, Socket, key, t, end, cfg.burstSocket, cfg.socketPerSecond)
    ensures StaysWithin(cfg, ops, User, key, t, end, cfg.burstUser, cfg.userPerSecond)
    ensures StaysWithin(cfg, ops, Ip, key, t, end, cfg.burstIp, cfg.ipPerSecond)
  {
    StaysWithinLimits(cfg, ops, Socket, key, t, end);
    StaysWithinLimits(cfg, ops, User, key, t, end);
    StaysWithinLimits(cfg, ops, Ip, key, t, end);
  }

  /** By default a scope allows 30, 100 or 200 at once, and as many again every second. */
  lemma DefaultLimits(be: Backend, key: string, first: real, second: real, t: int, w: nat)
    requires Valid(be, DEFAULT_CONFIG) && key != "" && first > 0.0 && second > 0.0
    ensures Find(be, Socket, key).None? ==>
              ChargesLike(be, DEFAULT_CONFIG, Socket, key, first, second, t, w, 30.0, 30.0)
    ensures Find(be, User, key).None? ==>
              ChargesLike(be, DEFAULT_CONFIG, User, key, first, second, t, w, 100.0, 100.0)
    ensures Find(be, Ip, key).None? ==>
              ChargesLike(be, DEFAULT_CONFIG, Ip, key, first, second, t, w, 200.0, 200.0)
  {
    EachScopeHasItsOwnLimits(be, DEFAULT_CONFIG, key, first, second, t, w);
  }

  /**
   Every answer: the three complaints in order, and then a decision; who is admitted need not wait,
   and who is refused has nothing left and waits at least a millisecond.
   */
  lemma AnswersAreExact(be: Backend, cfg: Config, scope: Scope, key: string, cost: Cost, born: int, now: int)
    requires ValidConfig(cfg) && Valid(be, cfg)
    ensures
      var (be', r) := Acquire(be, cfg, scope, key, cost, born, now);
      && (r == Err(UnknownScope) <==> scope.Unknown?)
      && (r == Err(EmptyKey) <==> !scope.Unknown? && key == "")
      && (r == Err(BadCost) <==> !scope.Unknown? && key != "" && (cost.Finite? ==> cost.amount <= 0.0))
      && (r.Err? ==> be' == be)
      && (r.Ok? && r.value.allowed ==> r.value.retryAfter == Ms(0))
      && (r.Ok? && !r.value.allowed ==>
            r.value.remaining == 0 && (r.value.retryAfter.Ms? ==> r.value.retryAfter.n >= 1))
  {
    if Rejection(scope, key, cost).None? {
      AcquireByLevel(be, cfg, scope, key, cost, born, now);
      var lim, level := LimitsFor(cfg, scope), Level(be, cfg, scope, key, now);
      if level < cost.amount && lim.ratePerSecond > 0.0 {
        var x := (cost.amount - level) / lim.ratePerSecond * 1000.0;
        assert x > 0.0;
        CeilIsLeastUpperInt(x, 0);
      }
    }
  }

  // ---------------------------------------------------------------------------------------
  // The remaining count
  // ---------------------------------------------------------------------------------------

  /** `k` attempts of cost one, all at time `now`. */
  function UnitAttempts(scope: Scope, key: string, now: int, k: nat): seq<Op> {
    if k == 0 then [] else [AcquireOp(scope, key, Finite(1.0), now, now)] + UnitAttempts(scope, key, now, k - 1)
  }

  /** What is left of a level after `k` attempts of cost one. */
  function Spent(level: real, k: nat): real { level - (if k <= level.Floor then k else level.Floor) as real }

  lemma SpentStep(level: real, k: nat)
    requires 0.0 <= level && k > 0
    ensures Spent(if level >= 1.0 then level - 1.0 else level, k - 1) == Spent(level, k)
  {
    if level >= 1.0 { assert (level - 1.0).Floor == level.Floor - 1; } else { assert level.Floor == 0; }
  }

  lemma LevelAfterUnit(be: Backend, cfg: Config, scope: Scope, key: string, now: int)
    requires ValidConfig(cfg) && Valid(be, cfg) && NotLaterThan(be, now) && !scope.Unknown? && key != ""
    ensures
      var after := Apply(be, cfg, AcquireOp(scope, key, Finite(1.0), now, now)).0;
      var level := Level(be, cfg, scope, key, now);
      && ValidBy(after, cfg, now)
      && Level(after, cfg, scope, key, now) == if level >= 1.0 then level - 1.0 else level
  {
    var op := AcquireOp(scope, key, Finite(1.0), now, now);
    ApplyKeepsValid(be, cfg, op);
    ApplyKeepsTime(be, cfg, op, now);
    LevelAfter(be, cfg, op, now, scope, key);
  }

  lemma {:induction false} LevelAfterUnits(be: Backend, cfg: Config, scope: Scope, key: string, now: int, k: nat)
    requires ValidConfig(cfg) && Valid(be, cfg) && NotLaterThan(be, now) && !scope.Unknown? && key != ""
    ensures
      var after := Final(be, cfg, UnitAttempts(scope, key, now, k));
      var level := Level(be, cfg, scope, key, now);
      && ValidBy(after, cfg, now)
      && Level(after, cfg, scope, key, now) == Spent(level, k)
    decreases k
  {
    LevelInRange(be, cfg, scope, key, now);
    if k == 0 {
    } else {
      var op := AcquireOp(scope, key, Finite(1.0), now, now);
      var ops := UnitAttempts(scope, key, now, k);
      assert ops[0] == op && ops[1..] == UnitAttempts(scope, key, now, k - 1);
      LevelAfterUnit(be, cfg, scope, key, now);
      LevelAfterUnits(Apply(be, cfg, op).0, cfg, scope, key, now, k - 1);
      SpentStep(Level(be, cfg, scope, key, now), k);
    }
  }

  /**
   What `remaining` means: after an admitted attempt, exactly that many further attempts of cost one
   succeed at the same instant, for the next one fails.
   */
  lemma RemainingIsExact(be: Backend, cfg: Config, scope: Scope, key: string, cost: Cost, born: int, now: int, k: nat)
    requires ValidConfig(cfg) && Valid(be, cfg) && NotLaterThan(be, now) && Rejection(scope, key, cost).None?
    requires var r := Acquire(be, cfg, scope, key, cost, born, now).1; r.Ok? && r.value.allowed
    ensures
      var (be', r) := Acquire(be, cfg, scope, key, cost, born, now);
      var next := Acquire(Final(be', cfg, UnitAttempts(scope, key, now, k)), cfg, scope, key, Finite(1.0), now, now).1;
      next.Ok? && (next.value.allowed <==> k < r.value.remaining)
  {
    var op := AcquireOp(scope, key, cost, born, now);
    var be' := Acquire(be, cfg, scope, key, cost, born, now).0;
    AcquireByLevel(be, cfg, scope, key, cost, born, now);
    LevelAfter(be, cfg, op, now, scope, key);
    ApplyKeepsTime(be, cfg, op, now);
    LevelAfterUnits(be', cfg, scope, key, now, k);
    AcquireByLevel(Final(be', cfg, UnitAttempts(scope, key, now, k)), cfg, scope, key, Finite(1.0), now, now);
  }

  // ---------------------------------------------------------------------------------------
  // The retry hint
  // ---------------------------------------------------------------------------------------

  /** Nothing in the run takes tokens from (scope, key) or resets it. */
  predicate Untouched(be: Backend, cfg: Config, ops: seq<Op>, scope: Scope, key: string)
    decreases |ops|
  {
    ops == [] ||
    (var (be', o) := Apply(be, cfg, ops[0]);
     && !(Targets(ops[0], scope, key) && Admits(o))
     && (ops[0].ResetOp? ==> !Covers(ops[0].which, ops[0].one, scope, key))
     && Untouched(be', cfg, ops[1..], scope, key))
  }

  lemma {:induction false} LevelWhileUntouched(
    be: Backend, cfg: Config, ops: seq<Op>, scope: Scope, key: string, t: int, end: int)
    requires ValidConfig(cfg) && Valid(be, cfg) && NotLaterThan(be, t) && !scope.Unknown?
    requires SweepsSafeIn(ops, cfg) && Monotone(ops, t, end) && Untouched(be, cfg, ops, scope, key)
    ensures ValidBy(Final(be, cfg, ops), cfg, end) && t <= end
    ensures Level(Final(be, cfg, ops), cfg, scope, key, end)
            == MinReal(LimitsFor(cfg, scope).capacity,
                       Level(be, cfg, scope, key, t) + Gain(LimitsFor(cfg, scope), end - t))
    decreases |ops|
  {
    var lim := LimitsFor(cfg, scope);
    if ops == [] {
      LevelAdvances(be, cfg, scope, key, t, end);
    } else {
      var op := ops[0];
      var be', now := Apply(be, cfg, op).0, After(op, t);
      ApplyKeepsValid(be, cfg, op);
      ApplyKeepsTime(be, cfg, op, t);
      LevelAdvances(be, cfg, scope, key, t, now);
      LevelAfter(be, cfg, op, t, scope, key);
      if Targets(op, scope, key) {
        AcquireByLevel(be, cfg, scope, key, op.cost, op.born, op.now);
      }
      LevelWhileUntouched(be', cfg, ops[1..], scope, key, now, end);
      GainAdds(lim, now - t, end - now);
      GainNonNegative(lim, end - now);
    }
  }

  lemma WaitCoversDeficit(lim: Limits, level: real, cost: real, w: nat)
    requires 0.0 <= lim.ratePerSecond && 0.0 <= level < cost <= lim.capacity
    ensures MinReal(lim.capacity, level + Gain(lim, w)) >= cost
            <==> match Decide(lim, level, cost).retryAfter case Ms(n) => w >= n case Never => false
  {
    var rate, deficit := lim.ratePerSecond, cost - level;
    if rate > 0.0 {
      var x := deficit / rate * 1000.0;
      CeilIsLeastUpperInt(x, w);
      assert x * rate == deficit * 1000.0;
      assert Gain(lim, w) * 1000.0 == w as real * rate;
      if w as real >= x {
        assert w as real * rate >= x * rate;
      } else {
        assert w as real * rate < x * rate;
      }
    } else {
      assert Gain(lim, w) == 0.0;
    }
  }

  lemma RefusalKeepsLevel(be: Backend, cfg: Config, scope: Scope, key: string, cost: Cost, born: int, t: int)
    requires ValidConfig(cfg) && Valid(be, cfg) && NotLaterThan(be, t) && Rejection(scope, key, cost).None?
    requires var r := Acquire(be, cfg, scope, key, cost, born, t).1; r.Ok? && !r.value.allowed
    ensures
      var (denied, r) := Acquire(be, cfg, scope, key, cost, born, t);
      var level := Level(be, cfg, scope, key, t);
      && ValidBy(denied, cfg, t) && Level(denied, cfg, scope, key, t) == level
      && 0.0 <= level < cost.amount && r.value == Decide(LimitsFor(cfg, scope), level, cost.amount)
  {
    AcquireByLevel(be, cfg, scope, key, cost, born, t);
    LevelInRange(be, cfg, scope, key, t);
    LevelAfter(be, cfg, AcquireOp(scope, key, cost, born, t), t, scope, key);
    ApplyKeepsTime(be, cfg, AcquireOp(scope, key, cost, born, t), t);
  }

  /**
   The retry hint is exact. After a refusal at time `t` of a cost that the bucket can hold,
   whatever else happens to the service in between, repeating the attempt `w` milliseconds later
   succeeds if and only if `w` is at least the hint.
   */
  lemma RetryHintIsExact(
    be: Backend, cfg: Config, scope: Scope, key: string, cost: Cost, born: int, t: int,
    between: seq<Op>, w: nat, born': int)
    requires ValidConfig(cfg) && SweepsSafeIn(between, cfg) && Valid(be, cfg) && NotLaterThan(be, t)
    requires Rejection(scope, key, cost).None? && cost.amount <= LimitsFor(cfg, scope).capacity
    requires
      var (denied, r) := Acquire(be, cfg, scope, key, cost, born, t);
      && r.Ok? && !r.value.allowed
      && Monotone(between, t, t + w) && Untouched(denied, cfg, between, scope, key)
    ensures
      var (denied, r) := Acquire(be, cfg, scope, key, cost, born, t);
      var again := Acquire(Final(denied, cfg, between), cfg, scope, key, cost, born', t + w).1;
      again.Ok? && (again.value.allowed
                    <==> match r.value.retryAfter case Ms(n) => w >= n case Never => false)
  {
    var denied := Acquire(be, cfg, scope, key, cost, born, t).0;
    RefusalKeepsLevel(be, cfg, scope, key, cost, born, t);
    LevelWhileUntouched(denied, cfg, between, scope, key, t, t + w);
    AcquireByLevel(Final(denied, cfg, between), cfg, scope, key, cost, born', t + w);
    WaitCoversDeficit(LimitsFor(cfg, scope), Level(be, cfg, scope, key, t), cost.amount, w);
  }

  /** A cost above the capacity is refused in every state and at every time. */
  lemma TooCostlyIsNeverAdmitted(be: Backend, cfg: Config, scope: Scope, key: string, cost: Cost, born: int, now: int)
    requires ValidConfig(cfg) && Valid(be, cfg) && Rejection(scope, key, cost).None?
    requires cost.amount > LimitsFor(cfg, scope).capacity
    ensures
      var r := Acquire(be, cfg, scope, key, cost, born, now).1;
      r.Ok? && !r.value.allowed
  {
    AcquireByLevel(be, cfg, scope, key, cost, born, now);
    LevelInRange(be, cfg, scope, key, now);
  }

  /** After a refusal the service goes on for `w` ms without admitting anything for this key or resetting it. */
  ghost predicate Waits(
    be: Backend, cfg: Config, scope: Scope, key: string, cost: Cost, born: int, t: int, between: seq<Op>, w: nat)
  {
    && SweepsSafeIn(between, cfg) && Monotone(between, t, t + w)
    && Untouched(Acquire(be, cfg, scope, key, cost, born, t).0, cfg, between, scope, key)
  }

  /** The hint says rightly whether the repeated attempt succeeds. */
  predicate HintIsRight(
    be: Backend, cfg: Config, scope: Scope, key: string, cost: Cost, born: int, t: int,
    between: seq<Op>, w: nat, born': int)
  {
    var (denied, r) := Acquire(be, cfg, scope, key, cost, born, t);
    var again := Acquire(Final(denied, cfg, between), cfg, scope, key, cost, born', t + w).1;
    r.Ok? && again.Ok? && (again.value.allowed <==> match r.value.retryAfter case Ms(n) => w >= n case Never => false)
  }

  ghost predicate HintIsExact(be: Backend, cfg: Config, scope: Scope, key: string, cost: Cost, born: int, t: int) {
    forall between: seq<Op>, w: nat, born': int ::
      Waits(be, cfg, scope, key, cost, born, t, between, w)
      ==> HintIsRight(be, cfg, scope, key, cost, born, t, between, w, born')
  }

  lemma CostlyHintIsWrong(be: Backend, cfg: Config, scope: Scope, key: string, cost: Cost, born: int, t: int)
    requires ValidConfig(cfg) && Valid(be, cfg) && NotLaterThan(be, t) && Rejection(scope, key, cost).None?
    requires cost.amount > LimitsFor(cfg, scope).capacity && LimitsFor(cfg, scope).ratePerSecond > 0.0
    ensures !HintIsExact(be, cfg, scope, key, cost, born, t)
  {
    var (denied, r) := Acquire(be, cfg, scope, key, cost, born, t);
    TooCostlyIsNeverAdmitted(be, cfg, scope, key, cost, born, t);
    AcquireByLevel(be, cfg, scope, key, cost, born, t);
    var w := MaxInt(0, r.value.retryAfter.n);
    TooCostlyIsNeverAdmitted(denied, cfg, scope, key, cost, born, t + w);
    assert Waits(be, cfg, scope, key, cost, born, t, [], w);
    assert !HintIsRight(be, cfg, scope, key, cost, born, t, [], w, born);
  }

  lemma RetryIsRight(
    be: Backend, cfg: Config, scope: Scope, key: string, cost: Cost, born: int, t: int,
    between: seq<Op>, w: nat, born': int)
    requires ValidConfig(cfg) && Valid(be, cfg) && NotLaterThan(be, t) && Rejection(scope, key, cost).None?
    requires var r := Acquire(be, cfg, scope, key, cost, born, t).1; r.Ok? && !r.value.allowed
    requires Waits(be, cfg, scope, key, cost, born, t, between, w)
    requires cost.amount <= LimitsFor(cfg, scope).capacity || LimitsFor(cfg, scope).ratePerSecond == 0.0
    ensures HintIsRight(be, cfg, scope, key, cost, born, t, between, w, born')
  {
    if cost.amount <= LimitsFor(cfg, scope).capacity {
      RetryHintIsExact(be, cfg, scope, key, cost, born, t, between, w, born');
    } else {
      var denied := Acquire(be, cfg, scope, key, cost, born, t).0;
      AcquireByLevel(be, cfg, scope, key, cost, born, t);
      TokensStayInRange(denied, cfg, between);
      TooCostlyIsNeverAdmitted(Final(denied, cfg, between), cfg, scope, key, cost, born', t + w);
    }
  }

  /**
   After a refusal the hint is exact if and only if the bucket can hold the cost, or never refills:
   a larger cost is answered with a finite wait, after which it is refused again.
   */
  lemma RetryHintIsExactIff(be: Backend, cfg: Config, scope: Scope, key: string, cost: Cost, born: int, t: int)
    requires ValidConfig(cfg) && Valid(be, cfg) && NotLaterThan(be, t) && Rejection(scope, key, cost).None?
    requires var r := Acquire(be, cfg, scope, key, cost, born, t).1; r.Ok? && !r.value.allowed
    ensures HintIsExact(be, cfg, scope, key, cost, born, t)
       <==> cost.amount <= LimitsFor(cfg, scope).capacity || LimitsFor(cfg, scope).ratePerSecond == 0.0
  {
    if cost.amount <= LimitsFor(cfg, scope).capacity || LimitsFor(cfg, scope).ratePerSecond == 0.0 {
      forall between: seq<Op>, w: nat, born': int | Waits(be, cfg, scope, key, cost, born, t, between, w)
        ensures HintIsRight(be, cfg, scope, key, cost, born, t, between, w, born')
      {
        RetryIsRight(be, cfg, scope, key, cost, born, t, between, w, born');
      }
    } else {
      CostlyHintIsWrong(be, cfg, scope, key, cost, born, t);
    }
  }
}
