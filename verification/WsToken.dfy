/**
 Single-use WebSocket tokens (src/auth/ws/ws-token.service.ts).

 A token is a signed JWT. Signing and verification are abstract: a presented string either fails
 verification or carries the claims that were signed, and verification rejects from `exp` on
 (section 4.1.4 of RFC 7519). Clock readings are whole seconds. Issuing reads the clock twice: for
 the table, and again when the token is signed.
 */
module WsToken {
  import opened Common

  datatype Claims = Claims(sub: string, ws: bool, jti: Option<string>, exp: int)

  datatype Token = Unverifiable | Signed(claims: Claims)

  datatype Issued = Issued(token: Token, expiresAt: int)

  datatype Error = InvalidToken | NotAWsToken | MissingJti | UnknownOrUsed

  type Table = map<string, int>

  function IssueStep(used: Table, userId: string, ttlSeconds: int, jti: string, now: int, signedAt: int)
    : (Table, Issued)
  {
    var exp := now + ttlSeconds;
    (used[jti := exp], Issued(Signed(Claims(userId, true, Some(jti), signedAt + ttlSeconds)), exp * 1000))
  }

  function ConsumeStep(used: Table, token: Token, now: int): (Table, Result<string, Error>) {
    if token.Unverifiable? || token.claims.exp <= now then (used, Err(InvalidToken))
    else if !token.claims.ws then (used, Err(NotAWsToken))
    else if token.claims.jti.None? || token.claims.jti.value == "" then (used, Err(MissingJti))
    else if token.claims.jti.value !in used then (used, Err(UnknownOrUsed))
    else (used - {token.claims.jti.value}, Ok(token.claims.sub))
  }

  function SweepStep(used: Table, now: int): Table { map jti | jti in used && used[jti] > now :: used[jti] }

  class WsTokenService {
    var used: Table

    constructor ()
      ensures used == map[]
    {
      used := map[];
    }

    method Issue(userId: string, ttlSeconds: int, jti: string, now: int, signedAt: int) returns (r: Issued)
      modifies this
      ensures (used, r) == IssueStep(old(used), userId, ttlSeconds, jti, now, signedAt)
    {
      var exp := now + ttlSeconds;
      var token := Signed(Claims(userId, true, Some(jti), signedAt + ttlSeconds));
      used := used[jti := exp];
      return Issued(token, exp * 1000);
    }

    method Consume(token: Token, now: int) returns (r: Result<string, Error>)
      modifies this
      ensures (used, r) == ConsumeStep(old(used), token, now)
    {
      if token.Unverifiable? || token.claims.exp <= now { return Err(InvalidToken); }
      var payload := token.claims;
      if !payload.ws { return Err(NotAWsToken); }
      if payload.jti.None? || payload.jti.value == "" { return Err(MissingJti); }
      if payload.jti.value !in used { return Err(UnknownOrUsed); }
      used := used - {payload.jti.value};
      return Ok(payload.sub);
    }

    method Sweep(now: int)
      modifies this
      ensures used == SweepStep(old(used), now)
    {
      ghost var was := used;
      var jtis := used.Keys;
      while jtis != {}
        invariant jtis <= used.Keys <= was.Keys
        invariant forall j :: j in was ==> (j in used <==> j in jtis || was[j] > now)
        invariant forall j :: j in used ==> used[j] == was[j]
        decreases |jtis|
      {
        var jti :| jti in jtis;
        if used[jti] <= now {
          used := used - {jti};
        }
        jtis := jtis - {jti};
      }
    }
  }

  // ---------------------------------------------------------------------------------------
  // Runs
  // ---------------------------------------------------------------------------------------

  datatype Op =
    | Issue(userId: string, ttlSeconds: int, jti: string, now: int, signedAt: int)
    | Consume(token: Token, now: int)
    | Sweep(now: int)

  /** The service's table together with everything that has been asked of it. */
  datatype World = World(used: Table, history: seq<Op>)

  const START := World(map[], [])

  function Next(w: World, op: Op): World {
    World(
      match op
      case Issue(u, ttl, jti, now, signedAt) => IssueStep(w.used, u, ttl, jti, now, signedAt).0
      case Consume(token, now) => ConsumeStep(w.used, token, now).0
      case Sweep(now) => SweepStep(w.used, now),
      w.history + [op])
  }

  function Run(w: World, ops: seq<Op>): World
    decreases |ops|
  {
    if ops == [] then w else Run(Next(w, ops[0]), ops[1..])
  }

  /** The claims that an issue signs. */
  function ClaimsOf(op: Op): Claims
    requires op.Issue?
  {
    Claims(op.userId, true, Some(op.jti), op.signedAt + op.ttlSeconds)
  }

  /** Operation `i` issued a token with these claims. */
  predicate IssuedAt(h: seq<Op>, i: int, c: Claims) { 0 <= i < |h| && h[i].Issue? && c == ClaimsOf(h[i]) }

  /** A token with these claims was presented after operation `i`. */
  predicate PresentedAfter(h: seq<Op>, i: int, c: Claims) {
    exists j :: 0 <= i < j < |h| && h[j].Consume? && h[j].token == Signed(c)
  }

  /** A sweep that came when the entry of the table, but perhaps not yet the token, had expired. */
  predicate Discards(sweep: Op, issue: Op) {
    sweep.Sweep? && issue.Issue? && issue.now + issue.ttlSeconds <= sweep.now
  }

  /** Such a sweep came after operation `i`. */
  predicate SweptAfter(h: seq<Op>, i: int) {
    exists j :: 0 <= i < j < |h| && Discards(h[j], h[i])
  }

  /**
   What the environment guarantees of an operation: random identifiers are fresh and not empty,
   a verifiable WebSocket token whose identifier was issued here carries the issued claims, and the
   clock does not go back between its two readings.
   */
  predicate Honest(h: seq<Op>, op: Op) {
    match op
    case Issue(_, _, jti, now, signedAt) =>
      now <= signedAt && jti != "" && forall i :: 0 <= i < |h| && h[i].Issue? ==> h[i].jti != jti
    case Consume(token, _) =>
      token.Signed? && token.claims.ws ==>
        forall i :: 0 <= i < |h| && h[i].Issue? && token.claims.jti == Some(h[i].jti) ==> IssuedAt(h, i, token.claims)
    case Sweep(_) => true
  }

  /** The last clock reading of an operation. */
  function EndOf(op: Op): int { if op.Issue? then op.signedAt else op.now }

  /** Every operation is honest and the clock never goes back between `start` and `end`. */
  predicate Legal(h: seq<Op>, ops: seq<Op>, start: int, end: int)
    decreases |ops|
  {
    if ops == [] then start <= end
    else start <= ops[0].now && Honest(h, ops[0]) && Legal(h + [ops[0]], ops[1..], EndOf(ops[0]), end)
  }

  // ---- what the table says about the history ----

  predicate Enters(op: Op, jti: string, exp: int) { op.Issue? && op.jti == jti && op.now + op.ttlSeconds == exp }

  /** Every entry of the table was made by an issue. */
  ghost predicate Sound(w: World) {
    forall jti :: jti in w.used ==> exists i :: 0 <= i < |w.history| && Enters(w.history[i], jti, w.used[jti])
  }

  /** Of the tokens that have not expired, the table has those neither presented nor swept away. */
  ghost predicate Complete(w: World, t: int) {
    forall i, c :: IssuedAt(w.history, i, c) && c.exp > t ==>
      (c.jti.value in w.used <==> !PresentedAfter(w.history, i, c) && !SweptAfter(w.history, i))
  }

  ghost predicate DistinctIds(h: seq<Op>) {
    && (forall i :: 0 <= i < |h| && h[i].Issue? ==> h[i].jti != "")
    && (forall i, j :: 0 <= i < |h| && 0 <= j < |h| && h[i].Issue? && h[j].Issue? && h[i].jti == h[j].jti ==> i == j)
  }

  /** All clock readings were made by time `t`. */
  predicate Past(h: seq<Op>, t: int) {
    forall i :: 0 <= i < |h| ==> h[i].now <= EndOf(h[i]) <= t
  }

  ghost predicate Inv(w: World, t: int) {
    var ok := Sound(w) && Complete(w, t) && DistinctIds(w.history) && Past(w.history, t);
    ok
  }

  lemma PresentedGrows(h: seq<Op>, op: Op, i: int, c: Claims)
    ensures PresentedAfter(h + [op], i, c)
       <==> PresentedAfter(h, i, c) || (0 <= i < |h| && op.Consume? && op.token == Signed(c))
  {
    var h' := h + [op];
    if PresentedAfter(h, i, c) {
      var j :| 0 <= i < j < |h| && h[j].Consume? && h[j].token == Signed(c);
      assert h'[j] == h[j];
    }
    if 0 <= i < |h| && op.Consume? { assert h'[|h|] == op; }
  }

  lemma SweptGrows(h: seq<Op>, op: Op, i: int)
    ensures SweptAfter(h + [op], i) <==> SweptAfter(h, i) || (0 <= i < |h| && Discards(op, h[i]))
  {
    var h' := h + [op];
    if SweptAfter(h, i) {
      var j :| 0 <= i < j < |h| && Discards(h[j], h[i]);
      assert h'[j] == h[j] && h'[i] == h[i];
    }
    if 0 <= i < |h| && Discards(op, h[i]) { assert h'[|h|] == op && h'[i] == h[i]; }
    if SweptAfter(h', i) {
      var j :| 0 <= i < j < |h'| && Discards(h'[j], h'[i]);
      assert j < |h| ==> h'[j] == h[j];
    }
  }

  lemma NextKeepsSound(w: World, op: Op)
    requires Sound(w)
    ensures Sound(Next(w, op))
  {
    var h, w' := w.history, Next(w, op);
    forall jti | jti in w'.used
      ensures exists i :: 0 <= i < |w'.history| && Enters(w'.history[i], jti, w'.used[jti])
    {
      if op.Issue? && op.jti == jti {
        assert Enters(w'.history[|h|], jti, w'.used[jti]);
      } else {
        var i :| 0 <= i < |h| && Enters(h[i], jti, w.used[jti]);
        assert Enters(w'.history[i], jti, w'.used[jti]);
      }
    }
  }

  lemma NextKeepsDistinctIds(h: seq<Op>, op: Op)
    requires DistinctIds(h) && Honest(h, op)
    ensures DistinctIds(h + [op])
  {
  }

  /** How an operation changes what the table says about a token issued before. */
  lemma EntryAfter(w: World, op: Op, t: int, i: int, c: Claims)
    requires Inv(w, t) && Honest(w.history, op) && IssuedAt(w.history, i, c) && c.exp > op.now
    ensures c.jti.value in Next(w, op).used
       <==> && c.jti.value in w.used && !(op.Consume? && op.token == Signed(c))
            && !(op.Sweep? && Discards(op, w.history[i]))
  {
    if op.Sweep? && c.jti.value in w.used {
      var k :| 0 <= k < |w.history| && Enters(w.history[k], c.jti.value, w.used[c.jti.value]);
      assert k == i;
    }
  }

  lemma NextKeepsComplete(w: World, op: Op, t: int)
    requires Inv(w, t) && Honest(w.history, op) && t <= op.now
    ensures Complete(Next(w, op), EndOf(op))
  {
    var h, w' := w.history, Next(w, op);
    forall i, c | IssuedAt(w'.history, i, c) && c.exp > EndOf(op)
      ensures c.jti.value in w'.used <==> !PresentedAfter(w'.history, i, c) && !SweptAfter(w'.history, i)
    {
      PresentedGrows(h, op, i, c);
      SweptGrows(h, op, i);
      if i < |h| {
        assert IssuedAt(h, i, c);
        EntryAfter(w, op, t, i, c);
      }
    }
  }

  lemma NextKeepsInv(w: World, op: Op, t: int)
    requires Inv(w, t) && Honest(w.history, op) && t <= op.now
    ensures Inv(Next(w, op), EndOf(op))
  {
    NextKeepsSound(w, op);
    NextKeepsComplete(w, op, t);
    NextKeepsDistinctIds(w.history, op);
  }

  lemma InvLater(w: World, t: int, later: int)
    requires Inv(w, t) && t <= later
    ensures Inv(w, later)
  {
  }

  lemma {:induction false} RunKeepsInv(w: World, ops: seq<Op>, start: int, end: int)
    requires Inv(w, start) && Legal(w.history, ops, start, end)
    ensures Inv(Run(w, ops), end)
    decreases |ops|
  {
    if ops == [] {
      InvLater(w, start, end);
    } else {
      NextKeepsInv(w, ops[0], start);
      RunKeepsInv(Next(w, ops[0]), ops[1..], EndOf(ops[0]), end);
    }
  }

  // ---------------------------------------------------------------------------------------
  // Which tokens are accepted
  // ---------------------------------------------------------------------------------------

  /** Issued, not yet expired, never presented since, and no sweep came after its entry had expired. */
  ghost predicate Redeemable(h: seq<Op>, c: Claims, now: int) {
    c.exp > now && exists i :: IssuedAt(h, i, c) && !PresentedAfter(h, i, c) && !SweptAfter(h, i)
  }

  lemma AcceptanceIsRedeemability(w: World, token: Token, now: int)
    requires Inv(w, now) && Honest(w.history, Consume(token, now))
    ensures
      var r := ConsumeStep(w.used, token, now).1;
      && (r.Ok? <==> token.Signed? && Redeemable(w.history, token.claims, now))
      && (r.Ok? ==> r.value == token.claims.sub)
  {
    if ConsumeStep(w.used, token, now).1.Ok? {
      var jti := token.claims.jti.value;
      var i :| 0 <= i < |w.history| && Enters(w.history[i], jti, w.used[jti]);
      assert IssuedAt(w.history, i, token.claims);
    }
  }

  /** What `consume` has to answer, from the history alone. */
  ghost function Expected(h: seq<Op>, token: Token, now: int): Result<string, Error> {
    if token.Unverifiable? || now >= token.claims.exp then Err(InvalidToken)
    else if !token.claims.ws then Err(NotAWsToken)
    else if token.claims.jti == None || token.claims.jti == Some("") then Err(MissingJti)
    else if Redeemable(h, token.claims, now) then Ok(token.claims.sub)
    else Err(UnknownOrUsed)
  }

  /**
   In every run `consume` accepts a token exactly when it was issued, has not expired, has not been
   presented before, and was not swept away in the time by which the token outlives its entry in the
   table; it then answers the user it was issued to, and otherwise the first refusal that applies.
   */
  lemma ConsumeIsExact(ops: seq<Op>, token: Token, start: int, now: int)
    requires Legal([], ops, start, now) && Honest(Run(START, ops).history, Consume(token, now))
    ensures
      var w := Run(START, ops);
      var r := ConsumeStep(w.used, token, now).1;
      && (r.Ok? <==> token.Signed? && Redeemable(w.history, token.claims, now))
      && r == Expected(w.history, token, now)
  {
    RunKeepsInv(START, ops, start, now);
    AcceptanceIsRedeemability(Run(START, ops), token, now);
  }

  /** After a sweep the table holds exactly the identifiers that could still be redeemed. */
  lemma SweepLeavesTheRedeemable(ops: seq<Op>, start: int, now: int)
    requires Legal([], ops, start, now)
    ensures
      var w := Next(Run(START, ops), Sweep(now));
      forall jti :: jti in w.used <==> exists c: Claims :: c.jti == Some(jti) && Redeemable(w.history, c, now)
  {
    RunKeepsInv(START, ops, start, now);
    NextKeepsInv(Run(START, ops), Sweep(now), now);
    var w := Next(Run(START, ops), Sweep(now));
    forall jti | jti in w.used ensures exists c: Claims :: c.jti == Some(jti) && Redeemable(w.history, c, now) {
      var i :| 0 <= i < |w.history| && Enters(w.history[i], jti, w.used[jti]);
      assert IssuedAt(w.history, i, ClaimsOf(w.history[i]));
      assert Redeemable(w.history, ClaimsOf(w.history[i]), now);
    }
  }

  // ---------------------------------------------------------------------------------------
  // The token that was answered
  // ---------------------------------------------------------------------------------------

  /** What the service answers to an issue in this state. */
  function Answer(w: World, issue: Op): Issued
    requires issue.Issue?
  {
    IssueStep(w.used, issue.userId, issue.ttlSeconds, issue.jti, issue.now, issue.signedAt).1
  }

  lemma AnswerIsSigned(w: World, issue: Op)
    requires issue.Issue?
    ensures Answer(w, issue).token == Signed(ClaimsOf(issue))
  {
  }

  predicate NeverPresented(ops: seq<Op>, token: Token) {
    forall j :: 0 <= j < |ops| && ops[j].Consume? ==> ops[j].token != token
  }

  /** No sweep comes when the entry that the issue made has expired. */
  predicate NeverDiscarded(ops: seq<Op>, issue: Op) {
    forall j :: 0 <= j < |ops| ==> !Discards(ops[j], issue)
  }

  lemma {:induction false} RunExtendsHistory(w: World, ops: seq<Op>)
    ensures Run(w, ops).history == w.history + ops
    decreases |ops|
  {
    if ops == [] {
    } else {
      RunExtendsHistory(Next(w, ops[0]), ops[1..]);
      assert [ops[0]] + ops[1..] == ops;
    }
  }

  /** What comes after an issue, in the history of the whole run. */
  lemma SinceIssue(h: seq<Op>, issue: Op, more: seq<Op>, c: Claims)
    requires issue.Issue?
    ensures PresentedAfter(h + [issue] + more, |h|, c) <==> !NeverPresented(more, Signed(c))
    ensures SweptAfter(h + [issue] + more, |h|) <==> !NeverDiscarded(more, issue)
  {
    var all, n := h + [issue] + more, |h| + 1;
    assert all[|h|] == issue;
    forall j | 0 <= j < |more| ensures all[n + j] == more[j] {}
    PresentedLater(all, n, more, c);
    SweptLater(all, n, more);
  }

  predicate EndsWith(all: seq<Op>, n: nat, more: seq<Op>) {
    var ok := |all| == n + |more| && forall j :: 0 <= j < |more| ==> all[n + j] == more[j];
    ok
  }

  lemma PresentedLater(all: seq<Op>, n: nat, more: seq<Op>, c: Claims)
    requires 0 < n && EndsWith(all, n, more)
    ensures PresentedAfter(all, n - 1, c) <==> !NeverPresented(more, Signed(c))
  {
    if PresentedAfter(all, n - 1, c) {
      var j :| n - 1 < j < |all| && all[j].Consume? && all[j].token == Signed(c);
      assert all[n + (j - n)] == more[j - n];
    }
    if !NeverPresented(more, Signed(c)) {
      var j :| 0 <= j < |more| && more[j].Consume? && more[j].token == Signed(c);
      assert all[n + j] == more[j];
    }
  }

  lemma SweptLater(all: seq<Op>, n: nat, more: seq<Op>)
    requires 0 < n && EndsWith(all, n, more)
    ensures SweptAfter(all, n - 1) <==> !NeverDiscarded(more, all[n - 1])
  {
    if SweptAfter(all, n - 1) {
      var j :| n - 1 < j < |all| && Discards(all[j], all[n - 1]);
      assert all[n + (j - n)] == more[j - n];
    }
    if !NeverDiscarded(more, all[n - 1]) {
      var j :| 0 <= j < |more| && Discards(more[j], all[n - 1]);
      assert all[n + j] == more[j];
    }
  }

  /** The state after an issue and what follows it; the issued token is the only one with its identifier. */
  lemma AfterIssue(w: World, issue: Op, more: seq<Op>, now: int) returns (end: World)
    requires Inv(w, issue.now) && issue.Issue? && Honest(w.history, issue)
    requires Legal(w.history + [issue], more, issue.signedAt, now)
    ensures end == Run(Next(w, issue), more) && end.history == w.history + [issue] + more
    ensures Inv(end, now) && Honest(end.history, Consume(Answer(w, issue).token, now))
    ensures Redeemable(end.history, ClaimsOf(issue), now)
       <==> && now < issue.signedAt + issue.ttlSeconds
            && NeverPresented(more, Answer(w, issue).token) && NeverDiscarded(more, issue)
  {
    var w', c := Next(w, issue), ClaimsOf(issue);
    end := Run(w', more);
    NextKeepsInv(w, issue, issue.now);
    RunKeepsInv(w', more, issue.signedAt, now);
    RunExtendsHistory(w', more);
    AnswerIsSigned(w, issue);
    SinceIssue(w.history, issue, more, c);
    assert end.history[|w.history|] == issue && IssuedAt(end.history, |w.history|, c);
  }

  /**
   In every state of every run, the token that an issue answers, presented at any time later, is
   answered with the user given to that issue if and only if it has not expired, was not presented
   before and was not swept away. The answered `expiresAt` is the expiry recorded in the table, in
   milliseconds.
   */
  lemma AnsweredTokenIsExact(ops: seq<Op>, start: int, issue: Op, more: seq<Op>, now: int)
    requires Legal([], ops, start, issue.now) && issue.Issue? && Honest(Run(START, ops).history, issue)
    requires Legal(Run(START, ops).history + [issue], more, issue.signedAt, now)
    ensures
      var w := Run(START, ops);
      var used, answer := Next(w, issue).used, Answer(w, issue);
      && (ConsumeStep(Run(Next(w, issue), more).used, answer.token, now).1 == Ok(issue.userId)
          <==> && now < issue.signedAt + issue.ttlSeconds
               && NeverPresented(more, answer.token) && NeverDiscarded(more, issue))
      && issue.jti in used && used[issue.jti] == issue.now + issue.ttlSeconds
      && answer.expiresAt == 1000 * used[issue.jti]
  {
    var w := Run(START, ops);
    RunKeepsInv(START, ops, start, issue.now);
    AnswerIsSigned(w, issue);
    var end := AfterIssue(w, issue, more, now);
    AcceptanceIsRedeemability(end, Answer(w, issue).token, now);
  }

  // ---------------------------------------------------------------------------------------
  // Tokens that outlive their entry
  // ---------------------------------------------------------------------------------------

  /** Whatever follows the issue, the answered token is accepted as long as it is valid and unused. */
  ghost predicate AlwaysHonoured(w: World, issue: Op)
    requires issue.Issue?
  {
    forall more: seq<Op>, now: int :: HonouredAfter(w, issue, more, now)
  }

  ghost predicate HonouredAfter(w: World, issue: Op, more: seq<Op>, now: int)
    requires issue.Issue?
  {
    var token := Answer(w, issue).token;
    && Legal(w.history + [issue], more, issue.signedAt, now)
    && now < issue.signedAt + issue.ttlSeconds && NeverPresented(more, token)
    ==> ConsumeStep(Run(Next(w, issue), more).used, token, now).1 == Ok(issue.userId)
  }

  lemma SameSecondIsHonoured(w: World, issue: Op, more: seq<Op>, now: int)
    requires Inv(w, issue.now) && issue.Issue? && Honest(w.history, issue)
    requires issue.signedAt == issue.now || issue.ttlSeconds <= 0
    ensures HonouredAfter(w, issue, more, now)
  {
    var token := Answer(w, issue).token;
    if Legal(w.history + [issue], more, issue.signedAt, now) && now < issue.signedAt + issue.ttlSeconds
      && NeverPresented(more, token)
    {
      AnswerIsSigned(w, issue);
      var end := AfterIssue(w, issue, more, now);
      LegalTimes(w.history + [issue], more, issue.signedAt, now);
      AcceptanceIsRedeemability(end, token, now);
    }
  }

  /** All operations happen between the two times. */
  lemma {:induction false} LegalTimes(h: seq<Op>, ops: seq<Op>, start: int, end: int)
    requires Legal(h, ops, start, end)
    ensures start <= end && forall j :: 0 <= j < |ops| ==> start <= ops[j].now <= end
    decreases |ops|
  {
    if ops == [] {
    } else {
      LegalTimes(h + [ops[0]], ops[1..], EndOf(ops[0]), end);
      assert ops == [ops[0]] + ops[1..];
    }
  }

  /** A sweep in the time by which the token outlives its entry. */
  lemma StraddlingIsPunished(w: World, issue: Op)
    requires Inv(w, issue.now) && issue.Issue? && Honest(w.history, issue)
    requires issue.signedAt > issue.now && issue.ttlSeconds > 0
    ensures !AlwaysHonoured(w, issue)
  {
    var now := MaxInt(issue.signedAt, issue.now + issue.ttlSeconds);
    var more := [Sweep(now)];
    assert more[1..] == [] && Legal(w.history + [issue] + [Sweep(now)], [], now, now);
    assert Legal(w.history + [issue], more, issue.signedAt, now);
    AnswerIsSigned(w, issue);
    var end := AfterIssue(w, issue, more, now);
    assert Discards(more[0], issue);
    AcceptanceIsRedeemability(end, Answer(w, issue).token, now);
    assert !HonouredAfter(w, issue, more, now);
  }

  /**
   In every state of every run: the answered token is accepted as long as it is valid and unused,
   whatever follows, if and only if it was signed in the second in which its entry was made (or was
   never valid at all).
   */
  lemma AlwaysHonouredIff(ops: seq<Op>, start: int, issue: Op)
    requires Legal([], ops, start, issue.now) && issue.Issue? && Honest(Run(START, ops).history, issue)
    ensures AlwaysHonoured(Run(START, ops), issue) <==> issue.signedAt == issue.now || issue.ttlSeconds <= 0
  {
    var w := Run(START, ops);
    RunKeepsInv(START, ops, start, issue.now);
    if issue.signedAt == issue.now || issue.ttlSeconds <= 0 {
      forall more: seq<Op>, now: int ensures HonouredAfter(w, issue, more, now) {
        SameSecondIsHonoured(w, issue, more, now);
      }
    } else {
      StraddlingIsPunished(w, issue);
    }
  }

  // ---------------------------------------------------------------------------------------
  // At most once
  // ---------------------------------------------------------------------------------------

  /**
   At most once: after a token has been accepted, no continuation of the run accepts a token
   with the same identifier.
   */
  lemma AcceptedAtMostOnce(ops: seq<Op>, token: Token, now: int, more: seq<Op>, again: Token, later: int, start: int)
    requires Legal([], ops, start, now) && Honest(Run(START, ops).history, Consume(token, now))
    requires ConsumeStep(Run(START, ops).used, token, now).1.Ok?
    requires
      var w := Next(Run(START, ops), Consume(token, now));
      && Legal(w.history, more, now, later) && Honest(Run(w, more).history, Consume(again, later))
      && again.Signed? && again.claims.jti == token.claims.jti
    ensures ConsumeStep(Run(Next(Run(START, ops), Consume(token, now)), more).used, again, later).1.Err?
  {
    RunKeepsInv(START, ops, start, now);
    var w0 := Run(START, ops);
    AcceptanceIsRedeemability(w0, token, now);
    PresentedTokenStaysSpent(w0, token, now, more, again, later);
  }

  lemma PresentedTokenStaysSpent(w0: World, token: Token, now: int, more: seq<Op>, again: Token, later: int)
    requires Inv(w0, now) && Honest(w0.history, Consume(token, now))
    requires token.Signed? && Redeemable(w0.history, token.claims, now)
    requires
      var w := Next(w0, Consume(token, now));
      && Legal(w.history, more, now, later) && Honest(Run(w, more).history, Consume(again, later))
      && again.Signed? && again.claims.jti == token.claims.jti
    ensures ConsumeStep(Run(Next(w0, Consume(token, now)), more).used, again, later).1.Err?
  {
    var w, c := Next(w0, Consume(token, now)), token.claims;
    var i :| IssuedAt(w0.history, i, c);
    PresentedGrows(w0.history, Consume(token, now), i, c);
    NextKeepsInv(w0, Consume(token, now), now);
    RunKeepsInv(w, more, now, later);
    RunExtendsHistory(w, more);
    var end := Run(w, more);
    PresentedOnce(w.history, end.history, i, c);
    forall k | IssuedAt(end.history, k, again.claims) ensures PresentedAfter(end.history, k, again.claims) {
      assert end.history[i] == w.history[i] && k == i;
    }
    AcceptanceIsRedeemability(end, again, later);
  }

  lemma PresentedOnce(h: seq<Op>, h': seq<Op>, i: int, c: Claims)
    requires h <= h' && PresentedAfter(h, i, c)
    ensures PresentedAfter(h', i, c)
  {
    var j :| 0 <= i < j < |h| && h[j].Consume? && h[j].token == Signed(c);
    assert h'[j] == h[j];
  }
}
