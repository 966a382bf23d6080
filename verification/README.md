# Verification of the signaling server's in-memory state machines

A Dafny model of the parts of the server that hold state of their own, with proofs about every run:
the token-bucket limiter, the call lifecycle with its room-code index and event log, the signaling
rooms and what clients come to believe about them, payload redaction, in-memory presence, the
per-socket fixed-window guard, and single-use WebSocket tokens. `dafny verify dfyconfig.toml` checks
all of it.

Each component has three layers:

1. **Steps.** Every operation is a function from the state and the inputs to the new state and the
   answer (`Acquire`, `AcceptStep`, `Handled`, `Mark`, ...), with the branches, the error cases and
   the constants of the code. The clock, random identifiers, room-code draws, parsed payloads and
   answers of the calls event bus are inputs.
2. **Objects.** What the code does by updating maps and objects is a class whose methods do the same
   loops and updates; each method is proved to be the step, including what it answers.
3. **Laws.** Runs are sequences of operations. The main results hold for every run, or every
   reachable state, and follow from invariants that every step keeps. What an operation answers, and
   whom it tells, is stated again from the state before it, with the code's own constants and without
   the step (`CreateIsExact` to `ListingIsExact`, `AnswersAreExact`, `HeardIsExact`,
   `AnsweredTokenIsExact`, `EachScopeHasItsOwnLimits`, `RedactPayload`, `MarkLastsAsAsked`).

A predicate whose body is `var ok := ...; ok` is so written to be one fact to the verifier wherever
it is used, and not its parts.

| file | models |
|---|---|
| `TokenBucket.dfy` | `src/security/rate-limit.service.ts` |
| `Calls.dfy`, `RoomCodes.dfy`, `StableSort.dfy`, `CallRuns.dfy`, `CallAnswers.dfy` | `src/calls/calls.service.ts` |
| `Registry.dfy`, `RegistryOrder.dfy` | `src/signaling/room.registry.ts` |
| `Signaling.dfy` | `src/signaling/signaling.gateway.ts` over an explicit Socket.IO namespace |
| `SignalingRuns.dfy` | runs of the gateway, with `handlePeerJoin` also split at its two awaits |
| `SignalingViews.dfy`, `SignalingRooms.dfy`, `SignalingGrants.dfy`, `SignalingInvites.dfy`, `SignalingAnswers.dfy` | the laws of those runs |
| `SignalingExamples.dfy` | families of runs that break them |
| `Redaction.dfy` | `src/security/redaction.util.ts` |
| `Presence.dfy` | `src/presence/in-memory-presence.service.ts` |
| `FixedWindow.dfy` | `src/signaling/rate-limit.guard.ts` |
| `WsToken.dfy` | `src/auth/ws/ws-token.service.ts` |
| `Common.dfy` | small shared datatypes |

## Where the code does not do what one might expect

Each of these is a proved statement about the code as it is.

- **`peer:leave` tells one call and leaves all.** The registry drops the socket from every call
  (`signaling.gateway.ts:201`) but only one call is told (line 207) and only one Socket.IO room is
  left (line 200). Views of clients agree with the registry throughout a run *if and only if* no
  `peer:leave` is handled for a socket that is in another call with somebody (`ViewsConvergeIff`),
  and broadcasts reach exactly the members *if and only if* none is handled for a socket in another
  call (`BroadcastsReachMembersIff`). `DesertionDiverges` and `DesertionOverstays` are runs that fail,
  for any two sockets and any two calls.
- **Joins can be overtaken.** With other steps between the parts of a join, views settle on the
  registry if and only if, in addition, no announcement comes after the registry has lost the socket
  (`InterleavedViewsIff`, `LateAnnouncementDiverges`); and members are connected sockets if and only
  if no join goes on after its socket has disconnected (`MembersAreConnectedIff`, `GhostIsEnrolled`).
  A member that has disconnected counts as a member in `InterleavedViewsIff`, with a view made of
  what would have been sent to it. `StepUnsettlesIff` says for each member which steps unsettle its
  views, and `ConnectedViewsIff` gives the condition for connected members only, in runs with such
  ghosts too.
- **Invitations reach nobody, as a rule.** `call:invite` is sent to the room `user:<id>`, which no
  handler enters as such. It reaches nobody throughout a run if and only if no socket connects under,
  and no socket is enrolled in a call under, a name of that form (`InvitesReachNobodyIff`); a callId
  may be any non-empty string, and the members of a call so named do receive the invitations
  (`InvitationHearers`, `OutsiderHearsInvitation`).
- **The idle sweep is unobservable exactly when 300.001 × rate >= capacity** in every scope: the test
  is strict and the clock counts whole milliseconds (`SweepsUnobservableIff`). The same condition
  decides whether the rate bound survives sweeps (`SweepsKeepRateBoundIff`). The defaults meet it
  (`DefaultsAreSweepSafe`).
- **The retry hint is exact if and only if the cost fits the capacity or the rate is zero**: a larger
  cost gets a finite hint, after which it is refused again (`RetryHintIsExactIff`).
- **The fixed-window bound 2c-1 is attained if and only if the window has at least 2 ms, or has 1 ms
  and c is at most 1** (`BoundIsAttainedIff`); a 1 ms window on an integer clock admits at most c
  (`AtMostCapacityPerInstant`). A capacity of zero or less, which the constructor accepts, acts as a
  capacity of one, because the first event of a window is not counted against it
  (`LowCapacityActsAsOne`).
- **A presence TTL is kept if and only if it is between 1 and 2147483647 ms**; any other becomes 1 ms,
  as `setTimeout` does (`TtlIsKeptIff`). The constructor replaces a default of zero or less, but an
  explicit TTL, and a default that is too long, are passed on: `ExpiredEntryIsReported` and
  `LongTtlIsCutShort` are runs on either side. The other presence laws are stated with the delay that
  the timer really gets.
- **Redaction is idempotent if and only if `maxStringLength >= 10`**, the length of its own cycle
  marker (`IdempotentIff`). Under a smaller limit it is idempotent for exactly the payloads in which
  no object is its own ancestor on a path without redacted keys (`RedactingTwiceIff`).
- **A WebSocket token can outlive its entry in the table.** `issue` reads the clock for the table
  (`ws-token.service.ts:44`) and the token is signed with a later reading (line 46). A token that is
  valid at all is accepted as long as it is owed, whatever follows, if and only if both readings are
  in the same second (`AlwaysHonouredIff`); otherwise a sweep in between loses it, which is the only
  way to lose one (`AnsweredTokenIsExact`, `ConsumeIsExact`).

## Assumptions about the environment

- Socket.IO: `emit` delivers to the sockets in a room at that moment, in order; a socket starts in
  the room of its own id; a disconnecting socket has left its rooms before the handler is called.
  `ConnectedViewsIff` also relies on no socket connecting under the identifier of a member that has
  disconnected.
- WebSocket tokens: identifiers are fresh and not empty, a token that verifies was signed by the
  service, signing sets `exp` to its own reading of the clock plus the TTL, verification rejects from
  `exp` on (section 4.1.4 of RFC 7519), and seconds do not go back.
- Calls: the drawn identifier is fresh and has 36 characters.
- `Array.prototype.sort` is stable (section 23.1.3.30 of ECMA-262 ES2023). `StableSortIsUnique` shows
  that this fixes its result.

## Model

| member | source | states |
|---|---|---|
| TokenBucket.RateLimitService.AcquireDetailed | src/security/rate-limit.service.ts:60-96 | checks, refills, decides and stores exactly as the step `Acquire`, whose answers `AnswersAreExact`, whose decisions `AcquireByLevel` and whose limits `EachScopeHasItsOwnLimits` pin down |
| TokenBucket.RateLimitService.GetOrCreateBucket | src/security/rate-limit.service.ts:149-165 | answers the bucket there is, or a full one, which is then stored; nothing else changes |
| TokenBucket.RateLimitService.SweepIdle | src/security/rate-limit.service.ts:167-177 | the double loop removes exactly the buckets idle for more than five minutes |
| TokenBucket.RateLimitService.ResetBuckets | src/security/rate-limit.service.ts:98-110 | clears everything, one scope, or one key, as the arguments say |
| TokenBucket.FindAfterReset | src/security/rate-limit.service.ts:98-110 | after a reset a bucket is gone if and only if the arguments cover its scope and key; every other bucket is as it was |
| TokenBucket.AnswersAreExact | src/security/rate-limit.service.ts:65-95 | the three complaints if and only if scope, key or cost is wrong, in that order and with nothing changed; who is admitted need not wait, who is refused has nothing left and waits at least a millisecond |
| TokenBucket.EachScopeHasItsOwnLimits | src/security/rate-limit.service.ts:126-147 | for each of the three scopes, from its own two settings: a key without a bucket is admitted for a cost if and only if the burst covers it, and for a second cost any time later if and only if what is left then, refilled at the scope's own rate up to its burst, covers that |
| TokenBucket.EachScopeKeepsItsBound | src/security/rate-limit.service.ts:126-147 | in every run on a monotone clock with safe sweeps, each scope admits for one key at most its own burst plus its own rate times the elapsed time |
| TokenBucket.DefaultLimits | src/security/rate-limit.constants.ts:14-21 | by default sockets, users and addresses get 30, 100 and 200 at once, and as many again every second |
| TokenBucket.AcquireByLevel | src/security/rate-limit.service.ts:75-95 | an attempt is decided by the refilled level alone, takes the cost if and only if the level covers it, and touches no other bucket; when a bucket was created never matters |
| TokenBucket.TokensStayInRange | src/security/rate-limit.service.ts:78-95 | tokens stay within 0 and capacity in every run, on any clock |
| TokenBucket.FindAfterSweep | src/security/rate-limit.service.ts:167-177 | a bucket survives a sweep if and only if it was used within the last 300000 ms |
| TokenBucket.SilentOpsAreInvisible | src/security/rate-limit.service.ts:60-96 | on a monotone clock, inserting refused attempts (and safe sweeps) anywhere in a run changes no answer to the other operations |
| TokenBucket.SweepsUnobservableIff | src/security/rate-limit.service.ts:167-177 | no run can tell whether sweeps happened if and only if every bucket refills completely in 300001 ms |
| TokenBucket.DrainedBucketReveals | src/security/rate-limit.service.ts:167-177 | whenever one scope violates that condition, drain, sweep, ask again is answered differently without the sweep |
| TokenBucket.RateBound | src/security/rate-limit.service.ts:75-95 | over any stretch of attempts on any clock, the cost admitted for one key is at most capacity plus rate times the forward clock movement between its attempts |
| TokenBucket.RateBoundWithSweeps | src/security/rate-limit.service.ts:75-95 | on a monotone clock, with safe sweeps and resets of other keys in between, at most the present level plus rate times the elapsed time |
| TokenBucket.SweepsKeepRateBoundIff | src/security/rate-limit.service.ts:167-177 | every run with sweeps, from full buckets and on a monotone clock, stays within capacity plus rate times elapsed time if and only if every bucket refills completely in 300001 ms |
| TokenBucket.DefaultsAreSweepSafe | src/security/rate-limit.constants.ts:14-21 | the default limits meet that condition |
| TokenBucket.RetryHintIsExactIff | src/security/rate-limit.service.ts:92-95 | after a refusal, the hint is exact (whatever happens in between, short of an admission or a reset for that key and of unsafe sweeps, repeating the attempt w ms later succeeds if and only if w is at least the hint) if and only if the cost fits the capacity or the rate is zero |
| TokenBucket.TooCostlyIsNeverAdmitted | src/security/rate-limit.service.ts:83-95 | a cost above the capacity is refused in every state and at every time |
| TokenBucket.RemainingIsExact | src/security/rate-limit.service.ts:83-90 | after an admitted attempt exactly `remaining` further attempts of cost one succeed at the same instant |
| Calls.CallEventsStore.Record | src/calls/calls.service.ts:37-53 | appends one event under the next number |
| Calls.CallEventsStore.EventsForCall | src/calls/calls.service.ts:55-57 | the events of one call, in order |
| Calls.CallsService.CreateCall | src/calls/calls.service.ts:111-141 | does and answers what `CreateStep` says: table, index, log and invitations, or the collision error with nothing changed; `CreateIsExact` says what that is |
| Calls.CallsService.ReserveRoomCode | src/calls/calls.service.ts:191-199 | the first of 16 draws whose code is not in the index, or none |
| Calls.CallsService.GetCallByRoomCode | src/calls/calls.service.ts:155-161 | finds the call the index names, or reports that code as not found |
| Calls.CallsService.GetCallByIdOrCode | src/calls/calls.service.ts:168-172 | identifier first, then code |
| Calls.CallsService.ListCallsForUser | src/calls/calls.service.ts:179-189 | the loop and the sort yield the calls of `ListForUser`, whose meaning `ListingIsExact` gives |
| Calls.CallsService.Invite | src/calls/calls.service.ts:201-214 | does and answers what `InviteStep` says, with its four errors in order; see `InviteIsExact` |
| Calls.CallsService.InviteToCall | src/calls/calls.service.ts:216-227 | adds and logs an invitee once; nothing for a participant |
| Calls.CallsService.Accept | src/calls/calls.service.ts:229-245 | does and answers what `AcceptStep` says, re-acceptance after leaving included; see `AcceptIsExact` |
| Calls.CallsService.Join | src/calls/calls.service.ts:247-261 | does and answers what `JoinStep` says; see `JoinIsExact` |
| Calls.CallsService.JoinAsLinkParticipant | src/calls/calls.service.ts:263-277 | adds the user as joined, activates a pending call and logs the entry through the link |
| Calls.CallsService.Leave | src/calls/calls.service.ts:279-287 | does and answers what `LeaveStep` says, after the end too; see `LeaveIsExact` |
| Calls.CallsService.End | src/calls/calls.service.ts:289-301 | does and answers what `EndStep` says; ending again frees no code; see `EndIsExact` |
| Calls.CallsService.Reset | src/calls/calls.service.ts:311-315 | returns to the empty state |
| CallAnswers.CreateIsExact | src/calls/calls.service.ts:111-141 | creation fails, changing nothing, if and only if every code drawn is in the index; otherwise it answers a pending call with the first free code, open by link unless said otherwise, that lists the creator as joined and then everybody else invited, once each in the order of the first invitations, and the table, index and log have grown by that call, its code and those events alone |
| CallAnswers.InviteIsExact | src/calls/calls.service.ts:201-227 | in every reachable state: answered with the call if and only if nobody invites himself, it exists, it has not ended and the inviter takes part, otherwise with the first of the four complaints that applies; a new invitee is added and logged in the creator's name, and nothing else changes |
| CallAnswers.AcceptIsExact | src/calls/calls.service.ts:229-245 | in every reachable state: answered with the call if and only if it exists, has not ended and has the user as a participant, otherwise not found, invalid state or forbidden in that order; the user is then joined, a pending call is active from now on and the two events are logged, unless the user was joined already |
| CallAnswers.JoinIsExact | src/calls/calls.service.ts:247-277 | in every reachable state: answered with the call if and only if it exists, has not ended, and has the user as a participant or is open by link; a new user is added as joined, a pending call is active from now on and the entry through the link is logged |
| CallAnswers.LeaveIsExact | src/calls/calls.service.ts:279-287 | in every reachable state: answered with the call if and only if it exists, ended or not, and has the user as a participant; the user has then left, which is logged, unless that was so already |
| CallAnswers.EndIsExact | src/calls/calls.service.ts:289-301 | in every reachable state: answered with the call if and only if it exists and has the user as a participant; a live call has then ended in that user's name, which is logged, and its code alone is freed |
| CallAnswers.ListingIsExact | src/calls/calls.service.ts:179-189 | in every reachable state the listing for any status, or all, is exactly the calls that have the user as a participant and that status, once each, those created later first and those created at the same time in the order of the table |
| RoomCodes.GenerateRoomCode | src/calls/calls.service.ts:18-28 | the loop spells the drawn code: 11 characters, three groups of three |
| RoomCodes.CodesAreReadable | src/calls/calls.service.ts:13-28 | a code is three groups of three with dashes between them, of capital letters other than I and O and of digits from 2 |
| RoomCodes.RoomCodesAreDistinct | src/calls/calls.service.ts:13-28 | different draws spell different codes, so all 32^9 are possible |
| CallRuns.LogRebuildsEveryCall | src/calls/calls.service.ts:33-67 | in every reachable state, replaying the events of an identifier rebuilds that call, timestamps aside, and nothing for an unknown one |
| CallRuns.EventsAreNumbered | src/calls/calls.service.ts:33-53 | events carry 1..n in recording order |
| CallRuns.LogsAreWords | src/calls/calls.service.ts:216-301 | each call's log starts with its only `created`, pairs each `accepted` with the same user's next `joined`, has between two departures of a user an arrival and between two arrivals a departure, has only departures after `ended`, lets nobody enter twice or act before entering, and carries fitting payloads (a room code, the creator as inviter, entry through the link only into a link call); nobody is listed twice |
| CallRuns.EveryWordIsALog | src/calls/calls.service.ts:111-301 | conversely, every word of that language, numbered from 1, is the whole log of some run |
| CallRuns.LogsAreExactlyWords | src/calls/calls.service.ts:33-301 | events of a single call are the log of some run if and only if they are such a word, numbered from 1, under an identifier of 36 characters |
| CallRuns.IndexIsBijection | src/calls/calls.service.ts:105-107 | the index relates exactly the codes of live calls to those calls, one to one |
| CallRuns.LookupIsExact | src/calls/calls.service.ts:155-172 | a string finds a call if and only if it is the call's identifier, or its code while it is live; a lookup by code finds it for the latter only; what is not found is named in the refusal |
| CallRuns.CodeStaysBound | src/calls/calls.service.ts:289-301 | only ending that very call, or a reset, unbinds a live call's code, also when an ended call once had the same code and is ended again |
| CallRuns.StepOnlyAdvances | src/calls/calls.service.ts:229-301 | status never moves back, identity and end are fixed, participants are only appended; only `end` by a participant ends a call |
| CallRuns.RunOnlyAdvances | src/calls/calls.service.ts:111-301 | the same over whole runs |
| CallRuns.RetriesChangeNothing | src/calls/calls.service.ts:201-301 | in every reachable state, repeating an invite, accept, join, leave, end or reset at any time is answered alike and changes nothing, log included |
| CallRuns.FailuresLeaveNoTrace | src/calls/calls.service.ts:111-301 | without the operations that throw, every run ends in the same state, log included, and none of its operations throws |
| CallRuns.CollisionIff | src/calls/calls.service.ts:191-199 | creating a call fails if and only if every code drawn belongs to a live call |
| CallRuns.ListingIsStableSort | src/calls/calls.service.ts:179-189 | the listing is a permutation of the selected calls, newest first, ties in insertion order |
| CallRuns.ListingIsComplete | src/calls/calls.service.ts:179-189 | `'all'` lists exactly the calls of the user, once each |
| CallRuns.ListingCommutesWithFilter | src/calls/calls.service.ts:184 | each status listing is the order-preserving filter of the full listing |
| CallRuns.ListingsPartition | src/calls/calls.service.ts:179-189 | the three statuses partition the full listing |
| StableSort.StableSortIsUnique | src/calls/calls.service.ts:187 | whatever the algorithm, a stable descending sort has exactly one result |
| StableSort.SortCommutesWithFilter | src/calls/calls.service.ts:179-189 | sorting and filtering commute |
| Registry.RoomRegistry.Join | src/signaling/room.registry.ts:9-22 | enters or replaces one entry, as `JoinEnters` characterises |
| Registry.RoomRegistry.Leave | src/signaling/room.registry.ts:24-38 | the loop, deleting from the map it walks, leaves every room and answers what it removed |
| Registry.MembersAreExact | src/signaling/room.registry.ts:40-42 | what `members` finds for a call is its one room in the table, and nothing if and only if the call has no room |
| Registry.MemberIsExact | src/signaling/room.registry.ts:44-46 | what `member` finds is an entry if and only if that entry is in the call and has that socket, so nothing means that nobody there has it |
| Registry.RoomRegistry.HasMember | src/signaling/room.registry.ts:48-59 | true if and only if some member of the call has that user |
| Registry.JoinEnters | src/signaling/room.registry.ts:9-22 | a join seats one socket in one call and changes no other call; the table stays proper |
| Registry.LeaveClears | src/signaling/room.registry.ts:24-38 | a leave takes the socket out of every call at once, changes nothing else, and drops exactly the rooms it empties |
| Registry.DeparturesAreExact | src/signaling/room.registry.ts:24-38 | the answer of a leave names each call the socket was in, once, with its entry there |
| RegistryOrder.SeatedTakesPlace | src/signaling/room.registry.ts:11-17 | who joins takes its old place among the members, or comes last |
| RegistryOrder.UnseatedKeepsOrder | src/signaling/room.registry.ts:26-29 | the members that are left are those with another socket, in their order |
| RegistryOrder.CallsKeepOrder | src/signaling/room.registry.ts:24-38 | calls keep their order when a socket leaves, but for those that it empties |
| RegistryOrder.DeparturesKeepOrder | src/signaling/room.registry.ts:24-38 | departures are answered in the order of the calls |
| RegistryOrder.NewCallComesLast | src/signaling/room.registry.ts:10-17 | a call that is new to the table comes last, and a known one keeps its place |
| Signaling.SignalingGateway.HandleDisconnect | src/signaling/signaling.gateway.ts:107-122 | the socket leaves every call, and each is told, in order |
| Signaling.SignalingGateway.EmitCallInvite | src/signaling/signaling.gateway.ts:124-145 | `delivered` and `skipped` split the invited users in order by permission, and exactly the former are sent to |
| Signaling.SignalingGateway.HandlePeerJoin | src/signaling/signaling.gateway.ts:147-182 | limiter, user, payload, sender and permission in that order; then registry, room, announcement and `peers`, as in `Handled` |
| Signaling.SignalingGateway.HandlePeerLeave | src/signaling/signaling.gateway.ts:184-209 | refuses strangers; leaves one Socket.IO room and every call of the registry, and tells one call |
| Signaling.SignalingGateway.HandlePeerReconnect | src/signaling/signaling.gateway.ts:211-234 | refuses strangers; tells the call and changes no membership |
| Signaling.SignalingGateway.HandleCallInvite | src/signaling/signaling.gateway.ts:236-253 | refuses a foreign sender; otherwise sends the invitations |
| Signaling.SignalingGateway.HandleCallEvent | src/signaling/signaling.gateway.ts:255-382 | the five call events: refused without permission, otherwise passed to the bus and then broadcast; `AnswersAreExact` and `HeardIsExact` say to whom |
| Signaling.SignalingGateway.HandleSfuEvent | src/signaling/signaling.gateway.ts:325-403 | refused without permission, and for sfu:join-room unless the call is accepted or active |
| SignalingRuns.JoinIsItsParts | src/signaling/signaling.gateway.ts:147-182 | a whole join is its three parts between the awaits in a row, whatever their outcome |
| SignalingRuns.PeersAreRoster | src/signaling/signaling.gateway.ts:176-181 | the `peers` acknowledgement is exactly the registry's members without the client |
| SignalingAnswers.PeersInOrder | src/signaling/signaling.gateway.ts:176-179 | they come in the order of the registry |
| SignalingAnswers.AnswersAreExact | src/signaling/signaling.gateway.ts:147-410 | after every run, for every request: refused as rate limited if and only if the limiter stops it, else as forbidden without a user, else as invalid, else as forbidden unless sender, permission, seat and (for sfu:join-room) state of the call allow it, and otherwise acknowledged with the call and event asked for |
| SignalingAnswers.JoinIsEntered | src/signaling/signaling.gateway.ts:166-167 | a granted join seats the socket under its user, with the time, in that call and in no other |
| SignalingAnswers.HeardIsExact | src/signaling/signaling.gateway.ts:124-382 | after every run and for every socket: a request adds to what it receives exactly one message if it is in the room addressed (all but the client hear of joins and leaves, everybody of reconnects and call events, invited rooms of invitations), if the request is granted, and then the answer, if it is the client; the bus is told exactly the one call event that was granted |
| SignalingAnswers.CallEventReachesMembers | src/signaling/signaling.gateway.ts:367-382 | after every run without leaves from a socket in another call, a granted call event is heard once by every member of the call, and by nobody else but a socket named like the call |
| SignalingAnswers.DisconnectIsHeard | src/signaling/signaling.gateway.ts:107-122 | a disconnect is heard once for each call the socket was in by every socket in that call's room, in the order of the calls |
| SignalingAnswers.RequestsAreLimited | src/signaling/signaling.gateway.ts:405-410 | in every run of the gateway on a monotone clock, at most 59 requests of one socket get past the limiter in any 1000 ms |
| SignalingAnswers.StoppedAfterThirty | src/signaling/rate-limit.guard.ts:5-28 | in such runs a request is stopped only when the last 30 that got past were made within the second before it |
| SignalingViews.LeaveSucceedsIffAcknowledged | src/signaling/signaling.gateway.ts:184-209 | a leave is acknowledged if and only if the limiter lets it through, the socket has a user, and that user holds its place in the call |
| SignalingViews.StepUnsettlesIff | src/signaling/signaling.gateway.ts:107-209 | in every state, a step unsettles the views of a socket if and only if they were settled and it is a leave that deserts that member in another call or an announcement, come too late, that reaches it |
| SignalingViews.StepKeepsViewsIff | src/signaling/signaling.gateway.ts:107-209 | from settled views of all, a step unsettles somebody's if and only if it is such a leave or such an announcement |
| SignalingViews.InterleavedViewsIff | src/signaling/signaling.gateway.ts:147-209 | with joins interleaved at their awaits, views stay settled throughout a run if and only if no step of those two kinds occurs |
| SignalingViews.QuiescentViews | src/signaling/signaling.gateway.ts:166-181 | once every join is announced, settled views are equal to the registry |
| SignalingViews.ViewsConvergeIff | src/signaling/signaling.gateway.ts:107-209 | with whole handlers, each member's `peers` acknowledgement folded with later `peer:joined` and `peer:left` equals the registry without itself, for all members throughout, if and only if no leave deserts another shared call |
| SignalingExamples.DesertionDiverges | src/signaling/signaling.gateway.ts:200-207 | for any two sockets and two calls, a run of whole handlers in which views do not stay equal to the registry |
| SignalingExamples.DesertionOverstays | src/signaling/signaling.gateway.ts:200-207 | the same run leaves a socket in the Socket.IO room of a call it is no longer in |
| SignalingExamples.LateAnnouncementDiverges | src/signaling/signaling.gateway.ts:166-174 | a disconnect between entry and announcement leaves a view wrong for good |
| SignalingExamples.GhostIsEnrolled | src/signaling/signaling.gateway.ts:162-167 | a disconnect while the bus is asked leaves a member that is not connected |
| SignalingRooms.BroadcastsReachMembersIff | src/signaling/signaling.gateway.ts:167-207 | in every run, the sockets in a call's Socket.IO room are its members throughout (the socket the room is named after aside) if and only if no leave is handled for a socket in another call |
| SignalingRooms.MembersAreConnectedIff | src/signaling/signaling.gateway.ts:107-167 | in every run, all members are connected throughout if and only if no join goes on after its socket has disconnected |
| SignalingRooms.ConnectedViewsIff | src/signaling/signaling.gateway.ts:147-209 | in every run in which no socket connects under the identifier of a member that has disconnected, whether there are such members or not, the views of connected members stay settled throughout if and only if no leave deserts, and no late announcement reaches, a connected member |
| SignalingGrants.FallbackGrantsNothing | src/signaling/signaling.gateway.ts:159-174 | after any run, everyone in the registry, announced, listed as a peer or acting in a call event was authorised for that call by the bus during the run |
| SignalingGrants.NoopBusIsSilent | src/signaling/calls-event-bus.ts:39-44 | with a bus that authorises nobody the registry stays empty, the bus is told nothing, and clients get only refusals and plain acknowledgements |
| SignalingInvites.InvitationsHeard | src/signaling/signaling.gateway.ts:132-143 | each socket receives an invitation once for every permitted invitee in whose room it is, and nothing else |
| SignalingInvites.InvitationHearers | src/signaling/signaling.gateway.ts:140-142 | after any run without leaves from a socket in another call, the sockets that hear an invitation are exactly the members of calls named like the rooms of permitted invitees, and sockets so named |
| SignalingInvites.InvitesReachNobodyIff | src/signaling/signaling.gateway.ts:140-142 | in every run, invitations reach nobody throughout if and only if no socket connects under, or is enrolled in a call under, the name of a user's room |
| SignalingInvites.InvitesReachNobody | src/signaling/signaling.gateway.ts:140-142 | in particular they reach nobody in runs in which no socket and no call asked for has a name of that form |
| SignalingExamples.OutsiderHearsInvitation | src/signaling/signaling.gateway.ts:140-167 | a socket that joins the call user:v receives what is sent to user v |
| Redaction.RedactPayload | src/security/redaction.util.ts:26-37 | at every depth of the result each of the 14 built-in keys, and each extra key, has the placeholder, or '[REDACTED]' when none is given, and every other string is at most max(1, limit) long, the limit being 256 when none is given, or '[CIRCULAR]'; and the result is the walk under the one configuration that means this |
| Redaction.ResolveMeans | src/security/redaction.util.ts:30-34 | the resolved options hide exactly the built-in and the extra keys, under the placeholder and limit given or their defaults |
| Redaction.Walker.Walk | src/security/redaction.util.ts:39-83 | terminates on every finite graph, cycles included, restores `seen`, and builds the specified tree |
| Redaction.Walker.WalkFields | src/security/redaction.util.ts:72-78 | redacted keys get the placeholder, other values are walked, in key order |
| Redaction.Truncate | src/security/redaction.util.ts:85-90 | short strings are kept; others become a prefix and an ellipsis, max(1, limit) long |
| Redaction.OutputIsUnfolding | src/security/redaction.util.ts:39-83 | a path exists in the output if and only if it can be followed in the graph past no redacted key and no object that is its own ancestor; its end shows what the graph has there, '[CIRCULAR]' exactly for an object that is its own ancestor |
| Redaction.WalkIsTheUnfolding | src/security/redaction.util.ts:39-83 | the output is the one tree with distinct keys that shows the graph's cut unfolding at every path |
| Redaction.OutputIsClean | src/security/redaction.util.ts:39-90 | at every depth a redacted key has the placeholder, and every other string is at most max(1, limit) long or '[CIRCULAR]' |
| Redaction.SecretsDoNotLeak | src/security/redaction.util.ts:73-74 | what redacted keys hold has no influence on the output |
| Redaction.TreeIsKeptIff | src/security/redaction.util.ts:39-90 | walking a tree, however it is laid out and shared in memory, returns it unchanged if and only if redacted keys have the placeholder and every other string survives the limit, at every depth |
| Redaction.CleanTreeIsKept | src/security/redaction.util.ts:39-90 | in particular a clean tree comes back unchanged for limits of at least 10 |
| Redaction.RedactingTwiceIff | src/security/redaction.util.ts:39-90 | for each payload, redacting the output again, however it is laid out, returns it unchanged if and only if the limit is at least 10 or no object of the payload is its own ancestor on a path without redacted keys |
| Redaction.IdempotentIff | src/security/redaction.util.ts:39-90 | redacting twice is redacting once, for all payloads, if and only if the limit is at least 10 |
| Redaction.EveryOutputHasALayout | src/security/redaction.util.ts:39-83 | every output is the picture of some graph, so redacting twice is never an empty case |
| Presence.InMemoryPresenceService.MarkOnline | src/presence/in-memory-presence.service.ts:23-33 | adds the socket and replaces the bucket's timer |
| Presence.InMemoryPresenceService.MarkOffline | src/presence/in-memory-presence.service.ts:35-44 | removes the socket, and bucket and timer with the last one |
| Presence.InMemoryPresenceService.WhoIsOnline | src/presence/in-memory-presence.service.ts:46-53 | the given users that have a socket |
| Presence.InMemoryPresenceService.TrackCall | src/presence/in-memory-presence.service.ts:55-65 | the same for calls |
| Presence.InMemoryPresenceService.UntrackCall | src/presence/in-memory-presence.service.ts:67-76 | the same for calls |
| Presence.InMemoryPresenceService.CallSockets | src/presence/in-memory-presence.service.ts:78-80 | the sockets of a call's bucket, none without one |
| Presence.InMemoryPresenceService.SocketsForUser | src/presence/in-memory-presence.service.ts:82-84 | the sockets of a user's bucket, none without one |
| Presence.TtlBuckets.Refresh | src/presence/in-memory-presence.service.ts:95-101 | clears the old timer and sets one for the new TTL |
| Presence.TtlBuckets.Expire | src/presence/in-memory-presence.service.ts:110-113 | the timer callback drops the bucket and its entry |
| Presence.TtlBuckets.RunTimers | src/presence/in-memory-presence.service.ts:98-113 | firing the due timers one by one, in any order, drops exactly the buckets of due timers |
| Presence.TtlBuckets.Destroy | src/presence/in-memory-presence.service.ts:86-93 | the loop clears the timer of every entry and both tables; no timer is left if each bucket had its one timer |
| Presence.PresenceIsExact | src/presence/in-memory-presence.service.ts:23-53 | after any run, a socket is reported at a later time if and only if it has a mark not undone since, and from then on its bucket was always refreshed in time |
| Presence.OnlineIsExact | src/presence/in-memory-presence.service.ts:46-53 | `whoIsOnline` answers exactly the users with such a socket |
| Presence.OneTimerPerBucket | src/presence/in-memory-presence.service.ts:95-113 | each live bucket has exactly one pending timer, that of its last refresh, still to come; no stale timer can drop it |
| Presence.NobodyIsDroppedEarly | src/presence/in-memory-presence.service.ts:95-113 | with due timers firing as late and in whatever order, whoever ought to be reported is, and whoever is reported has a mark that was not undone |
| Presence.OnlyExpiredBucketsAreDropped | src/presence/in-memory-presence.service.ts:110-113 | in such runs a timer changes no bucket whose last TTL has not run out |
| Presence.TtlIsKeptIff | src/presence/in-memory-presence.service.ts:95-101 | in every run, all buckets are dropped when their TTL entries say, throughout, if and only if every TTL asked for is between 1 and 2147483647 ms |
| Presence.MarkLastsAsAsked | src/presence/in-memory-presence.service.ts:19-32 | left alone, a mark is reported for exactly the TTL asked for, or else the one the service was constructed with, or else 60 seconds, where a TTL that is no timer delay makes it one millisecond |
| Presence.ExpiredEntryIsReported | src/presence/in-memory-presence.service.ts:95-101 | with a TTL of zero or less a socket is reported although its entry has expired |
| Presence.LongTtlIsCutShort | src/presence/in-memory-presence.service.ts:95-101 | with a TTL that is too long the socket is gone after a millisecond |
| FixedWindow.RateLimitGuard.TryConsume | src/signaling/rate-limit.guard.ts:42-64 | admits, refuses and updates the socket's bucket as the step says |
| FixedWindow.LowCapacityActsAsOne | src/signaling/rate-limit.guard.ts:42-64 | in every run a capacity of zero or less admits and refuses as a capacity of one does |
| FixedWindow.AtMostTwiceMinusOne | src/signaling/rate-limit.guard.ts:42-64 | for every capacity and window, no half-open interval as long as the window holds more than 2 max(1, c) - 1 admitted events of one socket, in any run on a monotone clock |
| FixedWindow.BoundIsAttainedIff | src/signaling/rate-limit.guard.ts:42-64 | for every capacity and window, some run attains that bound if and only if the window has at least 2 ms, or has 1 ms and c is at most 1 |
| FixedWindow.AtMostCapacityPerInstant | src/signaling/rate-limit.guard.ts:42-64 | with a window of 1 ms no instant sees more than max(1, c) admitted events |
| FixedWindow.RefusedOnlyWhenFull | src/signaling/rate-limit.guard.ts:59-61 | a refusal means that the last max(1, c) admitted events all lie within the preceding window |
| WsToken.WsTokenService.Issue | src/auth/ws/ws-token.service.ts:39-52 | records the identifier with the expiry of the first clock reading and answers the token signed at the second; `AnsweredTokenIsExact` says what that token is worth |
| WsToken.WsTokenService.Consume | src/auth/ws/ws-token.service.ts:54-73 | the four refusals in order, otherwise the subject, and the identifier is gone |
| WsToken.WsTokenService.Sweep | src/auth/ws/ws-token.service.ts:75-80 | the loop removes exactly the expired identifiers |
| WsToken.ConsumeIsExact | src/auth/ws/ws-token.service.ts:54-73 | in every run a token is accepted if and only if it was issued, has not expired, was not presented before, and no sweep came after its entry in the table had expired; the answer is the user it was issued to, and otherwise the first of the four refusals that applies |
| WsToken.AnsweredTokenIsExact | src/auth/ws/ws-token.service.ts:39-73 | in every run, the very token that an issue answers, presented at any later time, is answered with the user given to that issue if and only if it has not expired, was not presented and not swept; and the answered `expiresAt` is the table's expiry in milliseconds |
| WsToken.AlwaysHonouredIff | src/auth/ws/ws-token.service.ts:44-50 | in every state of every run, the token that an issue answers is accepted as long as it is unexpired and unused, whatever follows, if and only if both clock readings of its issue agree or its TTL is not positive |
| WsToken.SweepLeavesTheRedeemable | src/auth/ws/ws-token.service.ts:75-80 | after a sweep the table holds exactly the identifiers that can still be redeemed |
| WsToken.AcceptedAtMostOnce | src/auth/ws/ws-token.service.ts:67-72 | no continuation accepts an identifier again |

## Left out

- NestJS modules, controllers, guards as decorators, filters, interceptors, DTO parsers, configuration, metrics and logging: wiring and output.
- JWT signing and verification, Google sign-in, TURN credentials, LiveKit and Redis clients, the TypeORM repository: foreign libraries; of a JWT only the comparison with `exp` is modelled.
- `RedisPresenceService`: its behaviour is that of Redis.
- `AuthAuditLogger.redact`: a weaker relative of the redaction modelled here.
- Floating-point rounding: token counts, rates and waiting times are exact reals, and the remaining tokens are their floor.
- TokenBucket.RateLimitService.AcquireDetailed: rates and capacities below zero, and a bucket map supplied from outside, are not modelled; at rate zero the hint is "never", as the code's Infinity.
- TokenBucket.RateLimitService.SweepIdle: the timer that calls it is a step that may come at any time.
- Several clock readings of one operation are one reading in `Calls`, `Signaling` and `Presence`; the token bucket and the issue of WebSocket tokens have their two.
- Timestamps are integer milliseconds instead of ISO strings; for years 0 to 9999 the strings compare in the same way.
- CallRuns.LogRebuildsEveryCall: rebuilds calls without their timestamps, which events do not carry.
- Presence.InMemoryPresenceService.MarkOnline: fractional TTLs are not modelled; the duplicated code for users and calls is one class used twice.
- Presence.PresenceIsExact: due timers fire before the next operation, as they do in `OnlineIsExact` and `OneTimerPerBucket`; timers that fire late and in any order are the subject of `NobodyIsDroppedEarly` and `OnlyExpiredBucketsAreDropped`.
- Redaction.Walker.Walk: property getters and proxies, `__proto__` as a key, symbol keys, holes in arrays, class instances with hidden state, and NaN, infinities and negative zero are not modelled; strings are sequences of UTF-16 units, so a cut may fall within a surrogate pair as it does in the code.
- Redaction.Walker.Walk: the recursion depth is not bounded by a stack, and `maxStringLength` is an integer.
- Signaling.SignalingGateway.HandlePeerJoin: the class runs the handler to its end; its parts between the awaits are steps of `SignalingRuns`. The awaits of the other handlers are not split: between them those handlers change no registry, room or view.
- Signaling.SignalingGateway.HandleCallEvent: an event bus that throws, and a bus whose answer changes within one handler, are not modelled.
- Payload parsing yields the parsed value or a refusal; the text of the reason is left out, and so are the handshake and the delivery of messages over a network that loses or delays them.
- `RoomRegistry.reset`, `snapshotForTests`, `RateLimitGuard.reset`, `canActivate` and the other test helpers.
