# ToolGate: a verified model

ToolGate is a gateway between an agent and an upstream MCP server. It serialises the calls of a session through Redis
locks, judges every tool call by a policy and a budget, holds calls that need a human approval, forwards the rest under
a cached upstream session, and writes an audit log; an evaluation runner checks that log and streams the results to a
page. This project models that behaviour in Dafny and proves what the parts promise, alone and together.

`dafny verify dfyconfig.toml` checks everything.

## How the model is built

| Part | Modules |
|---|---|
| Redis and its client | `Redis` (keys with values and deadlines, the seven Lua scripts as atomic steps, also as imperative methods of `Server`), `RedisLink` (a client whose requests and replies can be lost, whose clock only moves forward, and between whose requests anybody may change the database), `Wrappers` |
| One guarded call | `CallTrace` (the phases of a call and the scripts each allows), `SessionLocker`, `TurnRWLock`, `ConcurrencyGuard` (classes that poll, lock, run and unwind) |
| Many guarded calls | `LockProtocol` (any number of calls interleaving, with lost replies and failed releases), `LockTiming` (the same guarantees from the times of the scripts alone), `LockSurvival` (exactly when exclusion is lost, without any hypothesis about leases), `LockHazards` and `LateReleases` (where the guarantees end, with runs), `Keepalive` (lease arithmetic of an approval wait) |
| Approval | `Tickets`, `Webhook`, `ApprovalBridge`, `GatewayProtocol` (calls, tickets, clicks and signals interleaving) |
| Policy and audit | `Policy`, `Budget`, `PolicyGate`, `Pipeline`, `Server`, `Audit` |
| Upstream | `Forwarder` (one call), `ForwarderProtocol` (many calls sharing one cache) |
| Evaluation runner | `TraceChecks`, `Report`, `Sse`, `Stream` |

Code that updates fields or loops is a class or a method here, proved against a specification function; protocols over
shared state are transition systems whose steps use the same functions. The phases that `ConcurrencyGuard.Execute` is
proved to follow (`CallTrace.Track`, built on `Advance`) are the very phases whose scripts interleave in `LockProtocol`.

What the surroundings decide (replies, lost messages, clocks, random bytes, the fate of SQL statements, JSON encoding)
enters as parameters, and the results hold for every value of them.

### Conventions

- Time is in nanoseconds, TTL arguments are in milliseconds, and a key is alive exactly while the clock is before its
  deadline. Redis itself compares whole milliseconds.
- A TTL that is not positive makes SET fail and PEXPIRE delete, as in Redis.
- JSON values are a datatype; `Float` and `Int` keep apart what Go decodes from JSON (float64) and from YAML (int).
- A rule's `when` map is a list in the order in which Go happens to range over it;
  `Policy.ScalarWhenOrderFree` shows when the order does not matter.

### Where the code differs from its own words

- A comment calls a failed ticket insert "fail open" (cmd/gateway/policy_gate.go:197). The call waits on the channel of
  the empty ticket, on which the webhook never publishes, so it is never forwarded:
  `GatewayProtocol.OnlyAuthorisedCallsAreForwarded`.
- The webhook publishes even when its conditional update changed no row (cmd/gateway/slack_webhook.go:263-276), so a
  waiter may be told the opposite of what the ticket says: `GatewayProtocol.MixedClicksCanDisagree`. What it was told is
  true if and only if the click it heard found the ticket pending or already with that status:
  `GatewayProtocol.VerdictTrueIff`. With one kind of click per ticket they always agree:
  `GatewayProtocol.VerdictAgreesWithTicket`.
- An approval wait extends the session lock only. A second writer can then enter the same turn:
  `LockHazards.ApprovalWaitOutlivesTurnLock`.
- The session release asks for the turn alone and the reader unlock for nothing at all, so a call that overstayed gives
  back the unit of a call that is well inside its own lease: `LateReleases.LateReleaseAdmitsIntruder`,
  `LateReleases.LateUnlockAdmitsWriter`.
- The reader unlock has no floor; after an expiry the next reader is counted and refused at once
  (`LockHazards.LateReaderPoisonsNext`), and that is so exactly at a counter of -1
  (`LockHazards.CountedYetRefusedIff`).
- The audit consumer may go on inserting after its context has ended, because a Go select between two ready cases takes
  either: `Audit.CancelledMayAttemptIff`.
- `upstream_error` covers every error of a call, and it and `budgetExceeded` record the arguments as they came. So the
  masks of a call of a redacted tool hold in the audit log if and only if its context is injected, it is within budget,
  both locks are granted and given back, and the upstream returns no error: `Server.MasksHoldIff`.
- A second stale rejection gives neither a response nor an error: `Forwarder.NothingIffStaleTwice`.
- A late stale rejection empties the cache of a session that upstream still knows:
  `ForwarderProtocol.LateRejectionDropsFreshSession`.
- A condition written as a YAML integer never matches a JSON argument: `Policy.IntegerConditionNeverMatches`.

## Model

| member | source | states |
|---|---|---|
| Redis.RenderInjective | cmd/gateway/session_locker.go:148-154 | different keys of the four families never have the same text, whatever the session and turn IDs contain |
| Redis.RunFrame | cmd/gateway/turn_rwlock.go:14-45 | a script changes only the keys it is given |
| Redis.Server.AcquireSessionScript | cmd/gateway/session_locker.go:16-31 | the script's commands, one after the other, amount to the atomic acquire step |
| Redis.Server.ReleaseSessionScript | cmd/gateway/session_locker.go:32-43 | the same for the release step, which deletes both keys at the last unit |
| Redis.Server.ExtendSessionScript | cmd/gateway/session_locker.go:44-53 | the same for the extend step, which refuses another owner's lease |
| Redis.Server.ReadLockScript | cmd/gateway/turn_rwlock.go:15-23 | the same for the read lock step |
| Redis.Server.ReadUnlockScript | cmd/gateway/turn_rwlock.go:24-26 | the same for the read unlock step, a DECR without a floor |
| Redis.Server.WriteLockScript | cmd/gateway/turn_rwlock.go:27-37 | the same for the write lock step |
| Redis.Server.WriteUnlockScript | cmd/gateway/turn_rwlock.go:38-44 | the same for the write unlock step, which deletes only its own token |
| Redis.RepliesAre | cmd/gateway/session_locker.go:32-43 | a release that is not the owner's is told -1 and the owner what is left, with both keys gone exactly at nothing; a write unlock is told whether the token was its own |
| Redis.NoLeaseNoLock | cmd/gateway/session_locker.go:16-31 | with a TTL below one millisecond a free lock is not granted and the database stays as it was |
| CallTrace.Balanced | cmd/gateway/concurrency_guard.go:46-85 | at every point of a call, grants minus returns of each lock is what its phase holds, and nothing follows the session release |
| CallTrace.Neutral | cmd/gateway/concurrency_guard.go:28-86 | an undisturbed call leaves owner, refcount and writer as they were on every exit, and the reader count exactly when it did not meet a counter of -1 |
| RedisLink.PaceAllows | cmd/gateway/turn_rwlock.go:134-156 | the pace of the waits allows at most one attempt per started 50 ms of the timeout and one more |
| RedisLink.MaxAttemptsIs | cmd/gateway/turn_rwlock.go:134-156 | that bound in numbers: one without a timeout, else one more than the 50 ms intervals that cover it |
| RedisLink.PollEnds | cmd/gateway/turn_rwlock.go:61-82 | a session is granted by the reply 1 alone, a turn lock by any reply but 0, and an error ends a poll at once; all earlier attempts were refused |
| RedisLink.Link.Eval | cmd/gateway/turn_rwlock.go:126-132 | a script runs at most once per request, and an error is seen exactly when request, reply or script failed |
| SessionLocker.SessionLocker.Acquire | cmd/gateway/session_locker.go:85-118 | refusals and then one fitting last attempt; at most ⌈T/50 ms⌉ + 1 scripts, one when T is not positive, with waits of at most 50 ms between them; a timeout only after T, and a cancelled poll only when the context ended during its last wait |
| SessionLocker.SessionLocker.Release | cmd/gateway/session_locker.go:120-126 | one release script, and success exactly when it replied |
| SessionLocker.SessionLocker.Extend | cmd/gateway/session_locker.go:128-138 | one extend script, and success exactly when it replied and the lease is this turn's |
| TurnRWLock.TurnRWLock.ReadLock | cmd/gateway/turn_rwlock.go:61-82 | the bounds, the timeout rule, the cancellation rule and the result rule of Acquire for readers |
| TurnRWLock.TurnRWLock.WriteLock | cmd/gateway/turn_rwlock.go:91-117 | the same for writers; without a token nothing is sent |
| TurnRWLock.TurnRWLock.ReadUnlock | cmd/gateway/turn_rwlock.go:84-89 | one unlock script, whose reply value is ignored |
| TurnRWLock.TurnRWLock.WriteUnlock | cmd/gateway/turn_rwlock.go:119-124 | one unlock script, whose reply value is ignored |
| ConcurrencyGuard.SettleClean | cmd/gateway/concurrency_guard.go:35-54 | a call succeeds exactly when its function did and both cleanups replied |
| ConcurrencyGuard.SettleRanks | cmd/gateway/concurrency_guard.go:35-54 | whose error a call returns: its panic, its function's, the unlock's or the release's, each exactly when none before it is there; and when it keeps the response |
| ConcurrencyGuard.GuardedReturnsLocks | cmd/gateway/concurrency_guard.go:49-83 | every lock granted is given back once, the turn lock right before the session lock, and nothing after it |
| ConcurrencyGuard.ConcurrencyGuard.UnderTurnLock | cmd/gateway/concurrency_guard.go:56-85 | the work runs exactly when the turn lock was granted, all its extensions between lock and unlock of its own kind |
| ConcurrencyGuard.ConcurrencyGuard.Execute | cmd/gateway/concurrency_guard.go:28-86 | the scripts follow the phases on the call's own session and turn, a tool classed as a read uses the shared turn lock only and every other tool the exclusive one only, errors rank panic, function, turn unlock, session release, a call is cancelled only by its context, and an undisturbed call is lock-neutral |
| LockProtocol.InvKept | cmd/gateway/session_locker.go:16-53 | every step of every call keeps the invariant of counters, owners, tokens and deadlines under the lease hypothesis |
| LockProtocol.LeasedRunsAreSafe | cmd/gateway/turn_rwlock.go:15-44 | in every leased run: one turn per session, one writer alone or only readers per turn, refcount and reader counter exact with lost units, owner and refcount share a deadline beyond every holder's lease, nonzero replies mean acquired |
| LockProtocol.SessionSafeByItself | cmd/gateway/session_locker.go:16-53 | one session's guarantees need the leases of its own calls only: one turn inside, the refcount counts, owner and refcount share a deadline beyond every holder's lease, whatever lapses elsewhere |
| LockProtocol.TurnSafeByItself | cmd/gateway/turn_rwlock.go:15-44 | one turn's guarantees need the leases of its own calls only: one writer alone or only readers, and the reader counter counts, whatever lapses elsewhere |
| LockSurvival.RunKeysTyped | cmd/gateway/session_locker.go:16-53 | in every run owners and tokens are texts and counters are numbers |
| LockSurvival.SessionExclusionLostIff | cmd/gateway/session_locker.go:16-31 | in every run, whatever has lapsed: a step takes session exclusion away if and only if it is the answered acquire of a call that finds its session free, or owned by its turn, while a call of another turn is inside |
| LockSurvival.TurnExclusionLostIff | cmd/gateway/turn_rwlock.go:15-37 | in every run, whatever has lapsed: a step takes turn exclusion away if and only if it is the answered lock script of a call that finds no writer key, and a counter of zero (writer) or other than -1 (reader), while a conflicting call is inside |
| LockTiming.ExtendTakesEffect | cmd/gateway/session_locker.go:44-53 | whatever the other calls do, an extend that reaches Redis within the lease succeeds |
| LockTiming.PromptRunsAreSafe | cmd/gateway/approval_bridge.go:180-189 | the guarantees of LeasedRunsAreSafe from times alone: in any interleaving it is enough that every session holder's acquire or extend reached Redis less than a TTL ago, with no assumption that extends succeed |
| LockHazards.IntruderAdmittedIffLapsed | cmd/gateway/session_locker.go:19-23 | while no lease has lapsed so far, a call of another turn gets into a held session if and only if the holder's lease lapses |
| LockHazards.ConflictAdmittedIffLapsed | cmd/gateway/turn_rwlock.go:15-37 | while no lease has lapsed so far, for every conflicting pair (writer and writer, writer beside reader, reader beside writer) the second gets into the turn if and only if the key of the first expires |
| LateReleases.LateUnlockAdmitsWriter | cmd/gateway/turn_rwlock.go:24-26 | a run in which the late unlock of one reader lets a writer in beside another reader, both inside their leases and the reader's key alive |
| LateReleases.LateReleaseAdmitsIntruder | cmd/gateway/session_locker.go:32-43 | a run in which the late release of one call deletes the new lease of another call of its turn, and a call of another turn gets in beside it |
| LockHazards.SameTurnIsSharedAcrossSessions | cmd/gateway/turn_rwlock.go:177-183 | a writer keeps out calls of any session that use its turn ID |
| LockHazards.UnlockGoesNegativeIff | cmd/gateway/turn_rwlock.go:24-26 | an unlock leaves a negative counter exactly when it meets none or a spent one, and from none one that never expires |
| LockHazards.CountedYetRefusedIff | cmd/gateway/turn_rwlock.go:126-132 | a reader is counted and told it was not exactly when no writer is there and the counter is -1 |
| LockHazards.LateUnlockPoisonsTurn | cmd/gateway/turn_rwlock.go:24-26 | after a late unlock, for as long as nobody touches the turn, writers are refused and the next reader is counted in and told it was not |
| LockHazards.LateReaderPoisonsNext | cmd/gateway/turn_rwlock.go:61-89 | a run in which a reader outlives its turn lease and unlocks, and then, with nobody inside the turn, the next reader is counted and refused |
| LockHazards.PoisonedRefusalAdmitsWriter | cmd/gateway/turn_rwlock.go:14-37 | the poisoned refusal resets the counter to zero, so a writer is admitted and the retrying reader refused |
| LockHazards.LapsedLeaseBreaksExclusion | v1.md:296 | a run that outlives the TTL and has two turns inside one session |
| LockHazards.ApprovalWaitOutlivesTurnLock | cmd/gateway/approval_bridge.go:180-189 | a run whose session lease never lapses and that has two writers inside one turn |
| Keepalive.IntervalBelowLease | cmd/gateway/approval_bridge.go:127 | TTL/2 is below the TTL truncated to milliseconds exactly from 1 ms up |
| Keepalive.TruncationsAre | cmd/gateway/approval_bridge.go:127 | a TTL loses less than a millisecond on its way to Redis, and the ticker runs every half of it |
| Keepalive.ExtensionsSucceedIff | cmd/gateway/session_locker.go:44-53 | any number of extensions all succeed if and only if each comes within a lease of the refresh before it |
| Keepalive.WaitNeverLosesLease | cmd/gateway/approval_bridge.go:144-189 | with start delay and lateness below the gap, and keys that nobody else changes, the lease is this turn's at every moment of a wait of any length |
| Keepalive.TicksKeepPrompt | cmd/gateway/approval_bridge.go:147-189 | with the same bounds and whatever the others do, the last extend of a waiting call is less than a lease ago until its next one reaches Redis |
| Tickets.FirstDecisionWins | cmd/gateway/ticket.go:13 | a ticket leaves pending at most once and keeps its first status and decider |
| Tickets.TicketStore.Insert | cmd/gateway/ticket.go:43-59 | a pending row, and its ID exactly when the statement was acknowledged |
| Tickets.TicketStore.UpdateStatus | cmd/gateway/ticket.go:38-41 | the conditional update, with the fates of its statement |
| Webhook.LarkWebhookHandler.ServeHTTP | cmd/gateway/slack_webhook.go:235-290 | unknown clicks change nothing, a failed update publishes nothing, an acknowledged one publishes whether or not it changed a row |
| Webhook.ActionsAre | cmd/gateway/slack_webhook.go:246-259 | "approve" and "deny" alone are known, with the statuses and payloads "approved" and "denied" |
| ApprovalBridge.ApprovedIff | cmd/gateway/approval_bridge.go:157-178 | a wait ends approved exactly when its first terminal signal is "approved", and by timeout exactly on a timer, a closed channel or a nil message |
| ApprovalBridge.WaitEndsAtFirst | cmd/gateway/approval_bridge.go:155-209 | a wait ends at the first "approved", "denied", nil message or closed channel, timer or ended context, and each gives its own verdict |
| ApprovalBridge.TicksAre | cmd/gateway/approval_bridge.go:180-189 | the extensions of a wait are as many as the ticks among its signals |
| ApprovalBridge.NoiseIsIgnored | cmd/gateway/approval_bridge.go:173-189 | ticks and unknown payloads do not change how a wait ends |
| ApprovalBridge.ExpiryComesLast | cmd/gateway/approval_bridge.go:212-222 | the waiter's expired update takes effect after all updates made during the wait, so a click that came first stands |
| ApprovalBridge.ApprovalBridge.WaitForDecision | cmd/gateway/approval_bridge.go:144-209 | the verdict of the first terminal signal, one extension per tick before it, one "expired" update exactly on timeout or lost subscription, and otherwise the tickets as others left them during the wait |
| ApprovalBridge.ApprovalBridge.HandleTimeout | cmd/gateway/approval_bridge.go:212-222 | the "expired" update is attempted once and its failure ignored |
| ApprovalBridge.Pump | cmd/gateway/approval_bridge.go:72-82 | payloads in order up to a nil message or the end, then one closing signal |
| Policy.FirstMatchDecides | core/policy/evaluator.go:38-43 | the lowest-index matching rule decides, else the default |
| Policy.OtherToolsIrrelevant | core/policy/evaluator.go:39 | dropping the rules of other tools changes no decision |
| Policy.UnconditionalRuleShadows | core/policy/evaluator.go:46-54 | nothing after an unconditional rule for the tool matters, the default included |
| Policy.ScalarWhenIsConjunction | core/policy/evaluator.go:46-54 | scalar conditions match exactly when all of them hold |
| Policy.ScalarWhenOrderFree | core/policy/evaluator.go:47 | Go's map order does not matter for scalar conditions |
| Policy.IntegerConditionNeverMatches | core/policy/evaluator.go:48-49 | a condition that is a Go int matches no JSON argument |
| Policy.PanicNeedsComposite | core/policy/evaluator.go:49 | a comparison panics only where a map or list meets its like |
| Policy.RuleMatchesIff | core/policy/evaluator.go:33-54 | a rule matches a call exactly when it names the tool and every condition is a scalar equal to the call's own argument; arguments that are no object meet no condition |
| Policy.ValidIff | core/policy/evaluator.go:56-77 | a policy is accepted exactly when it defaults to allow or deny, every rule names a tool and one of the four actions, and every class is read or write |
| Policy.ValidPolicyDecides | core/policy/evaluator.go:79-86 | an accepted policy never yields an unsupported decision |
| Budget.SessionIdShape | cmd/gateway/session.go:45-55 | an issued ID has 36 characters, hyphens in the four places and version 4 and variant of section 5.4 of RFC 9562 |
| Budget.SessionIdsEqualIff | cmd/gateway/session.go:45-55 | two issued IDs are equal exactly when their random bytes agree in the 122 bits that are kept |
| Budget.BudgetKeyInjective | cmd/gateway/policy_gate.go:53 | budget keys of sessions of one length never collide |
| Budget.BudgetKeyCollides | cmd/gateway/policy_gate.go:53 | without the fixed length they can |
| Budget.BudgetTracker.IncrementAndGet | cmd/gateway/policy_gate.go:49-56 | one counter grows by one and is returned, the others stay |
| Budget.CountIsCallsOf | cmd/gateway/policy_gate.go:49-56 | a counter is the number of calls of its own session and turn, in any order of all calls |
| Budget.BudgetExact | cmd/gateway/policy_gate.go:150-161 | of n calls of a session and turn exactly min(n, max(0, limit)) pass, in any order with the others' |
| Budget.IssuedSessionsHaveOneLength | cmd/gateway/session.go:45-55 | the premise of the two above holds for issued sessions |
| PolicyGate.ParamsRoundTrip | cmd/gateway/policy_gate.go:241-245 | rebuilt params parse back to the same name and arguments |
| PolicyGate.ParsedIff | cmd/gateway/policy_gate.go:298-311 | a call is well formed exactly when its params are an object with a name that is a non-empty text; missing arguments are null |
| PolicyGate.RedactArguments | cmd/gateway/policy_gate.go:278-296 | exactly the listed fields that are present become the mask, anything that is no object stays |
| PolicyGate.RedactionHides | cmd/gateway/policy_gate.go:278-296 | arguments that differ only in redacted fields look the same afterwards, and masking twice changes nothing |
| PolicyGate.ContinuesIff | cmd/gateway/policy_gate.go:150-250 | a call goes on exactly when within budget and allowed, redacted, or approved on demand |
| PolicyGate.RedactedCallLeaksNothing | cmd/gateway/policy_gate.go:231-246 | a redacted call is forwarded with its name and arguments alone and noted as an allow; in both, the listed fields hold the mask and the others what they held |
| PolicyGate.PolicyGateHandler.Handle | cmd/gateway/policy_gate.go:137-250 | parse before charge, one charge, the verdict, audit records and params of the judgement; for a call that waits, lease extensions of its own session and turn, one per tick, and the tickets after insert, whatever others did during the wait, and expiry; the ID is empty after a failed insert |
| PolicyGate.TicketNamesCall | cmd/gateway/policy_gate.go:180-198 | while others only decide tickets, the inserted ticket names the call's session, turn and tool, and a failed insert leaves no row |
| GatewayProtocol.StagesMatchGate | cmd/gateway/policy_gate.go:163-250 | the protocol's stages decide as the gate's own judgement does, and a waiter goes on waiting exactly on the payloads that do not end the gate's wait |
| GatewayProtocol.InvKept | cmd/gateway/policy_gate.go:137-250 | every step of calls, clicks, publications and waits keeps the invariant that ties rows, clicks, inboxes and verdicts |
| GatewayProtocol.StepsOnlyDecidePending | cmd/gateway/ticket.go:13 | no step changes a decided row or forgets a click |
| GatewayProtocol.OnlyAuthorisedCallsAreForwarded | cmd/gateway/policy_gate.go:150-230 | in every run a forwarded call was within budget and allowed, redacted, or approved by a click on its own non-empty ticket |
| GatewayProtocol.ClickDecidesIff | cmd/gateway/slack_webhook.go:261-271 | after an acknowledged click the row has the clicked status, in every later state, if and only if the click found it pending or with that status |
| GatewayProtocol.VerdictTrueIff | cmd/gateway/slack_webhook.go:263-282 | a waiter heard one acknowledged click of the run, and its verdict is the ticket's status, then and in every later state, if and only if that click found the ticket pending or with that status |
| GatewayProtocol.ExpiryDecidesIff | cmd/gateway/approval_bridge.go:212-222 | after a timed-out wait marked its ticket, the row has expired, in every later state, if and only if nobody had decided it |
| GatewayProtocol.VerdictAgreesWithTicket | cmd/gateway/slack_webhook.go:246-282 | a ticket on which a wait ended is decided for good, and when its clicks are unanimous its status is the waiter's verdict |
| GatewayProtocol.MixedClicksCanDisagree | cmd/gateway/slack_webhook.go:263-276 | a run from the start, for every call that needs approval, in which a lost "deny" and an "approve" forward the call although its ticket is denied |
| GatewayProtocol.BudgetExactInRuns | cmd/gateway/policy_gate.go:49-56 | in every interleaving, of the n calls charged to a budget key exactly min(n, max(0, limit)) passed the budget check, and all forwarded ones are among them |
| GatewayProtocol.BudgetExactForCaller | cmd/gateway/policy_gate.go:150-161 | the same for a session and turn when all session IDs have one length, as issued ones have |
| GatewayProtocol.ForwardedWithinBudget | cmd/gateway/policy_gate.go:49-56 | in every interleaving no budget key gets more calls forwarded than the limit |
| Pipeline.RunStopsAtFirst | core/mcp/pipeline.go:26-34 | the result is that of the first handler with a response or an error, else the terminal's, on the request the earlier ones left |
| Pipeline.Pipeline.Use | core/mcp/pipeline.go:20-22 | handlers keep their order of registration |
| Pipeline.Pipeline.Run | core/mcp/pipeline.go:26-34 | the loop computes the chain over all handlers and the terminal |
| Server.InjectionKeepsCall | cmd/gateway/injector.go:45-80 | injecting session and turn into _meta leaves name, arguments and every other field alone |
| Server.InjectedIs | cmd/gateway/injector.go:45-80 | a call's context can be injected exactly when params, and _meta if there is one, are objects; then _meta holds the call's session and turn and what it held before |
| Server.ForwardedParams | cmd/gateway/main.go:96-101 | what reaches the forwarder: the client's params with the injected _meta, or after a redaction name and masked arguments without it |
| Server.JudgeTrace | cmd/gateway/policy_gate.go:150-250 | under an accepted policy the gate writes one of six traces, none only when it panics |
| Server.JudgeTells | cmd/gateway/policy_gate.go:150-250 | for every judgement, what is recorded and what is answered: "budgetExceeded" over the limit, "allow" for an allow or a redaction, "deny", "approvalRequired" with "expired" exactly after a timeout, and the refusal that goes with each |
| Server.JudgeKeeps | cmd/gateway/policy_gate.go:150-230 | without a redaction the records hold the arguments as they came and the params are handed on unchanged; reasons are given for exceeded budgets and timeouts alone |
| Server.ShapedInCheckSet | cmd/gateway/db.go:20-21 | every decision of such a trace is in the table's CHECK set |
| Server.MasksHoldIff | cmd/gateway/server.go:132-146 | for every call of a redacted tool, all records it adds hold masked arguments if and only if its context is injected, it is within budget, both locks are granted and given back, and the upstream returns no error |
| Server.AnswerIs | cmd/gateway/server.go:132-164 | with both locks granted and returned, a call that may go on gets the upstream's response and error, any other the gate's own answer |
| Server.LockTroubleIs | cmd/gateway/server.go:166-179 | a refused lock is the call's error, and a lock that cannot be given back turns a clean answer into an error, but never hides another one |
| Server.ChargedOnce | cmd/gateway/server.go:166-179 | a call is charged exactly once, under its own session and turn, when both locks were granted and its context was injected, and otherwise not |
| Server.OthersPassThrough | cmd/gateway/server.go:95-132 | any other request gets the upstream's answer, a malformed tools/call an error, and none of them is charged or recorded |
| Server.ErrorRecordIs | cmd/gateway/server.go:133-146 | the record of a failed call names its session, turn, tool, own arguments and error |
| Server.CachedAnswers | cmd/gateway/server.go:147-162 | a failed request is answered from a filled cache, and only a response without an error fills it |
| Server.GatewayServer.HandleMcpPost | cmd/gateway/server.go:88-164 | result, caches and audit log of every POST with a known session: the gate's trace, then upstream_error exactly on an error of any kind, never empty for a well-formed call; initialize past the pipeline, failed initialize and tools/list from their caches |
| Audit.Conservation | cmd/gateway/audit.go:61-101 | in every interleaving of writers, consumer turns and cancellation, accepted = attempted then queued, in order; at most 256 queued; each record attempted, queued or dropped once |
| Audit.DropMeansFull | cmd/gateway/audit.go:89-101 | a record is dropped exactly when 256 are waiting |
| Audit.TurnsDrain | cmd/gateway/audit.go:67-83 | unless the select prefers an ended context, as many turns as records are waiting attempt them all in order, and the next turn returns exactly when the context has ended |
| Audit.ReturnedAttemptsNothing | cmd/gateway/audit.go:67-71 | after the consumer has returned nothing more is attempted |
| Audit.ReturnNeedsCancel | cmd/gateway/audit.go:69-70 | it returns only after its context has ended |
| Audit.CancelledMayAttemptIff | cmd/gateway/audit.go:67-83 | from the end of its context to its return, with any later records accepted meanwhile, the consumer may attempt exactly the beginnings of queue and later records, in order, that leave no more than 256 behind |
| Audit.AuditWriter.Write | cmd/gateway/audit.go:89-101 | the non-blocking send is the write step |
| Audit.AuditWriter.Turn | cmd/gateway/audit.go:67-83 | once round the loop, whichever ready case the select takes, is the turn step, also when the insert fails |
| Forwarder.AtMostOnce | core/mcp/forwarder.go:52-67 | at most three posts, of which two at most are the original request, the first of them answered 404 or 400 under a session and a 200 initialize in between |
| Forwarder.FirstReplyDecides | core/mcp/forwarder.go:103-121 | a 404 or 400 under a session, to anything but an initialize, leads to the handshake with the original's ID; every other reply ends the call with its status or its decoded body |
| Forwarder.LastReplyDecides | core/mcp/forwarder.go:52-67 | a call returns what its last reply comes to, and an answer only from a post of the original request |
| Forwarder.CacheAfterIs | core/mcp/forwarder.go:94-110 | the cache takes the session of an initialize reply of any status, is emptied by a 404 or 400 to any other request that carried one, and else stays |
| Forwarder.TransportFailureIsFinal | core/mcp/forwarder.go:89-92 | a lost answer or a request that was not sent is never retried |
| Forwarder.RetriesIff | core/mcp/forwarder.go:58-65 | a retry happens exactly after a stale rejection and a readable 200 initialize |
| Forwarder.NothingIffStaleTwice | core/mcp/forwarder.go:62-64 | neither response nor error exactly when the retry is stale as well |
| Forwarder.AloneTheRetryUsesTheNewSession | core/mcp/forwarder.go:82-110 | without other callers the initialize carries no session, the retry carries the one just given, and only then can it be stale |
| Forwarder.EventStreamReplyDecodesAlike | core/mcp/forwarder.go:137-161 | a reply whose stream begins with one printed event decodes like the plain reply, also when the stream breaks off after it |
| Forwarder.DecodedIs | core/mcp/forwarder.go:137-175 | a plain body decodes only when it is complete, a stream by the first of its lines that starts with "data:" |
| Forwarder.UpstreamForwarder.DecodeUpstreamResponse | core/mcp/forwarder.go:137-161 | the first data line of what arrived of an event stream, or a complete plain body, decoded |
| Forwarder.UpstreamForwarder.DoRequest | core/mcp/forwarder.go:69-121 | one attempt under the session cached when it is read, its result, and the cache after it |
| Forwarder.UpstreamForwarder.RevalidateSession | core/mcp/forwarder.go:126-135 | one initialize attempt with the original's ID, of which only the error is kept |
| Forwarder.UpstreamForwarder.Handle | core/mcp/forwarder.go:52-67 | exactly the attempts that are due, whatever other callers do to the cache in between, and what they come to |
| ForwarderProtocol.SharedForwarderIsSafe | core/mcp/forwarder.go:69-121 | over all interleavings of any number of calls, cached and posted sessions are empty or issued by an initialize reply, and delivery stays at most once |
| ForwarderProtocol.FreshSessionLostIff | core/mcp/forwarder.go:103-110 | a landing reply empties a cache whose session was never refused exactly when it is a stale rejection of another session |
| ForwarderProtocol.TwoCanShareASession | core/mcp/forwarder.go:82-87 | two calls can be under way under one session, whatever they ask |
| ForwarderProtocol.LateRejectionDropsFreshSession | core/mcp/forwarder.go:103-110 | from every such state the second rejection throws away the session given after the first |
| Sse.FrameSurvivesIff | cmd/eval-runner/ui.html:433-452 | a one-line event comes back exactly when its name is not empty and neither field has outer white space |
| Sse.EventNameIs | cmd/eval-runner/ui.html:433-452 | the event name is that of the last line that starts with "event:", trimmed |
| Sse.DataLinesAre | cmd/eval-runner/ui.html:433-452 | the data are all lines that start with "data:", in order, trimmed |
| Sse.ParsedFrameIff | cmd/eval-runner/ui.html:433-452 | a frame makes an event exactly when it has a name and data, and the data lines can be told apart again |
| Sse.SpacesDiffer | cmd/eval-runner/ui.html:433-452 | page and gateway trim the same characters but U+0085 and U+FEFF |
| Sse.PrintedIs | cmd/eval-runner/stream.go:30 | the text of an event |
| Sse.DrainAppend | cmd/eval-runner/ui.html:419-430 | taking frames is incremental: the rest with more text continues where it stopped |
| Sse.ParseSSEFrame | cmd/eval-runner/ui.html:433-452 | the loop computes last event name and all data lines |
| Sse.TakeFrames | cmd/eval-runner/ui.html:423-429 | the inner loop hands over every complete frame, in order, and keeps the rest |
| Sse.ReadSSE | cmd/eval-runner/ui.html:410-431 | for every cutting into chunks, the events and the buffer are those of the whole text |
| Sse.RoundTrip | cmd/eval-runner/stream.go:25-40 | printed events are read back exactly, with an empty buffer, under every cutting into chunks |
| Sse.ReadFirstSSEData | core/mcp/forwarder.go:163-175 | the trimmed first data line, or none |
| Sse.FirstDataOfPrinted | core/mcp/forwarder.go:163-175 | for printed events that is the first event's data |
| Sse.FirstDataIs | core/mcp/forwarder.go:163-175 | it is the first line that starts with "data:" and no later one, whether or not lines end in a carriage return |
| Stream.RunEvalCase | cmd/eval-runner/execution.go:5-19 | a failed run is one failure named "run", a trace is judged by the four checks |
| Stream.SummarizeResults | cmd/eval-runner/execution.go:21-36 | counts, verdict, cases and report of the results |
| Stream.SummaryAgreesWithReport | cmd/eval-runner/execution.go:21-36 | the summary passes exactly when the report ends in PASS and exactly when all cases passed |
| Stream.WriteSSE | cmd/eval-runner/stream.go:25-40 | a write that fails leaves a beginning of the event, or all of it when only the flush is missing |
| Stream.EventsAre | cmd/eval-runner/stream.go:42-56 | each kind of payload goes out under its own one of the three event names |
| Stream.PlayedAt | cmd/eval-runner/stream.go:45-54 | case i is announced in place 2i and reported in the next, each with its own name, index and result |
| Stream.StreamEvalSuite | cmd/eval-runner/stream.go:42-56 | every case announced, run and reported in order, the summary last; the first failed write ends the stream, and a case whose announcement failed is not run |
| Stream.PageSeesWhatWasSent | cmd/eval-runner/ui.html:410-452 | wherever the connection breaks and however the text is cut, the page handles exactly the events that arrived whole, in order |
| TraceChecks.EvaluateMustInclude | cmd/eval-runner/evaluator.go:23-56 | no failure exactly when the tools form a subsequence of the trace, else the element after the longest matchable prefix |
| TraceChecks.EvaluateMustNotInclude | cmd/eval-runner/evaluator.go:58-80 | one failure per forbidden row, in trace order |
| TraceChecks.ForbiddenRowsAre | cmd/eval-runner/evaluator.go:58-80 | the failures are those of exactly the forbidden rows, in trace order |
| TraceChecks.OutcomeFailureIff | cmd/eval-runner/evaluator.go:82-104 | one failure exactly when an outcome is asked for and the last row has another or there is none |
| TraceChecks.EvaluateMustNotContainInArgs | cmd/eval-runner/evaluator.go:106-127 | one failure per forbidden text that occurs, with the first arguments that contain it |
| TraceChecks.ArgFailuresAre | cmd/eval-runner/evaluator.go:106-127 | the failures are those of exactly the texts that occur, in their order, each with the first arguments that contain it |
| TraceChecks.ContainsIff | cmd/eval-runner/evaluator.go:115 | a text contains another exactly when it is that text with something before and after |
| TraceChecks.PassesIffMeets | cmd/eval-runner/evaluator.go:5-21 | a case passes exactly when subsequence, absence, last decision and argument texts are all as asked |
| TraceChecks.Evaluate | cmd/eval-runner/evaluator.go:5-21 | all failures of the four checks in their order, and the pass flag |
| Report.SanitizedIsSafe | cmd/eval-runner/reporter.go:81-90 | a cell has no line break and no pipe without a backslash before it |
| Report.SanitizeKeepsIff | cmd/eval-runner/reporter.go:81-90 | a cell is left as it is exactly when it has no break and no pipe |
| Report.SanitizeConcat | cmd/eval-runner/reporter.go:81-90 | a cell is made piece by piece; only a two-character line break must not be cut |
| Report.SanitizePieces | cmd/eval-runner/reporter.go:81-90 | each kind of line break becomes one tag, a pipe gets a backslash, other characters stay |
| Report.SanitizeFailureCase | cmd/eval-runner/reporter.go:92-106 | the failures of a case, sanitised, in order |
| Report.GenerateReport | cmd/eval-runner/reporter.go:29-62 | the loop builds the report of rows, counts and failed cases |
| Report.ReportLayout | cmd/eval-runner/reporter.go:10-27 | the report's lines one by one, whatever names and messages contain: 6 + cases + Σ over failed cases of (4 + its failures) |
| Report.CaseLineIs | cmd/eval-runner/reporter.go:10-14 | line 2 + i names case i and ends in PASS exactly when it passed, else in FAIL |
| Report.FixedLinesAre | cmd/eval-runner/reporter.go:10-27 | the table's head, the count line with the number of passed cases and of all, and the verdict with the number of failed ones |
| Report.FailureSectionIs | cmd/eval-runner/reporter.go:17-24 | every failed case has its section, after those of the failed cases before it, with one line per failure |
| Report.ItoaReads | cmd/eval-runner/reporter.go:78 | the digits of a count stand for it |
| Report.CountsAddUp | cmd/eval-runner/reporter.go:29-62 | passed and failed cases add up to all, and none failed exactly when all passed |
| Report.VerdictMatchesExitCode | cmd/eval-runner/reporter.go:73-79 | the last line is PASS exactly when all passed and exactly when passed equals total |
| Report.ExitCode | cmd/eval-runner/reporter.go:64-71 | 0 exactly when every case passed |

## Left out

- Redis, Postgres, HTTP and Docker clients: each is an abstract state with atomic steps. A script runs at most once per
  request; retries inside the Redis client and its millisecond clock are not part of this model.
- Signature, token and replay-window checks of the webhook (cmd/gateway/slack_webhook.go:147-233): an accepted click is
  where the model begins.
- The approval notifier, its goroutine and its cards, loggers, health probes and the GET keepalive stream: they do not
  touch the properties above. The classifier is an arbitrary function from tool name to read or write.
- The session registry: a POST without a known session is refused before it reaches the model. JSON-RPC IDs, which a
  cached answer takes over from the request, are not modelled.
- Parsing of YAML, of JSON text and of configuration: policies, suites and JSON values are typed from the start. JSON
  numbers are told apart but not rounded, field names are matched exactly, UTF-8 decoding and JSON.parse of the page
  are not modelled, and a line of an event stream has no length limit.
- Go integer widths: counters, TTLs and times are unbounded.
- A server without a guard or without a pipeline, and the second turn ID drawn for a request without a turn header.
- The design in v1.md beyond the gap it names.
- ApprovalBridge.ApprovalBridge.WaitForDecision: signals are taken in one given order, for every such order; which of
  several ready channels Go picks is part of that order. An end of the list stands for the timer.
- Server.GatewayServer.HandleMcpPost: how the two locks go is a parameter, since ConcurrencyGuard.ConcurrencyGuard.Execute
  says when they go which way; the texts of lock errors are not modelled.
- Keepalive.WaitNeverLosesLease: lateness and start delay are bounded by hypothesis, as nothing in the code bounds them,
  and the session's keys are the waiter's alone; LockTiming.PromptRunsAreSafe covers the other calls.
- LockProtocol.LeasedRunsAreSafe: a write token is taken to be new for each call; the code draws 122 random bits.
- GatewayProtocol.VerdictAgreesWithTicket: ticket IDs are taken to be new for each row, as the database generates them.
- Budget.BudgetExact: the callers' sessions have one length, which Budget.IssuedSessionsHaveOneLength gives for issued ones.
- GatewayProtocol.BudgetExactForCaller: the same premise, for the calls of the run.
- Stream.PageSeesWhatWasSent: the encoder is taken to write compact JSON, without line breaks and outer white space.
