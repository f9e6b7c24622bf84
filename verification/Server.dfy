/** cmd/gateway/server.go with the pipeline of cmd/gateway/main.go: what one POST leaves in the
    audit log, and what reaches the upstream. */
module Server {
  import opened Wrappers
  import opened Policy
  import opened PolicyGate
  import P = Pipeline
  import B = Budget
  import A = ApprovalBridge
  import G = ConcurrencyGuard
  import RL = RedisLink

  /** What the upstream forwarder returns; both parts are empty after a second stale rejection. */
  datatype Upstream = Upstream(resp: Option<Response>, err: Option<string>)

  /** A request with its context and what its surroundings will decide. */
  datatype Req =
    Req(session: string, turn: string, rpcMethod: string, params: Value, wait: A.Verdict, upstream: Upstream)

  datatype GateState = GateState(counts: B.Counts, audits: seq<AuditRecord>)

  /** An error return or a panic on its way up. */
  datatype Trouble = Failed(msg: string) | Panicking(msg: string)

  type Turn = P.Turn<GateState, Req, Response, Trouble>

  type Handler = P.Handler<GateState, Req, Response, Trouble>

  function Logger(s: GateState, q: Req): Turn {
    P.Turn(s, q, None, None)
  }

  /** Session and turn are written into params._meta; a null _meta is a nil map and panics. */
  function Injected(params: Value, session: string, turn: string): Value
    requires params.Object?
    requires "_meta" in params.fields ==> params.fields["_meta"].Object?
  {
    var meta := if "_meta" in params.fields then params.fields["_meta"].fields else map[];
    Object(params.fields["_meta" := Object(meta["sessionId" := Str(session)]["turnId" := Str(turn)])])
  }

  function Injector(s: GateState, q: Req): Turn {
    if q.rpcMethod != "tools/call" then P.Turn(s, q, None, None)
    else if q.params == Null then P.Turn(s, q, None, Some(Panicking("assignment to entry in nil map")))
    else if !q.params.Object? then P.Turn(s, q, None, Some(Failed("meta injection failed")))
    else if "_meta" in q.params.fields && q.params.fields["_meta"] == Null then
      P.Turn(s, q, None, Some(Panicking("assignment to entry in nil map")))
    else if "_meta" in q.params.fields && !q.params.fields["_meta"].Object? then
      P.Turn(s, q, None, Some(Failed("meta injection failed")))
    else P.Turn(s, q.(params := Injected(q.params, q.session, q.turn)), None, None)
  }

  /** PolicyGateHandler.Handle as a pipeline handler. */
  function Gate(policy: AgentPolicy): Handler {
    (s: GateState, q: Req) =>
      if q.rpcMethod != "tools/call" then P.Turn(s, q, None, None)
      else
        match ParseToolCallParams(q.params)
        case Malformed => P.Turn(s, q, None, Some(Failed("policy gate params parse failed")))
        case Parsed(tool, args) =>
          var key := B.BudgetKey(q.session, q.turn);
          var g := Judge(policy, B.CountOf(s.counts, key) + 1, q.session, q.turn, q.params, tool, args, q.wait);
          var s' := GateState(B.Increment(s.counts, key), s.audits + g.audits);
          var q' := q.(params := g.params);
          match g.verdict
          case Continue => P.Turn(s', q', None, None)
          case Respond(r) => P.Turn(s', q', Some(r), None)
          case Fail(why) => P.Turn(s', q', None, Some(Failed(why)))
          case Panics => P.Turn(s', q', None, Some(Panicking("comparing uncomparable type")))
  }

  function Forward(s: GateState, q: Req): Turn {
    P.Turn(s, q, q.upstream.resp, if q.upstream.err.Some? then Some(Failed(q.upstream.err.value)) else None)
  }

  function Handlers(policy: AgentPolicy): seq<Handler> {
    [Logger, Injector, Gate(policy)]
  }

  function Pass(policy: AgentPolicy, s: GateState, q: Req): Turn {
    P.RunAll(Handlers(policy), Forward, s, q)
  }

  /** The pipeline is the injector, the gate on what it left, and the forwarder on what that left. */
  lemma PassUnfolded(policy: AgentPolicy, s: GateState, q: Req)
    ensures var i := Injector(s, q);
            Pass(policy, s, q) ==
              if !P.Passes(i) then i
              else
                var g := Gate(policy)(i.state, i.req);
                if !P.Passes(g) then g else Forward(g.state, g.req)
  {
    var h := Handlers(policy);
    var gate: seq<Handler> := [Gate(policy)];
    assert h[1..] == [Injector] + gate && ([Injector] + gate)[1..] == gate && gate[1..] == [];
    var i := Injector(s, q);
    assert P.RunAll(h, Forward, s, q) == P.RunAll([Injector] + gate, Forward, s, q);
    assert P.RunAll([Injector] + gate, Forward, s, q) ==
           if P.Passes(i) then P.RunAll(gate, Forward, i.state, i.req) else i;
    if P.Passes(i) {
      var g := Gate(policy)(i.state, i.req);
      assert P.RunAll(gate, Forward, i.state, i.req) ==
             if P.Passes(g) then P.RunAll([], Forward, g.state, g.req) else g;
    }
  }

  /** Injection adds to _meta only: name and arguments parse as before. */
  lemma InjectionKeepsCall(params: Value, session: string, turn: string)
    requires params.Object? && ("_meta" in params.fields ==> params.fields["_meta"].Object?)
    ensures ParseToolCallParams(Injected(params, session, turn)) == ParseToolCallParams(params)
    ensures forall k | k in params.fields && k != "_meta" ::
      Injected(params, session, turn).fields[k] == params.fields[k]
  {
  }

  predicate WellFormedCall(q: Req) {
    q.rpcMethod == "tools/call" && ParseToolCallParams(q.params).Parsed?
  }

  /** What the forwarder is handed for a call it serves: after an allowing decision the client's
      params with session and turn in _meta; after a redacting one name and masked arguments alone,
      so the injected _meta is gone. */
  lemma ForwardedParams(policy: AgentPolicy, s: GateState, q: Req)
    requires WellFormedCall(q) && P.Passes(Injector(s, q))
    requires P.Passes(Gate(policy)(Injector(s, q).state, Injector(s, q).req))
    ensures var call := ParseToolCallParams(q.params);
            var d := Evaluate(policy, call.name, call.arguments);
            var sent := Gate(policy)(Injector(s, q).state, Injector(s, q).req).req.params;
            && d.Some?
            && sent == (if d.value.action == Redact
              then CallParams(call.name, Redacted(call.arguments, d.value.redactFields))
                        else Injected(q.params, q.session, q.turn))
            && ("_meta" in sent.fields <==> d.value.action != Redact)
  {
    InjectionKeepsCall(q.params, q.session, q.turn);
  }

  // ---------- the audit trace of one call ----------

  function Decisions(records: seq<AuditRecord>): seq<string> {
    if records == [] then [] else Decisions(records[..|records| - 1]) + [records[|records| - 1].decision]
  }

  /** What the gate may write for one call. */
  const GATE_TRACES: set<seq<string>> :=
    {[], ["budgetExceeded"], ["deny"], ["allow"], ["approvalRequired"], ["approvalRequired", "expired"]}

  /** The values the audit_log CHECK constraint admits. */
  const CHECK_SET: set<string> :=
    {"allow", "deny", "approvalRequired", "budgetExceeded", "upstream_error", "expired"}

  predicate Shaped(trace: seq<string>, failed: bool) {
    && trace != []
    && (if failed then trace[|trace| - 1] == "upstream_error" && trace[..|trace| - 1] in GATE_TRACES
        else trace in GATE_TRACES)
  }

  lemma ShapedInCheckSet(trace: seq<string>, failed: bool)
    requires Shaped(trace, failed)
    ensures forall d | d in trace :: d in CHECK_SET
  {
    forall i | 0 <= i < |trace| ensures trace[i] in CHECK_SET {
      var front := if failed then trace[..|trace| - 1] else trace;
      if i < |front| {
        assert front[i] == trace[i];
      }
    }
  }

  /** Under an accepted policy the gate writes one of its six traces, nothing only when it panics. */
  lemma JudgeTrace(policy: AgentPolicy, count: int, session: string, turn: string, params: Value, tool: string,
      args: Value, wait: A.Verdict)
    requires ValidatePolicy(policy) == None
    ensures var g := Judge(policy, count, session, turn, params, tool, args, wait);
            && Decisions(g.audits) in GATE_TRACES
            && (g.audits == [] <==> g.verdict == Panics)
            && !g.verdict.Fail?
  {
    hide Evaluate, ValidatePolicy, Redacted;
    ValidPolicyDecides(policy, tool, args);
    var g := Judge(policy, count, session, turn, params, tool, args, wait);
    if |g.audits| == 1 {
      assert g.audits == [g.audits[0]];
      DecisionsOfOne(g.audits[0]);
    } else if |g.audits| == 2 {
      assert g.audits == [g.audits[0], g.audits[1]];
      DecisionsOfTwo(g.audits[0], g.audits[1]);
    }
  }

  /** What the gate records and answers, in its own words: budgetExceeded over the limit; within it the
      decision, and expired after it when the approval timed out; a redaction is recorded as an allow. */
  lemma JudgeTells(policy: AgentPolicy, count: int, session: string, turn: string, params: Value, tool: string,
                   args: Value, wait: A.Verdict)
    ensures var g := Judge(policy, count, session, turn, params, tool, args, wait);
            var d := Evaluate(policy, tool, args);
            if count > policy.maxToolCallsPerTurn then
              Decisions(g.audits) == ["budgetExceeded"] && g.verdict == Refusal("tool-call budget exceeded")
            else if d == None then Decisions(g.audits) == [] && g.verdict == Panics
            else
              match d.value.action
              case Allow => Decisions(g.audits) == ["allow"] && g.verdict == Continue
              case Redact => Decisions(g.audits) == ["allow"] && g.verdict == Continue
              case Deny => Decisions(g.audits) == ["deny"] && g.verdict == Refusal("denied by policy")
              case ApprovalRequired =>
                if wait == A.ApprovalTimeout then
                  Decisions(g.audits) == ["approvalRequired", "expired"] && g.verdict == Refusal("approval timeout")
                else
                  && Decisions(g.audits) == ["approvalRequired"]
                  && g.verdict == if wait.Decided? && wait.approved then Continue else Refusal("approval denied")
              case Unknown(text) => Decisions(g.audits) == [text] && g.verdict.Fail?
    ensures forall a | a in Judge(policy, count, session, turn, params, tool, args, wait).audits ::
              a.session == session && a.turn == turn && a.tool == tool
  {
    hide Evaluate, Redacted;
    var g := Judge(policy, count, session, turn, params, tool, args, wait);
    if |g.audits| == 1 {
      assert g.audits == [g.audits[0]];
      DecisionsOfOne(g.audits[0]);
    } else if |g.audits| == 2 {
      assert g.audits == [g.audits[0], g.audits[1]];
      DecisionsOfTwo(g.audits[0], g.audits[1]);
    }
  }

  /** What else the gate records and hands on: without a redaction the arguments and params as they came, and
      a reason for the two decisions that are not the policy's. */
  lemma JudgeKeeps(policy: AgentPolicy, count: int, session: string, turn: string, params: Value, tool: string,
                   args: Value, wait: A.Verdict)
    ensures var g, d := Judge(policy, count, session, turn, params, tool, args, wait), Evaluate(policy, tool, args);
            && (count > policy.maxToolCallsPerTurn || d == None || d.value.action != Redact ==>
                  g.params == params && forall a | a in g.audits :: a.arguments == args)
            && forall i | 0 <= i < |g.audits| ::
                 g.audits[i].reason == if count > policy.maxToolCallsPerTurn then "maxToolCallsPerTurn exceeded"
                                       else if i == 1 then "approval timeout" else ""
  {
    hide Evaluate, Redacted;
  }

  /** A policy refusal as the client sees it. */
  function Refusal(message: string): Verdict {
    Respond(ErrorResponse(-32001, message))
  }

  lemma DecisionsOfOne(a: AuditRecord)
    ensures Decisions([a]) == [a.decision]
  {
    assert [a][..0] == [];
  }

  lemma DecisionsOfTwo(a: AuditRecord, b: AuditRecord)
    ensures Decisions([a, b]) == [a.decision, b.decision]
  {
    assert [a, b][..1] == [a];
    DecisionsOfOne(a);
  }

  /** The gate's records are the only ones a pipeline run adds. */
  lemma PassAudits(policy: AgentPolicy, s: GateState, q: Req) returns (added: seq<AuditRecord>)
    requires ValidatePolicy(policy) == None && WellFormedCall(q)
    ensures Pass(policy, s, q).state.audits == s.audits + added
    ensures Decisions(added) in GATE_TRACES
    ensures added == [] ==> Pass(policy, s, q).err.Some?
  {
    PassUnfolded(policy, s, q);
    var i := Injector(s, q);
    if P.Passes(i) {
      InjectionKeepsCall(q.params, q.session, q.turn);
      var call := ParseToolCallParams(q.params);
      var count := B.CountOf(s.counts, B.BudgetKey(q.session, q.turn)) + 1;
      JudgeTrace(policy, count, q.session, q.turn, i.req.params, call.name, call.arguments, q.wait);
      added := Judge(policy, count, q.session, q.turn, i.req.params, call.name, call.arguments, q.wait).audits;
    } else {
      added := [];
    }
  }

  /** The guarded function as ConcurrencyGuard sees it. */
  function BodyOf(t: Turn): G.Body<Response> {
    match t.err
    case Some(Panicking(msg)) => G.Panicked(msg)
    case Some(Failed(msg)) => G.Returned(t.resp, Some(msg))
    case None => G.Returned(t.resp, None)
  }

  /** How the locks around the call go. */
  datatype LockFate =
    | SessionRefused(why: RL.LockResult)
    | TurnRefused(why: RL.LockResult)
    | Granted(unlocked: bool, released: bool)

  function ErrorText(e: G.Error): string {
    match e
    case FromWork(msg) => msg
    case FromPanic(msg) => "panic during guarded execution: " + msg
    case _ => "lock error"
  }

  /** What a POST gives back and leaves behind. */
  datatype Posted = Posted(result: G.Settlement<Response>, state: GateState)

  /** The pipeline under the guard: a refused lock keeps the pipeline from being run. */
  function RunPipeline(policy: AgentPolicy, s: GateState, q: Req, locks: LockFate): Posted {
    match locks
    case SessionRefused(why) => Posted(G.Settlement(None, Some(G.SessionBusy(why))), s)
    case TurnRefused(why) => Posted(G.Settlement(None, Some(G.TurnBusy(why))), s)
    case Granted(unlocked, released) =>
      var t := Pass(policy, s, q);
      Posted(G.Settle(BodyOf(t), unlocked, released), t.state)
  }

  /** The record of a call that ended in an error: it holds the client's own arguments. */
  function ErrorRecord(q: Req, e: G.Error): AuditRecord
    requires WellFormedCall(q)
  {
    var call := ParseToolCallParams(q.params);
    AuditRecord(q.session, q.turn, call.name, call.arguments, "upstream_error", ErrorText(e))
  }

  function Post(policy: AgentPolicy, s: GateState, q: Req, locks: LockFate): Posted
    requires WellFormedCall(q)
  {
    var p := RunPipeline(policy, s, q, locks);
    if p.result.err == None then p
    else p.(state := p.state.(audits := p.state.audits + [ErrorRecord(q, p.result.err.value)]))
  }

  /** What the client of a well-formed call gets when both locks are granted and given back: the gate's own
      answer when it gives one, else the upstream's response, and the upstream's error with it if any. */
  lemma AnswerIs(policy: AgentPolicy, s: GateState, q: Req)
    requires WellFormedCall(q) && P.Passes(Injector(s, q))
    ensures var call := ParseToolCallParams(q.params);
            var count := B.CountOf(s.counts, B.BudgetKey(q.session, q.turn)) + 1;
            var verdict := Judge(policy, count, q.session, q.turn, Injector(s, q).req.params, call.name,
              call.arguments, q.wait).verdict;
            var r := Post(policy, s, q, Granted(true, true)).result;
            && (verdict == Continue && q.upstream.err == None ==> r == G.Settlement(q.upstream.resp, None))
            && (verdict == Continue && q.upstream.err.Some? ==>
                  r == G.Settlement(q.upstream.resp, Some(G.FromWork(q.upstream.err.value))))
            && (verdict.Respond? ==> r == G.Settlement(Some(verdict.resp), None))
            && (verdict.Fail? || verdict == Panics ==> r.err.Some?)
  {
    hide Judge;
    InjectionKept(s, q);
    PassUnfolded(policy, s, q);
  }

  /** Anything but a tools/call passes every handler and gets what the upstream gives, and so does an
      initialize, which goes past them; a malformed tools/call is refused. None of them is charged or
      recorded. */
  lemma OthersPassThrough(policy: AgentPolicy, s: GateState, q: Req)
    requires !WellFormedCall(q)
    ensures Pass(policy, s, q).state == s
    ensures Greeting(q) == G.Settlement(q.upstream.resp, match q.upstream.err
                                                         case None => None
                                                         case Some(msg) => Some(G.FromWork(msg)))
    ensures q.rpcMethod != "tools/call" ==> Unguarded(policy, s, q) == Greeting(q)
    ensures q.rpcMethod == "tools/call" ==> Unguarded(policy, s, q).resp == None && Unguarded(policy, s, q).err.Some?
  {
    PassUnfolded(policy, s, q);
    if P.Passes(Injector(s, q)) && q.rpcMethod == "tools/call" {
      InjectionKeepsCall(q.params, q.session, q.turn);
    }
  }

  /** What the locks do to a call: one that is refused keeps the pipeline from being run, and one that cannot
      be given back turns a clean answer into an error, the turn lock's before the session's. */
  lemma LockTroubleIs(policy: AgentPolicy, s: GateState, q: Req, locks: LockFate)
    requires WellFormedCall(q)
    ensures var r, clean := Post(policy, s, q, locks).result, Post(policy, s, q, Granted(true, true)).result;
            && (forall why :: locks == SessionRefused(why) ==> r == G.Settlement(None, Some(G.SessionBusy(why))))
            && (forall why :: locks == TurnRefused(why) ==> r == G.Settlement(None, Some(G.TurnBusy(why))))
            && (locks.Granted? && clean.err.Some? ==> r == clean)
            && (locks.Granted? && clean.err == None ==>
                  r == if !locks.unlocked then G.Settlement(None, Some(G.TurnUnlockFailed))
                       else if !locks.released then G.Settlement(None, Some(G.SessionReleaseFailed)) else clean)
  {
  }

  /** A call is charged once, under its own session and turn, exactly when it reaches the gate: both locks
      were granted and its context could be injected. Whatever becomes of it afterwards, it stays charged. */
  lemma ChargedOnce(policy: AgentPolicy, s: GateState, q: Req, locks: LockFate, key: string)
    requires WellFormedCall(q)
    ensures var p := Post(policy, s, q, locks);
            B.CountOf(p.state.counts, key)
            == B.CountOf(s.counts, key)
               + if key == q.session + ":" + q.turn && locks.Granted? && P.Passes(Injector(s, q)) then 1 else 0
  {
    hide Judge;
    if P.Passes(Injector(s, q)) {
      InjectionKept(s, q);
    }
    PassUnfolded(policy, s, q);
  }

  /** The context that is injected, and when it can be. */
  lemma InjectedIs(s: GateState, q: Req)
    requires q.rpcMethod == "tools/call"
    ensures P.Passes(Injector(s, q)) <==>
            q.params.Object? && ("_meta" in q.params.fields ==> q.params.fields["_meta"].Object?)
    ensures P.Passes(Injector(s, q)) ==>
            var sent := Injector(s, q).req.params;
            && sent.Object? && "_meta" in sent.fields && sent.fields["_meta"].Object?
            && var meta := sent.fields["_meta"].fields;
            && "sessionId" in meta && meta["sessionId"] == Str(q.session)
            && "turnId" in meta && meta["turnId"] == Str(q.turn)
            && ("_meta" in q.params.fields ==>
                  forall k | k in q.params.fields["_meta"].fields && k != "sessionId" && k != "turnId" ::
                    k in meta && meta[k] == q.params.fields["_meta"].fields[k])
  {
  }

  /** The record of a failed call. */
  lemma ErrorRecordIs(q: Req, e: G.Error)
    requires WellFormedCall(q)
    ensures var r := ErrorRecord(q, e);
            && r.decision == "upstream_error" && r.session == q.session && r.turn == q.turn
            && r.tool == ParseToolCallParams(q.params).name && r.arguments == ParseToolCallParams(q.params).arguments
            && (forall msg :: e == G.FromWork(msg) ==> r.reason == msg)
            && (forall msg :: e == G.FromPanic(msg) ==> r.reason == "panic during guarded execution: " + msg)
  {
  }

  /** A failed request is answered from a cache that holds something, a good answer fills it, and nothing
      else changes either. */
  lemma CachedAnswers(r: G.Settlement<Response>, cached: Option<Response>)
    ensures r.err.Some? && cached.Some? ==> OrCached(r, cached).resp == cached && OrCached(r, cached).err == None
    ensures r.err == None || cached == None ==> OrCached(r, cached) == r
    ensures CacheAfter(r, cached) != cached ==> r.err == None && CacheAfter(r, cached) == r.resp
    ensures r.err == None && r.resp.Some? ==> CacheAfter(r, cached) == r.resp
    ensures r.err.Some? || r.resp == None ==> CacheAfter(r, cached) == cached
  {
  }

  /** A call of a redacted tool is served: its context is injected, it is within budget, and upstream, turn
      unlock and session release all succeed. */
  predicate Served(policy: AgentPolicy, s: GateState, q: Req, locks: LockFate) {
    && P.Passes(Injector(s, q))
    && B.CountOf(s.counts, B.BudgetKey(q.session, q.turn)) + 1 <= policy.maxToolCallsPerTurn
    && locks == Granted(true, true)
    && q.upstream.err == None
  }

  /** Every record a call added holds these arguments. */
  predicate AddedAll(before: seq<AuditRecord>, after: seq<AuditRecord>, arguments: Value) {
    forall i | |before| <= i < |after| :: after[i].arguments == arguments
  }

  lemma RawRecordBreaks(before: seq<AuditRecord>, after: seq<AuditRecord>, arguments: Value, i: nat)
    requires |before| <= i < |after| && after[i].arguments != arguments
    ensures !AddedAll(before, after, arguments)
  {
  }

  /** The masks of a redacted call hold in the audit log if and only if the call is served: the gate
      records masked arguments, but budgetExceeded and upstream_error record them as they came, and so
      does every error, also that of a lock that was refused. */
  lemma MasksHoldIff(policy: AgentPolicy, s: GateState, q: Req, locks: LockFate)
    requires WellFormedCall(q)
    requires var call := ParseToolCallParams(q.params);
             var d := Evaluate(policy, call.name, call.arguments);
             d.Some? && d.value.action == Redact && Redacted(call.arguments, d.value.redactFields) != call.arguments
    ensures var call := ParseToolCallParams(q.params);
            var masked := Redacted(call.arguments, Evaluate(policy, call.name, call.arguments).value.redactFields);
            var p := Post(policy, s, q, locks);
            && s.audits < p.state.audits
            && (AddedAll(s.audits, p.state.audits, masked) <==> Served(policy, s, q, locks))
  {
    var call := ParseToolCallParams(q.params);
    var masked := Redacted(call.arguments, Evaluate(policy, call.name, call.arguments).value.redactFields);
    var p := Post(policy, s, q, locks);
    if locks.Granted? {
      RedactedPass(policy, s, q);
    }
    if p.result.err.Some? {
      var last := |p.state.audits| - 1;
      assert p.state.audits[last] == ErrorRecord(q, p.result.err.value);
      RawRecordBreaks(s.audits, p.state.audits, masked, last);
    } else if B.CountOf(s.counts, B.BudgetKey(q.session, q.turn)) + 1 > policy.maxToolCallsPerTurn {
      RawRecordBreaks(s.audits, p.state.audits, masked, |s.audits|);
    }
  }

  /** What the pipeline makes of a call of a redacted tool. */
  lemma RedactedPass(policy: AgentPolicy, s: GateState, q: Req)
    requires WellFormedCall(q)
    requires var call := ParseToolCallParams(q.params);
             var d := Evaluate(policy, call.name, call.arguments);
             d.Some? && d.value.action == Redact
    ensures var call := ParseToolCallParams(q.params);
            var masked := Redacted(call.arguments, Evaluate(policy, call.name, call.arguments).value.redactFields);
            var t := Pass(policy, s, q);
            if !P.Passes(Injector(s, q)) then t.state.audits == s.audits && t.err.Some?
            else if B.CountOf(s.counts, B.BudgetKey(q.session, q.turn)) + 1 > policy.maxToolCallsPerTurn then
              |t.state.audits| == |s.audits| + 1 && s.audits < t.state.audits && t.err == None
              && t.state.audits[|s.audits|].arguments == call.arguments
            else
              |t.state.audits| == |s.audits| + 1 && s.audits < t.state.audits
              && t.state.audits[|s.audits|].arguments == masked
              && (t.err.Some? <==> q.upstream.err.Some?)
  {
    PassUnfolded(policy, s, q);
    if P.Passes(Injector(s, q)) {
      InjectionKept(s, q);
    }
  }

  lemma InjectionKept(s: GateState, q: Req)
    requires WellFormedCall(q) && P.Passes(Injector(s, q))
    ensures ParseToolCallParams(Injector(s, q).req.params) == ParseToolCallParams(q.params)
  {
    InjectionKeepsCall(q.params, q.session, q.turn);
  }

  /** What the pipeline makes of a request that takes no locks. */
  function Unguarded(policy: AgentPolicy, s: GateState, q: Req): G.Settlement<Response> {
    G.Settle(BodyOf(Pass(policy, s, q)), true, true)
  }

  /** What the upstream makes of an initialize, which goes to the forwarder past the pipeline. */
  function Greeting(q: Req): G.Settlement<Response> {
    G.Settlement(q.upstream.resp, if q.upstream.err.Some? then Some(G.FromWork(q.upstream.err.value)) else None)
  }

  /** An answer from the cache in place of an error, if the cache holds one. */
  function OrCached(r: G.Settlement<Response>, cached: Option<Response>): G.Settlement<Response> {
    if r.err.Some? && cached.Some? then G.Settlement(cached, None) else r
  }

  /** The cache after an answer: only a response without an error replaces it. */
  function CacheAfter(r: G.Settlement<Response>, cached: Option<Response>): Option<Response> {
    if r.err == None && r.resp.Some? then r.resp else cached
  }

  class GatewayServer {
    const policy: AgentPolicy
    const pipeline: P.Pipeline<GateState, Req, Response, Trouble>
    var state: GateState
    var initResp: Option<Response>
    var toolResp: Option<Response>

    ghost predicate Valid()
      reads pipeline
    {
      pipeline.handlers == Handlers(policy) && pipeline.terminal == Forward
    }

    /** Registers the handlers in the order of buildGatewayServer. */
    constructor (policy: AgentPolicy)
      ensures Valid() && this.policy == policy && state == GateState(map[], []) && initResp == toolResp == None
    {
      this.policy := policy;
      pipeline := new P.Pipeline(Forward);
      state := GateState(map[], []);
      initResp, toolResp := None, None;
      new;
      pipeline.Use(Logger);
      pipeline.Use(Injector);
      pipeline.Use(Gate(policy));
      assert pipeline.handlers == Handlers(policy);
    }

    /** One POST. A well-formed tools/call under an accepted policy adds a non-empty trace: what the
        gate wrote, and then upstream_error exactly when the call ended in an error, be it the
        upstream's, a refused lock, a failed release or a panic. Any other request adds nothing; an
        initialize goes past the pipeline, and a failed initialize or tools/list is answered from the
        cache of the last good one. */
    method HandleMcpPost(q: Req, locks: LockFate) returns (r: G.Settlement<Response>)
      requires Valid()
      modifies this`state, this`initResp, this`toolResp
      ensures WellFormedCall(q) && ValidatePolicy(policy) == None ==>
                && old(state.audits) <= state.audits
                && Shaped(Decisions(state.audits[|old(state.audits)|..]), r.err.Some?)
      ensures WellFormedCall(q) ==> Posted(r, state) == Post(policy, old(state), q, locks)
      ensures q.rpcMethod == "initialize" ==> r == OrCached(Greeting(q), old(initResp)) && state == old(state)
      ensures q.rpcMethod != "initialize" && !WellFormedCall(q) ==>
                && r == (if q.rpcMethod == "tools/list" then OrCached(Unguarded(policy, old(state), q), old(toolResp))
                         else Unguarded(policy, old(state), q))
                && state == Pass(policy, old(state), q).state && state.audits == old(state.audits)
      ensures initResp == if q.rpcMethod == "initialize" then CacheAfter(Greeting(q), old(initResp)) else old(initResp)
      ensures toolResp == if q.rpcMethod == "tools/list"
        then CacheAfter(Unguarded(policy, old(state), q), old(toolResp))
                          else old(toolResp)
    {
      hide Pass, Shaped, BodyOf, ValidatePolicy;
      ghost var before := state;
      if q.rpcMethod == "initialize" {
        r := Greeting(q);
        if r.err.Some? {
          if initResp.Some? {
            r := G.Settlement(initResp, None);
          }
        } else if r.resp.Some? {
          initResp := r.resp;
        }
        return;
      }
      var call := if q.rpcMethod == "tools/call" then ParseToolCallParams(q.params) else Malformed;
      if call == Malformed {
        var t := RunHandlers(q);
        PassQuiet(policy, state, q);
        state := t.state;
        r := G.Settle(BodyOf(t), true, true);
        if q.rpcMethod == "tools/list" {
          if r.err.Some? {
            if toolResp.Some? {
              r := G.Settlement(toolResp, None);
            }
          } else if r.resp.Some? {
            toolResp := r.resp;
          }
        }
        return;
      }
      match locks {
        case SessionRefused(why) =>
          r := G.Settlement(None, Some(G.SessionBusy(why)));
        case TurnRefused(why) =>
          r := G.Settlement(None, Some(G.TurnBusy(why)));
        case Granted(unlocked, released) =>
          var t := RunHandlers(q);
          state := t.state;
          r := G.Settle(BodyOf(t), unlocked, released);
      }
      if r.err.Some? {
        state := state.(audits := state.audits +
          [AuditRecord(q.session, q.turn, call.name, call.arguments, "upstream_error", ErrorText(r.err.value))]);
      }
      if ValidatePolicy(policy) == None {
        PostShaped(policy, before, q, locks);
      }
    }

    method RunHandlers(q: Req) returns (t: Turn)
      requires Valid()
      ensures t == Pass(policy, state, q)
    {
      t := pipeline.Run(state, q);
    }

    /** Under an accepted policy a well-formed call leaves one of the gate's traces, and upstream_error
        after it exactly when it ended in an error. */
    lemma PostShaped(policy: AgentPolicy, s: GateState, q: Req, locks: LockFate)
      requires WellFormedCall(q) && ValidatePolicy(policy) == None
      ensures var p := Post(policy, s, q, locks);
              && s.audits <= p.state.audits
              && Shaped(Decisions(p.state.audits[|s.audits|..]), p.result.err.Some?)
    {
      hide Pass, Shaped, ValidatePolicy;
      var added: seq<AuditRecord> := [];
      if locks.Granted? {
        added := PassAudits(policy, s, q);
        PassEnds(policy, s, q, locks);
      } else {
        assert s.audits + added == s.audits;
      }
      var p := Post(policy, s, q, locks);
      assert RunPipeline(policy, s, q, locks).state.audits == s.audits + added;
      TraceComplete(s.audits, added, p.state.audits, p.result.err.Some?);
    }

    /** An error of the pipeline is an error of the call. */
    lemma PassEnds(policy: AgentPolicy, s: GateState, q: Req, locks: LockFate)
      requires locks.Granted?
      ensures Pass(policy, s, q).err.Some? ==> RunPipeline(policy, s, q, locks).result.err.Some?
    {
    }

    /** Requests that are not well-formed tools/calls write no audit record. */
    lemma PassQuiet(policy: AgentPolicy, s: GateState, q: Req)
      requires !WellFormedCall(q)
      ensures Pass(policy, s, q).state.audits == s.audits
    {
      PassUnfolded(policy, s, q);
      if P.Passes(Injector(s, q)) && q.rpcMethod == "tools/call" {
        InjectionKeepsCall(q.params, q.session, q.turn);
      }
    }

    lemma TraceComplete(before: seq<AuditRecord>, added: seq<AuditRecord>, after: seq<AuditRecord>, failed: bool)
      requires Decisions(added) in GATE_TRACES && (added == [] ==> failed)
      requires if failed then exists r :: after == before + added + [r] && r.decision == "upstream_error"
               else after == before + added
      ensures before <= after && Shaped(Decisions(after[|before|..]), failed)
    {
      var trace := after[|before|..];
      if failed {
        var n := |trace| - 1;
        assert trace[..n] == added;
      } else {
        assert trace == added;
        assert added != [];
      }
    }
  }
}
