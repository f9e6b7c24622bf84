/** cmd/gateway/policy_gate.go: budget, policy, approval and redaction for one tools/call. */
module PolicyGate {
  import opened Wrappers
  import opened Policy
  import opened Tickets
  import B = Budget
  import A = ApprovalBridge
  import RL = RedisLink
  import C = CallTrace

  const CODE_POLICY_DENIED: int := -32001
  const REDACTED: string := "***REDACTED***"

  // ---------- params ----------

  datatype Parsed = Parsed(name: string, arguments: Value) | Malformed

  /** The tool name must be a non-empty string; missing arguments read as null. */
  function ParseToolCallParams(raw: Value): Parsed {
    if raw.Object? && "name" in raw.fields && raw.fields["name"].Str? && raw.fields["name"].s != "" then
      Parsed.Parsed(raw.fields["name"].s, if "arguments" in raw.fields then raw.fields["arguments"] else Null)
    else Malformed
  }

  /** What a well-formed call is. */
  lemma ParsedIff(raw: Value, name: string, arguments: Value)
    ensures ParseToolCallParams(raw) == Parsed.Parsed(name, arguments) <==>
              && raw.Object? && name != ""
              && "name" in raw.fields && raw.fields["name"] == Str(name)
              && (if "arguments" in raw.fields then raw.fields["arguments"] == arguments else arguments == Null)
    ensures ParseToolCallParams(raw) == Malformed <==>
              forall n | n != "" :: !(raw.Object? && "name" in raw.fields && raw.fields["name"] == Str(n))
  {
    if ParseToolCallParams(raw) != Malformed {
      assert raw.fields["name"] == Str(raw.fields["name"].s);
    }
  }

  /** Marshalling toolCallParams writes these two members and no others. */
  function CallParams(name: string, arguments: Value): Value {
    Object(map["name" := Str(name), "arguments" := arguments])
  }

  /** Parsing what was marshalled gives the call back. */
  lemma ParamsRoundTrip(name: string, arguments: Value)
    requires name != ""
    ensures ParseToolCallParams(CallParams(name, arguments)) == Parsed.Parsed(name, arguments)
  {
    var f := CallParams(name, arguments).fields;
    assert f["name"] == Str(name) && f["arguments"] == arguments;
  }

  // ---------- redaction ----------

  /** Arguments with the given fields masked where present, everything else as it was. */
  function Redacted(raw: Value, fields: seq<string>): Value {
    if raw.Object? then
      Object(map k | k in raw.fields :: if k in fields then Str(REDACTED) else raw.fields[k])
    else raw
  }

  method RedactArguments(raw: Value, fields: seq<string>) returns (r: Value)
    ensures r == Redacted(raw, fields)
  {
    if |fields| == 0 || !raw.Object? {
      if raw.Object? {
        assert raw.fields == Redacted(raw, fields).fields;
      }
      return raw;
    }
    var m := raw.fields;
    for i := 0 to |fields|
      invariant m.Keys == raw.fields.Keys
      invariant forall k | k in m :: m[k] == if k in fields[..i] then Str(REDACTED) else raw.fields[k]
    {
      if fields[i] in m {
        m := m[fields[i] := Str(REDACTED)];
      }
    }
    assert fields[..|fields|] == fields;
    assert m == Redacted(raw, fields).fields;
    return Object(m);
  }

  /** Redaction hides: two argument objects that differ only in redacted fields look the same afterwards. */
  lemma RedactionHides(a: map<string, Value>, b: map<string, Value>, fields: seq<string>)
    requires a.Keys == b.Keys
    requires forall k | k in a && k !in fields :: a[k] == b[k]
    ensures Redacted(Object(a), fields) == Redacted(Object(b), fields)
    ensures Redacted(Redacted(Object(a), fields), fields) == Redacted(Object(a), fields)
  {
    var ra, rb := Redacted(Object(a), fields).fields, Redacted(Object(b), fields).fields;
    assert ra == rb;
    assert Redacted(Object(ra), fields).fields == ra;
  }

  // ---------- the gate ----------

  datatype AuditRecord = AuditRecord(session: string, turn: string, tool: string, arguments: Value,
      decision: string, reason: string)

  function ActionName(a: Action): string {
    match a
    case Allow => "allow"
    case Deny => "deny"
    case ApprovalRequired => "approvalRequired"
    case Redact => "redact"
    case Unknown(text) => text
  }

  datatype Response = ErrorResponse(code: int, message: string) | UpstreamResponse(body: string)

  /** What a pipeline handler does with a request. */
  datatype Verdict = Continue | Respond(resp: Response) | Fail(why: string) | Panics

  datatype GateResult = GateResult(verdict: Verdict, audits: seq<AuditRecord>, params: Value)

  /** The gate on a well-formed tools/call, given the incremented count and how an approval wait
      would end. */
  function Judge(policy: AgentPolicy, count: int, session: string, turn: string, params: Value, tool: string,
      args: Value, wait: A.Verdict): GateResult {
    if count > policy.maxToolCallsPerTurn then
      GateResult(Respond(ErrorResponse(CODE_POLICY_DENIED, "tool-call budget exceeded")),
                 [AuditRecord(session, turn, tool, args, "budgetExceeded", "maxToolCallsPerTurn exceeded")], params)
    else
      match Evaluate(policy, tool, args)
      case None => GateResult(Panics, [], params)
      case Some(d) =>
        var noted := AuditRecord(session, turn, tool, args, ActionName(d.action), "");
        match d.action
        case Allow => GateResult(Continue, [noted], params)
        case Deny => GateResult(Respond(ErrorResponse(CODE_POLICY_DENIED, "denied by policy")), [noted], params)
        case ApprovalRequired =>
          if wait == A.ApprovalTimeout then
            GateResult(Respond(ErrorResponse(CODE_POLICY_DENIED, "approval timeout")),
                       [noted, AuditRecord(session, turn, tool, args, "expired", "approval timeout")], params)
          else if wait.Decided? && wait.approved then GateResult(Continue, [noted], params)
          else GateResult(Respond(ErrorResponse(CODE_POLICY_DENIED, "approval denied")), [noted], params)
        case Redact =>
          var redacted := Redacted(args, d.redactFields);
          GateResult(Continue, [AuditRecord(session, turn, tool, redacted, "allow", "")], CallParams(tool, redacted))
        case Unknown(text) => GateResult(Fail("unsupported policy decision"), [noted], params)
  }

  /** A call goes on to the upstream exactly when its budget check passed and the policy allows it,
      redacts it, or wants an approval that was given. */
  lemma ContinuesIff(policy: AgentPolicy, count: int, session: string, turn: string, params: Value, tool: string,
      args: Value, wait: A.Verdict)
    ensures Judge(policy, count, session, turn, params, tool, args, wait).verdict == Continue <==>
            && count <= policy.maxToolCallsPerTurn
            && Evaluate(policy, tool, args).Some?
            && var d := Evaluate(policy, tool, args).value;
               d.action in {Allow, Redact} || (d.action == ApprovalRequired && wait.Decided? && wait.approved)
  {
  }

  /** No value of a redacted field leaves the gate: what is forwarded and what is audited depend only
      on the redacted arguments, and nothing but name and arguments is forwarded. */
  lemma RedactedCallLeaksNothing(policy: AgentPolicy, count: int, session: string, turn: string, params: Value,
      tool: string, args: Value, wait: A.Verdict)
    requires count <= policy.maxToolCallsPerTurn
    requires Evaluate(policy, tool, args).Some? && Evaluate(policy, tool, args).value.action == Redact
    ensures var g := Judge(policy, count, session, turn, params, tool, args, wait);
            && g.params == Object(map["name" := Str(tool), "arguments" := g.params.fields["arguments"]])
            && var masked := g.params.fields["arguments"];
               && g.audits == [AuditRecord(session, turn, tool, masked, "allow", "")]
               && (if args.Object? then masked.Object? && masked.fields.Keys == args.fields.Keys else masked == args)
               && (args.Object? ==>
                     forall k | k in args.fields ::
                       masked.fields[k] == if k in Evaluate(policy, tool, args).value.redactFields
                                           then Str("***REDACTED***") else args.fields[k])
  {
  }

  class AuditSink {
    var submitted: seq<AuditRecord>

    constructor ()
      ensures submitted == []
    {
      submitted := [];
    }

    method Write(record: AuditRecord)
      modifies this
      ensures submitted == old(submitted) + [record]
    {
      submitted := submitted + [record];
    }
  }

  class Request {
    const rpcMethod: string
    var params: Value

    constructor (rpcMethod: string, params: Value)
      ensures this.rpcMethod == rpcMethod && this.params == params
    {
      this.rpcMethod, this.params := rpcMethod, params;
    }
  }

  /** What the surroundings of one call decide: the generated ticket ID, how the two statements go, the
      signals the waiter takes, and what others do to the tickets meanwhile. */
  datatype Surroundings =
    Surroundings(ticket: string, insertFate: DbFate, expireFate: DbFate, signals: seq<A.Signal>, others: A.Others)

  /** The tickets after a wait that ended with signal k: the call's own row was inserted, then the others
      did what they did, and then the row was marked as expired if the wait timed out. */
  function TableAfter(rows: Table, session: string, turn: string, tool: string, env: Surroundings, wait: A.Verdict,
      k: nat): Table {
    var inserted := if env.insertFate == NotDone then rows
      else rows[env.ticket := Row(session, turn, tool, Pending, None)];
    var meanwhile := A.Meanwhile(env.others, inserted, k + 1);
    if wait == A.ApprovalTimeout && env.expireFate != NotDone
    then Decide(meanwhile, if env.insertFate == Done then env.ticket else "", Expired, "")
    else meanwhile
  }

  /** So many lease extensions were sent, all for this session and turn. */
  predicate Extended(before: seq<C.Event>, after: seq<C.Event>, session: string, turn: string, ttl: int, count: nat) {
    && |after| == |before| + count && before <= after
    && forall i | |before| <= i < |after| ::
         var op := after[i].op; op.ExtendSession? && op.session == session && op.turn == turn && op.ttlMs == ttl
  }

  /** As long as the others only decide tickets, the ticket that was inserted names the call it waits for; an
      insert that did not happen leaves no row of its own. */
  lemma TicketNamesCall(rows: Table, session: string, turn: string, tool: string, env: Surroundings,
      wait: A.Verdict, k: nat, updates: nat -> seq<Update>)
    requires env.others == A.Updating(updates)
    ensures var after := TableAfter(rows, session, turn, tool, env, wait, k);
            && after.Keys == rows.Keys + (if env.insertFate == NotDone then {} else {env.ticket})
            && (env.insertFate != NotDone ==>
                  var row := after[env.ticket]; row.session == session && row.turn == turn && row.tool == tool)
  {
    hide A.Meanwhile, A.Updating, DecideAll;
    var inserted := if env.insertFate == NotDone then rows
      else rows[env.ticket := Row(session, turn, tool, Pending, None)];
    A.MeanwhileUpdates(updates, inserted, k + 1);
    NamesKept(inserted, A.Flat(updates, k + 1));
  }

  lemma {:induction false} NamesKept(rows: Table, updates: seq<Update>)
    ensures var after := DecideAll(rows, updates);
            && after.Keys == rows.Keys
            && forall id | id in rows ::
                 && after[id].session == rows[id].session && after[id].turn == rows[id].turn
                 && after[id].tool == rows[id].tool
  {
    if updates != [] {
      NamesKept(rows, updates[..|updates| - 1]);
    }
  }

  class PolicyGateHandler {
    const policy: AgentPolicy
    const budget: B.BudgetTracker
    const audit: AuditSink
    const bridge: A.ApprovalBridge

    constructor (policy: AgentPolicy, budget: B.BudgetTracker, audit: AuditSink, bridge: A.ApprovalBridge)
      ensures this.policy == policy && this.budget == budget && this.audit == audit && this.bridge == bridge
    {
      this.policy, this.budget, this.audit, this.bridge := policy, budget, audit, bridge;
    }

    /** Other methods pass untouched and malformed calls fail before the budget is charged. A
        well-formed call is charged once and judged; one that needs approval gets a ticket (an empty
        ID when the insert failed) and waits on it. */
    method Handle(session: string, turn: string, req: Request, env: Surroundings)
      returns (v: Verdict, ghost wait: A.Verdict)
      modifies budget, audit, req, bridge, bridge.tickets, bridge.locker.link, bridge.locker.link.server
      ensures req.rpcMethod != "tools/call" || ParseToolCallParams(old(req.params)) == Malformed ==>
                && v == (if req.rpcMethod != "tools/call" then Continue else Fail("policy gate params parse failed"))
                && budget.counts == old(budget.counts) && audit.submitted == old(audit.submitted)
                && req.params == old(req.params) && bridge.tickets.rows == old(bridge.tickets.rows)
                && bridge.locker.link.log == old(bridge.locker.link.log) && bridge.expiries == old(bridge.expiries)
      ensures req.rpcMethod == "tools/call" && ParseToolCallParams(old(req.params)).Parsed? ==>
                var call := ParseToolCallParams(old(req.params));
                var count := B.CountOf(old(budget.counts), B.BudgetKey(session, turn)) + 1;
                var asks := count <= policy.maxToolCallsPerTurn && Evaluate(policy, call.name, call.arguments).Some?
                            && Evaluate(policy, call.name, call.arguments).value.action == ApprovalRequired;
                var ticket := if env.insertFate == Done then env.ticket else "";
                && budget.counts == B.Increment(old(budget.counts), B.BudgetKey(session, turn))
                && old(audit.submitted) <= audit.submitted
                && GateResult(v, audit.submitted[|old(audit.submitted)|..], req.params) ==
                   Judge(policy, count, session, turn, old(req.params), call.name, call.arguments, wait)
                && (!asks ==> && bridge.tickets.rows == old(bridge.tickets.rows)
                              && bridge.locker.link.log == old(bridge.locker.link.log)
                              && bridge.expiries == old(bridge.expiries))
                && (asks ==> exists k: nat ::
                      && A.EndsAt(env.signals, k) && wait == A.VerdictAt(env.signals, k, ticket)
                      && bridge.tickets.rows == TableAfter(old(bridge.tickets.rows), session, turn, call.name, env,
                        wait, k)
                      && Extended(old(bridge.locker.link.log), bridge.locker.link.log, session, turn,
                                  RL.Milliseconds(bridge.locker.lockTTL), A.Ticks(env.signals[..k]))
                      && bridge.expiries == old(bridge.expiries) + if wait == A.ApprovalTimeout then [ticket] else [])
    {
      hide A.Meanwhile, A.Terminal, A.Ticks, RL.Milliseconds, Evaluate, B.BudgetKey;
      wait := A.Verdict.Cancelled;
      if req.rpcMethod != "tools/call" {
        return Continue, wait;
      }
      var call := ParseToolCallParams(req.params);
      if call == Malformed {
        return Fail("policy gate params parse failed"), wait;
      }
      var tool, arguments := call.name, call.arguments;
      ghost var before := audit.submitted;
      var n := budget.IncrementAndGet(session, turn);
      if n > policy.maxToolCallsPerTurn {
        audit.Write(AuditRecord(session, turn, tool, arguments, "budgetExceeded", "maxToolCallsPerTurn exceeded"));
        assert audit.submitted[|before|..]
          == [AuditRecord(session, turn, tool, arguments, "budgetExceeded", "maxToolCallsPerTurn exceeded")];
        return Respond(ErrorResponse(CODE_POLICY_DENIED, "tool-call budget exceeded")), wait;
      }
      var evaluated := Evaluate(policy, tool, arguments);
      if evaluated == None {
        assert audit.submitted[|before|..] == [];
        return Panics, wait;
      }
      var decision := evaluated.value;
      if decision.action != Redact {
        audit.Write(AuditRecord(session, turn, tool, arguments, ActionName(decision.action), ""));
        assert audit.submitted[|before|..]
          == [AuditRecord(session, turn, tool, arguments, ActionName(decision.action), "")];
      }
      match decision.action {
        case Allow =>
          return Continue, wait;
        case Deny =>
          return Respond(ErrorResponse(CODE_POLICY_DENIED, "denied by policy")), wait;
        case ApprovalRequired =>
          var inserted := bridge.tickets.Insert(session, turn, tool, env.ticket, env.insertFate);
          var ticket := if inserted.Some? then inserted.value else "";
          ghost var evs, k;
          var waited;
          waited, k, evs := bridge.WaitForDecision(ticket, session, turn, env.signals, env.others, env.expireFate);
          wait := waited;
          if waited == A.ApprovalTimeout {
            audit.Write(AuditRecord(session, turn, tool, arguments, "expired", "approval timeout"));
            assert audit.submitted[|before|..] ==
                   [AuditRecord(session, turn, tool, arguments, ActionName(decision.action), ""),
                    AuditRecord(session, turn, tool, arguments, "expired", "approval timeout")];
            return Respond(ErrorResponse(CODE_POLICY_DENIED, "approval timeout")), wait;
          }
          if !(waited.Decided? && waited.approved) {
            return Respond(ErrorResponse(CODE_POLICY_DENIED, "approval denied")), wait;
          }
          return Continue, wait;
        case Redact =>
          var redacted := RedactArguments(arguments, decision.redactFields);
          audit.Write(AuditRecord(session, turn, tool, redacted, "allow", ""));
          assert audit.submitted[|before|..] == [AuditRecord(session, turn, tool, redacted, "allow", "")];
          req.params := CallParams(tool, redacted);
          return Continue, wait;
        case Unknown(_) =>
          return Fail("unsupported policy decision"), wait;
      }
    }
  }
}
