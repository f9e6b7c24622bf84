/** Tool calls, approval tickets, button clicks and their signals, in any interleaving: the budget
    and the policy decide a call, an approval wait ends by the signals that reach it, and a call is
    forwarded only when it was allowed to be. Signals and statements may be lost. */
module GatewayProtocol {
  import opened Wrappers
  import opened Policy
  import opened Tickets
  import W = Webhook
  import A = ApprovalBridge
  import B = Budget
  import P = PolicyGate

  datatype Stage =
    | Arrived
    | OverBudget
    | Admitted          // within budget, not yet judged
    | Halted            // denied by policy, unsupported decision or failed comparison
    | Asking            // needs approval, has no ticket yet
    | Waiting
    | Refused
    | TimedOut
    | Dropped           // its context was cancelled
    | Forwarded         // handed to the upstream forwarder

  /** A payload on a ticket's channel, and the webhook request that published it, if one did. */
  datatype Message = Message(payload: string, hook: Option<nat>)

  /** heard is the webhook request whose message the call took last. */
  datatype Call = Call(session: string, turn: string, tool: string, args: Value, stage: Stage, count: int,
                       ticket: string, subscribed: bool, inbox: seq<Message>, heard: Option<nat>)

  datatype Click = Click(ticket: string, status: Status)

  /** An acknowledged update: what it asked for, and the status it found in the row. */
  datatype Ack = Ack(ticket: string, status: Status, found: Option<Status>)

  datatype State = State(
    counts: B.Counts,
    rows: Table,
    clicks: set<Click>,       // every accepted click so far
    acks: map<nat, Ack>,      // every acknowledged click so far, by its webhook request
    unsent: set<nat>,         // those whose publication is still to come
    calls: map<nat, Call>)

  datatype Step =
    | Arrive(id: nat, session: string, turn: string, tool: string, args: Value)
    | Charge(id: nat)
    | Judge(id: nat)
    | InsertTicket(id: nat, ticket: string, fate: DbFate)
    | Subscribe(id: nat)
    | ClickButton(hook: nat, ticket: string, action: string, user: string, fate: DbFate)
    | Publish(hook: nat, delivered: bool)
    | Noise(id: nat, payload: string)
    | Receive(id: nat)
    | Expire(id: nat, fate: DbFate)
    | Abandon(id: nat)

  predicate Initial(s: State) {
    s == State(map[], map[], {}, map[], {}, map[])
  }

  predicate At(s: State, id: nat, stage: Stage) {
    id in s.calls && s.calls[id].stage == stage
  }

  /** The generated ticket ID is new: no row and no click names it. */
  predicate FreshTicket(s: State, ticket: string) {
    && ticket != "" && ticket !in s.rows
    && forall c | c in s.clicks :: c.ticket != ticket
  }

  predicate Enabled(s: State, step: Step) {
    match step
    case Arrive(id, _, _, _, _) => id !in s.calls
    case Charge(id) => At(s, id, Arrived)
    case Judge(id) => At(s, id, Admitted)
    case InsertTicket(id, ticket, _) => At(s, id, Asking) && FreshTicket(s, ticket)
    case Subscribe(id) => At(s, id, Waiting)
    case ClickButton(hook, ticket, action, _, _) => hook !in s.acks && ticket != "" && W.StatusOf(action).Some?
    case Publish(hook, _) => hook in s.unsent && hook in s.acks
    case Noise(id, payload) => At(s, id, Waiting) && s.calls[id].subscribed && payload != "approved"
      && payload != "denied"
    case Receive(id) => At(s, id, Waiting) && s.calls[id].inbox != []
    case Expire(id, _) => At(s, id, Waiting)
    case Abandon(id) => At(s, id, Waiting)
  }

  /** What the budget makes of a call that was charged as number n. */
  function Checked(policy: AgentPolicy, n: int): Stage {
    if n > policy.maxToolCallsPerTurn then OverBudget else Admitted
  }

  /** What the policy makes of an admitted call. */
  function Judged(policy: AgentPolicy, c: Call): Stage {
    match Evaluate(policy, c.tool, c.args)
    case None => Halted
    case Some(d) =>
      match d.action
      case Allow => Forwarded
      case Redact => Forwarded
      case ApprovalRequired => Asking
      case _ => Halted
  }

  /** What a waiting call makes of the message it takes. */
  function Answered(payload: string): Stage {
    if payload == "approved" then Forwarded else if payload == "denied" then Refused else Waiting
  }

  predicate Listens(c: Call, ticket: string) {
    c.stage == Waiting && c.subscribed && c.ticket == ticket
  }

  function Next(policy: AgentPolicy, s: State, step: Step): State
    requires Enabled(s, step)
  {
    match step
    case Arrive(id, session, turn, tool, args) =>
      s.(calls := s.calls[id := Call(session, turn, tool, args, Arrived, 0, "", false, [], None)])
    case Charge(id) =>
      var c := s.calls[id];
      var key := B.BudgetKey(c.session, c.turn);
      var n := B.CountOf(s.counts, key) + 1;
      s.(counts := B.Increment(s.counts, key),
         calls := s.calls[id := c.(count := n, stage := Checked(policy, n))])
    case Judge(id) =>
      s.(calls := s.calls[id := s.calls[id].(stage := Judged(policy, s.calls[id]))])
    case InsertTicket(id, ticket, fate) =>
      var c := s.calls[id];
      s.(rows := if fate == NotDone then s.rows else s.rows[ticket := Row(c.session, c.turn, c.tool, Pending, None)],
         calls := s.calls[id := c.(stage := Waiting, ticket := if fate == Done then ticket else "")])
    case Subscribe(id) =>
      s.(calls := s.calls[id := s.calls[id].(subscribed := true)])
    case ClickButton(hook, ticket, action, user, fate) =>
      var status := W.StatusOf(action).value;
      s.(rows := if fate == NotDone then s.rows else Decide(s.rows, ticket, status, user),
         clicks := s.clicks + {Click(ticket, status)},
         acks := if fate == Done then s.acks[hook := Ack(ticket, status, FoundIn(s.rows, ticket))] else s.acks,
         unsent := if fate == Done then s.unsent + {hook} else s.unsent)
    case Publish(hook, delivered) =>
      s.(unsent := s.unsent - {hook},
         calls := if delivered then Deliver(s.calls, hook, s.acks[hook]) else s.calls)
    case Noise(id, payload) =>
      s.(calls := s.calls[id := s.calls[id].(inbox := s.calls[id].inbox + [Message(payload, None)])])
    case Receive(id) =>
      var c := s.calls[id];
      s.(calls := s.calls[id := Taken(c)])
    case Expire(id, fate) =>
      s.(rows := if fate == NotDone then s.rows else Decide(s.rows, s.calls[id].ticket, Expired, ""),
         calls := s.calls[id := s.calls[id].(stage := TimedOut)])
    case Abandon(id) =>
      s.(calls := s.calls[id := s.calls[id].(stage := Dropped)])
  }

  function FoundIn(rows: Table, ticket: string): Option<Status> {
    if ticket in rows then Some(rows[ticket].status) else None
  }

  /** The call after it took its first message. */
  function Taken(c: Call): Call
    requires c.inbox != []
  {
    c.(inbox := c.inbox[1..], stage := Answered(c.inbox[0].payload), heard := c.inbox[0].hook)
  }

  /** A publication reaches every call that listens on the ticket's channel. */
  function Deliver(calls: map<nat, Call>, hook: nat, a: Ack): map<nat, Call> {
    map id | id in calls ::
      if Listens(calls[id], a.ticket)
      then calls[id].(inbox := calls[id].inbox + [Message(W.Payload(a.status), Some(hook))])
      else calls[id]
  }

  /** The steps of a call decide as the gate itself does: it lets the call go on exactly when the call
      is within budget and is forwarded at once, or asks and is told yes. A payload moves a waiting call
      exactly when it ends the wait of the bridge. */
  lemma StagesMatchGate(policy: AgentPolicy, c: Call, params: Value, wait: A.Verdict)
    ensures P.Judge(policy, c.count, c.session, c.turn, params, c.tool, c.args, wait).verdict == P.Continue <==>
            && c.count <= policy.maxToolCallsPerTurn
            && (Judged(policy, c) == Forwarded || (Judged(policy, c) == Asking && wait.Decided? && wait.approved))
    ensures forall payload :: Answered(payload) == Forwarded <==> payload == "approved"
    ensures forall payload :: Answered(payload) == Refused <==> payload == "denied"
    ensures forall payload :: Answered(payload) == Waiting <==> !A.Terminal(A.Message(payload))
  {
    P.ContinuesIff(policy, c.count, c.session, c.turn, params, c.tool, c.args, wait);
  }

  // ---------- the invariant ----------

  predicate Clicked(s: State, ticket: string, status: Status) {
    Click(ticket, status) in s.clicks
  }

  /** Every decided row was decided by a click of that kind, or expired with its own call. */
  predicate RowOk(s: State, ticket: string)
    requires ticket in s.rows
  {
    match s.rows[ticket].status
    case Pending => true
    case Approved => Clicked(s, ticket, Approved)
    case Denied => Clicked(s, ticket, Denied)
    case Expired => exists id :: id in s.calls && s.calls[id].ticket == ticket && s.calls[id].stage == TimedOut
    case Cancelled => false
  }

  /** An acknowledged click has been made, and its ticket is decided; it is decided this way exactly
      when the click found it pending or decided this way. */
  predicate AckOk(s: State, a: Ack) {
    && a.ticket != "" && a.status in {Approved, Denied}
    && Clicked(s, a.ticket, a.status)
    && (a.ticket in s.rows ==>
          && s.rows[a.ticket].status != Pending
          && (s.rows[a.ticket].status == a.status <==> a.found in {Some(Pending), Some(a.status)}))
  }

  /** A webhook request published this status of the ticket. */
  predicate Told(s: State, hook: Option<nat>, ticket: string, status: Status) {
    && ticket != "" && ticket in s.rows
    && hook.Some? && hook.value in s.acks
    && s.acks[hook.value].ticket == ticket && s.acks[hook.value].status == status
  }

  predicate AsksApproval(policy: AgentPolicy, c: Call) {
    Evaluate(policy, c.tool, c.args).Some? && Evaluate(policy, c.tool, c.args).value.action == ApprovalRequired
  }

  predicate CallOk(policy: AgentPolicy, s: State, c: Call) {
    && (c.stage in {Arrived, OverBudget, Admitted, Halted, Asking} ==> c.ticket == "")
    && (c.ticket != "" ==> c.ticket in s.rows)
    && (c.stage !in {Arrived, OverBudget} ==> c.count <= policy.maxToolCallsPerTurn)
    && (c.stage in {Asking, Waiting, Refused, TimedOut, Dropped} ==> AsksApproval(policy, c))
    && (forall m | m in c.inbox && m.payload == "approved" :: Told(s, m.hook, c.ticket, Approved))
    && (forall m | m in c.inbox && m.payload == "denied" :: Told(s, m.hook, c.ticket, Denied))
    && (c.stage == Refused ==> Told(s, c.heard, c.ticket, Denied))
    && (c.stage == Forwarded ==> Authorised(policy, s, c))
  }

  /** The ways in which a call may come to be forwarded. */
  predicate Authorised(policy: AgentPolicy, s: State, c: Call) {
    && c.count <= policy.maxToolCallsPerTurn
    && Evaluate(policy, c.tool, c.args).Some?
    && var action := Evaluate(policy, c.tool, c.args).value.action;
    || action in {Allow, Redact}
    || (action == ApprovalRequired && Told(s, c.heard, c.ticket, Approved))
  }

  predicate TicketsUnique(s: State) {
    forall i, j | i in s.calls && j in s.calls && i != j ::
      s.calls[i].ticket != "" ==> s.calls[i].ticket != s.calls[j].ticket
  }

  ghost predicate Inv(policy: AgentPolicy, s: State) {
    && (forall t | t in s.rows :: RowOk(s, t))
    && (forall h | h in s.acks :: AckOk(s, s.acks[h]))
    && (forall id | id in s.calls :: CallOk(policy, s, s.calls[id]))
    && TicketsUnique(s)
  }

  // ---------- preservation ----------

  /** Decided tickets never change, and clicks are never forgotten. */
  predicate Later(s: State, s': State) {
    && (forall t | t in s.rows :: t in s'.rows && (s.rows[t].status != Pending ==> s'.rows[t] == s.rows[t]))
    && s.clicks <= s'.clicks
    && forall h | h in s.acks :: h in s'.acks && s'.acks[h] == s.acks[h]
  }

  lemma StepsOnlyDecidePending(policy: AgentPolicy, s: State, step: Step)
    requires Enabled(s, step)
    ensures Later(s, Next(policy, s, step))
  {
  }

  /** A call that did not move keeps what it had. */
  lemma CallOkLater(policy: AgentPolicy, s: State, s': State, c: Call)
    requires Later(s, s') && CallOk(policy, s, c)
    ensures CallOk(policy, s', c)
  {
    if c.ticket in s.rows && s.rows[c.ticket].status != Pending {
      assert s'.rows[c.ticket] == s.rows[c.ticket];
    }
  }

  lemma CallsKept(policy: AgentPolicy, s: State, step: Step, id: nat)
    requires Enabled(s, step) && Inv(policy, s)
    requires id in Next(policy, s, step).calls
    ensures CallOk(policy, Next(policy, s, step), Next(policy, s, step).calls[id])
  {
    var s' := Next(policy, s, step);
    StepsOnlyDecidePending(policy, s, step);
    if id in s.calls {
      CallOkLater(policy, s, s', s.calls[id]);
      if step.Publish? {
        assert AckOk(s, s.acks[step.hook]);
        CallDelivered(policy, s, s', id, step.hook);
      } else if step.Receive? && step.id == id {
        CallAnswered(policy, s', s.calls[id]);
      } else if s'.calls[id] != s.calls[id] {
        CallMoved(policy, s, step);
      }
    }
  }

  lemma CallDelivered(policy: AgentPolicy, s: State, s': State, id: nat, hook: nat)
    requires id in s.calls && CallOk(policy, s, s.calls[id]) && CallOk(policy, s', s.calls[id])
    requires hook in s.acks && AckOk(s, s.acks[hook]) && s'.rows == s.rows && s'.acks == s.acks
    ensures CallOk(policy, s', Deliver(s.calls, hook, s.acks[hook])[id])
  {
    var c := s.calls[id];
    if Listens(c, s.acks[hook].ticket) {
      assert Told(s', Some(hook), c.ticket, s.acks[hook].status);
    }
  }

  lemma CallAnswered(policy: AgentPolicy, s: State, c: Call)
    requires CallOk(policy, s, c) && c.stage == Waiting && c.inbox != []
    ensures CallOk(policy, s, Taken(c))
  {
    assert c.inbox[0] in c.inbox;
    assert forall m | m in c.inbox[1..] :: m in c.inbox;
  }

  lemma CallMoved(policy: AgentPolicy, s: State, step: Step)
    requires Enabled(s, step) && Inv(policy, s)
    requires !step.Receive? && !step.Publish? && !step.ClickButton? && step.id in s.calls
    requires CallOk(policy, s, s.calls[step.id]) && CallOk(policy, Next(policy, s, step), s.calls[step.id])
    ensures CallOk(policy, Next(policy, s, step), Next(policy, s, step).calls[step.id])
  {
  }

  lemma TimedOutStays(policy: AgentPolicy, s: State, step: Step, id: nat)
    requires Enabled(s, step) && At(s, id, TimedOut)
    ensures At(Next(policy, s, step), id, TimedOut) && Next(policy, s, step).calls[id].ticket == s.calls[id].ticket
  {
  }

  lemma RowsKept(policy: AgentPolicy, s: State, step: Step, t: string)
    requires Enabled(s, step) && Inv(policy, s)
    requires t in Next(policy, s, step).rows
    ensures RowOk(Next(policy, s, step), t)
  {
    var s' := Next(policy, s, step);
    StepsOnlyDecidePending(policy, s, step);
    if t in s.rows && s'.rows[t] == s.rows[t] {
      assert RowOk(s, t);
      if s.rows[t].status == Expired {
        var id :| id in s.calls && s.calls[id].ticket == t && s.calls[id].stage == TimedOut;
        TimedOutStays(policy, s, step, id);
      }
    } else if t in s.rows {
      RowDecided(policy, s, step, t);
    }
  }

  lemma RowDecided(policy: AgentPolicy, s: State, step: Step, t: string)
    requires Enabled(s, step) && t in s.rows && t in Next(policy, s, step).rows
    requires Next(policy, s, step).rows[t] != s.rows[t]
    ensures RowOk(Next(policy, s, step), t)
  {
    var s' := Next(policy, s, step);
    if step.Expire? {
      assert s'.calls[step.id].ticket == t && s'.calls[step.id].stage == TimedOut;
    }
  }

  lemma AcksKept(policy: AgentPolicy, s: State, step: Step, h: nat)
    requires Enabled(s, step) && Inv(policy, s)
    requires h in Next(policy, s, step).acks
    ensures AckOk(Next(policy, s, step), Next(policy, s, step).acks[h])
  {
    StepsOnlyDecidePending(policy, s, step);
    if h in s.acks {
      assert AckOk(s, s.acks[h]);
    }
  }

  lemma UniqueKept(policy: AgentPolicy, s: State, step: Step)
    requires Enabled(s, step) && Inv(policy, s)
    ensures TicketsUnique(Next(policy, s, step))
  {
    var s' := Next(policy, s, step);
    forall i, j | i in s'.calls && j in s'.calls && i != j && s'.calls[i].ticket != ""
      ensures s'.calls[i].ticket != s'.calls[j].ticket
    {
      if i in s.calls {
        assert CallOk(policy, s, s.calls[i]);
      }
      if j in s.calls {
        assert CallOk(policy, s, s.calls[j]);
      }
    }
  }

  lemma InvKept(policy: AgentPolicy, s: State, step: Step)
    requires Enabled(s, step) && Inv(policy, s)
    ensures Inv(policy, Next(policy, s, step))
  {
    var s' := Next(policy, s, step);
    forall t | t in s'.rows ensures RowOk(s', t) {
      RowsKept(policy, s, step, t);
    }
    forall h | h in s'.acks ensures AckOk(s', s'.acks[h]) {
      AcksKept(policy, s, step, h);
    }
    forall id | id in s'.calls ensures CallOk(policy, s', s'.calls[id]) {
      CallsKept(policy, s, step, id);
    }
    UniqueKept(policy, s, step);
  }

  // ---------- runs ----------

  predicate IsRun(policy: AgentPolicy, run: seq<State>, steps: seq<Step>) {
    && |run| == |steps| + 1
    && Initial(run[0])
    && forall i | 0 <= i < |steps| :: Enabled(run[i], steps[i]) && run[i + 1] == Next(policy, run[i], steps[i])
  }

  lemma RunStep(policy: AgentPolicy, run: seq<State>, steps: seq<Step>, i: nat)
    requires IsRun(policy, run, steps) && i + 1 < |run|
    ensures |run| == |steps| + 1 && Enabled(run[i], steps[i]) && run[i + 1] == Next(policy, run[i], steps[i])
  {
  }

  lemma {:induction false} RunInv(policy: AgentPolicy, run: seq<State>, steps: seq<Step>, n: nat)
    requires IsRun(policy, run, steps) && n < |run|
    ensures Inv(policy, run[n])
  {
    if n > 0 {
      RunInv(policy, run, steps, n - 1);
      InvKept(policy, run[n - 1], steps[n - 1]);
    }
  }

  lemma {:induction false} RunLater(policy: AgentPolicy, run: seq<State>, steps: seq<Step>, m: nat, n: nat)
    requires IsRun(policy, run, steps) && m <= n < |run|
    ensures Later(run[m], run[n])
  {
    hide Next, Enabled, Later;
    if m < n {
      RunLater(policy, run, steps, m, n - 1);
      StepsOnlyDecidePending(policy, run[n - 1], steps[n - 1]);
      LaterTransitive(run[m], run[n - 1], run[n]);
    } else {
      LaterReflexive(run[m]);
    }
  }

  lemma LaterReflexive(s: State)
    ensures Later(s, s)
  {
  }

  lemma LaterTransitive(a: State, b: State, c: State)
    requires Later(a, b) && Later(b, c)
    ensures Later(a, c)
  {
  }

  /** Authorisation over whole runs: a call is forwarded only if its budget check passed and the
      policy allows it, redacts it, or asked for an approval; in the last case it has a ticket of
      its own (so its insert succeeded), which was clicked "approve" before. */
  lemma OnlyAuthorisedCallsAreForwarded(policy: AgentPolicy, run: seq<State>, steps: seq<Step>, n: nat, id: nat)
    requires IsRun(policy, run, steps) && n < |run|
    requires id in run[n].calls && run[n].calls[id].stage == Forwarded
    ensures var c := run[n].calls[id];
            && c.count <= policy.maxToolCallsPerTurn
            && Evaluate(policy, c.tool, c.args).Some?
            && var action := Evaluate(policy, c.tool, c.args).value.action;
               || action in {Allow, Redact}
               || (&& action == ApprovalRequired
                   && c.ticket != "" && c.ticket in run[n].rows
                   && Clicked(run[n], c.ticket, Approved)
                   && forall other | other in run[n].calls && other != id :: run[n].calls[other].ticket != c.ticket)
  {
    RunInv(policy, run, steps, n);
    var c := run[n].calls[id];
    assert CallOk(policy, run[n], c);
    if c.heard.Some? && c.heard.value in run[n].acks {
      assert AckOk(run[n], run[n].acks[c.heard.value]);
    }
  }

  // ---------- verdict and ticket ----------

  /** A call that ended by a click, and what it took the verdict to be. */
  predicate EndedBy(policy: AgentPolicy, c: Call, status: Status) {
    && AsksApproval(policy, c)
    && ((c.stage == Forwarded && status == Approved) || (c.stage == Refused && status == Denied))
  }

  /** Every acknowledged click was made by a step of the run, and found what was in the row then. */
  lemma {:induction false} AckedAt(policy: AgentPolicy, run: seq<State>, steps: seq<Step>, n: nat, hook: nat)
      returns (i: nat)
    requires IsRun(policy, run, steps) && n < |run| && hook in run[n].acks
    ensures i < n && ClickedAt(run, steps, i, hook, run[n].acks[hook])
  {
    i := n - 1;
    if hook in run[i].acks {
      StepsOnlyDecidePending(policy, run[i], steps[i]);
      i := AckedAt(policy, run, steps, i, hook);
    }
  }

  /** Step i is the acknowledged update of a webhook request. */
  predicate ClickedAt(run: seq<State>, steps: seq<Step>, i: nat, hook: nat, a: Ack) {
    && i < |steps| && i < |run| && steps[i].ClickButton?
    && steps[i].hook == hook && steps[i].ticket == a.ticket && steps[i].fate == Done
    && W.StatusOf(steps[i].action) == Some(a.status)
    && a.found == FoundIn(run[i].rows, a.ticket)
  }

  /** The exact power of a click: after an acknowledged click on a ticket, its row has the clicked
      status, then and for ever, if and only if the click found it pending or with that status. */
  lemma ClickDecidesIff(policy: AgentPolicy, run: seq<State>, steps: seq<Step>, i: nat, n: nat)
    requires IsRun(policy, run, steps) && i < n < |run|
    requires steps[i].ClickButton? && steps[i].fate == Done && steps[i].ticket in run[i].rows
    ensures var ticket, status := steps[i].ticket, W.StatusOf(steps[i].action).value;
            && ticket in run[n].rows
            && (run[n].rows[ticket].status == status <==> run[i].rows[ticket].status in {Pending, status})
  {
    RunInv(policy, run, steps, i + 1);
    RunLater(policy, run, steps, i + 1, n);
    assert AckOk(run[i + 1], run[i + 1].acks[steps[i].hook]);
  }

  /** The exact truth of a verdict: a wait that ended by a click took the signal of one acknowledged
      click on its ticket, made at step i; what it was told is the ticket's status, then and in every
      later state, if and only if that click found the ticket pending or already with that status. */
  lemma VerdictTrueIff(policy: AgentPolicy, run: seq<State>, steps: seq<Step>, m: nat, id: nat, status: Status)
    returns (i: nat)
    requires IsRun(policy, run, steps) && m < |run|
    requires id in run[m].calls && EndedBy(policy, run[m].calls[id], status)
    ensures var c := run[m].calls[id];
            && i < m && steps[i].ClickButton? && steps[i].fate == Done && Some(steps[i].hook) == c.heard
            && steps[i].ticket == c.ticket && W.StatusOf(steps[i].action) == Some(status)
            && c.ticket in run[i].rows
            && (forall n | m <= n < |run| ::
                  && c.ticket in run[n].rows
                  && (run[n].rows[c.ticket].status == status <==> run[i].rows[c.ticket].status in {Pending, status}))
  {
    RunInv(policy, run, steps, m);
    var c := run[m].calls[id];
    assert CallOk(policy, run[m], c);
    assert Told(run[m], c.heard, c.ticket, status);
    i := AckedAt(policy, run, steps, m, c.heard.value);
    ClickedWhileIssued(policy, run, steps, i, m);
    forall n | m <= n < |run|
      ensures c.ticket in run[n].rows
      ensures run[n].rows[c.ticket].status == status <==> run[i].rows[c.ticket].status in {Pending, status}
    {
      ClickDecidesIff(policy, run, steps, i, n);
    }
  }

  /** A ticket that is clicked before it is issued is never issued. */
  lemma {:induction false} ClickedWhileIssued(policy: AgentPolicy, run: seq<State>, steps: seq<Step>, i: nat, n: nat)
    requires IsRun(policy, run, steps) && i < n < |run| && steps[i].ClickButton?
    requires steps[i].ticket in run[n].rows
    ensures steps[i].ticket in run[i].rows
  {
    hide IsRun, Next, Enabled;
    RunStep(policy, run, steps, i);
    var click := ClickMade(policy, run[i], steps[i]);
    if n > i + 1 {
      RunLater(policy, run, steps, i + 1, n - 1);
      RunStep(policy, run, steps, n - 1);
      NotIssuedAfterClick(policy, run[n - 1], steps[n - 1], click);
      ClickedWhileIssued(policy, run, steps, i, n - 1);
    }
  }

  lemma ClickMade(policy: AgentPolicy, s: State, step: Step) returns (click: Click)
    requires Enabled(s, step) && step.ClickButton?
    ensures click in Next(policy, s, step).clicks && click.ticket == step.ticket
    ensures step.ticket in Next(policy, s, step).rows ==> step.ticket in s.rows
  {
    click := Click(step.ticket, W.StatusOf(step.action).value);
  }

  lemma NotIssuedAfterClick(policy: AgentPolicy, s: State, step: Step, click: Click)
    requires Enabled(s, step) && click in s.clicks && click.ticket in Next(policy, s, step).rows
    ensures click.ticket in s.rows
  {
  }

  /** The exact power of a timeout: after a wait that timed out marked its ticket, the row has expired, then
      and for ever, if and only if nobody had decided it. */
  lemma ExpiryDecidesIff(policy: AgentPolicy, run: seq<State>, steps: seq<Step>, i: nat, n: nat)
    requires IsRun(policy, run, steps) && i < n < |run|
    requires steps[i].Expire? && steps[i].fate != NotDone && steps[i].id in run[i].calls
    requires run[i].calls[steps[i].id].ticket != ""
    ensures var ticket := run[i].calls[steps[i].id].ticket;
            && ticket in run[i].rows && ticket in run[n].rows
            && (run[n].rows[ticket].status == Expired <==> run[i].rows[ticket].status == Pending)
  {
    var s, step := run[i], steps[i];
    var ticket := s.calls[step.id].ticket;
    RunInv(policy, run, steps, i);
    assert CallOk(policy, s, s.calls[step.id]);
    RunStep(policy, run, steps, i);
    ExpiryMarks(policy, s, step);
    RunLater(policy, run, steps, i + 1, n);
  }

  lemma ExpiryMarks(policy: AgentPolicy, s: State, step: Step)
    requires Inv(policy, s) && Enabled(s, step) && step.Expire? && step.fate != NotDone
    requires s.calls[step.id].ticket != ""
    ensures var ticket, s' := s.calls[step.id].ticket, Next(policy, s, step);
            && ticket in s.rows && ticket in s'.rows && s'.rows[ticket].status != Pending
            && (s'.rows[ticket].status == Expired <==> s.rows[ticket].status == Pending)
  {
    var ticket := s.calls[step.id].ticket;
    assert CallOk(policy, s, s.calls[step.id]);
    assert RowOk(s, ticket);
  }

  /** All clicks on a ticket carry one action. */
  predicate Unanimous(s: State, ticket: string) {
    forall a, b | a in s.clicks && b in s.clicks && a.ticket == ticket && b.ticket == ticket :: a.status == b.status
  }

  /** Agreement of verdict and ticket: when a wait ended by a click, its ticket is decided for good, by
      some click; if the clicks on it are unanimous then it has the very status the waiter was told. */
  lemma VerdictAgreesWithTicket(policy: AgentPolicy, run: seq<State>, steps: seq<Step>, m: nat, n: nat, id: nat,
      status: Status)
    requires IsRun(policy, run, steps) && m <= n < |run|
    requires id in run[m].calls && EndedBy(policy, run[m].calls[id], status)
    ensures var ticket := run[m].calls[id].ticket;
            && ticket in run[m].rows && ticket in run[n].rows
            && run[n].rows[ticket] == run[m].rows[ticket]
            && run[n].rows[ticket].status in {Approved, Denied}
            && (Unanimous(run[m], ticket) ==> run[n].rows[ticket].status == status)
  {
    RunInv(policy, run, steps, m);
    RunLater(policy, run, steps, m, n);
    var s := run[m];
    var c := s.calls[id];
    assert CallOk(policy, s, c);
    assert Told(s, c.heard, c.ticket, status);
    assert AckOk(s, s.acks[c.heard.value]);
    assert RowOk(s, c.ticket);
    assert Click(c.ticket, status) in s.clicks;
    assert Click(c.ticket, s.rows[c.ticket].status) in s.clicks;
  }

  // ---------- a run in which they disagree ----------

  lemma RunSnoc(policy: AgentPolicy, run: seq<State>, steps: seq<Step>, step: Step)
      returns (run': seq<State>, steps': seq<Step>)
    requires IsRun(policy, run, steps) && Enabled(run[|run| - 1], step)
    ensures IsRun(policy, run', steps')
    ensures run' == run + [Next(policy, run[|run| - 1], step)] && steps' == steps + [step]
  {
    hide Enabled, Next, Initial;
    run' := run + [Next(policy, run[|run| - 1], step)];
    steps' := steps + [step];
    forall i | 0 <= i < |steps'|
      ensures Enabled(run'[i], steps'[i]) && run'[i + 1] == Next(policy, run'[i], steps'[i]) {
      if i < |steps| {
        assert run'[i] == run[i] && run'[i + 1] == run[i + 1] && steps'[i] == steps[i];
      }
    }
  }

  /** A call waits and listens on its own pending ticket, which nobody has clicked. */
  predicate Listening(s: State, id: nat, ticket: string) {
    && s.calls.Keys == {id} && Listens(s.calls[id], ticket) && s.calls[id].inbox == []
    && ticket != "" && ticket in s.rows && s.rows[ticket].status == Pending
    && s.clicks == {} && s.acks == map[] && s.unsent == {}
  }

  /** One call arrives, is charged, needs an approval, gets its ticket and subscribes. */
  lemma CallListens(policy: AgentPolicy, session: string, turn: string, tool: string, args: Value, ticket: string)
    returns (run: seq<State>, steps: seq<Step>)
    requires policy.maxToolCallsPerTurn >= 1 && ticket != ""
    requires Evaluate(policy, tool, args).Some? && Evaluate(policy, tool, args).value.action == ApprovalRequired
    ensures IsRun(policy, run, steps) && Listening(run[|run| - 1], 0, ticket)
  {
    hide Evaluate;
    run, steps := [State(map[], map[], {}, map[], {}, map[])], [];
    run, steps := RunSnoc(policy, run, steps, Arrive(0, session, turn, tool, args));
    run, steps := RunSnoc(policy, run, steps, Charge(0));
    assert run[|run| - 1].calls[0].stage == Admitted;
    run, steps := RunSnoc(policy, run, steps, Judge(0));
    assert run[|run| - 1].calls[0].stage == Asking;
    run, steps := RunSnoc(policy, run, steps, InsertTicket(0, ticket, Done));
    assert run[|run| - 1].calls[0].stage == Waiting && run[|run| - 1].calls.Keys == {0};
    run, steps := RunSnoc(policy, run, steps, Subscribe(0));
    assert run[|run| - 1].calls.Keys == {0};
  }

  /** A "deny" decides the row, and its publication is lost. */
  lemma DenyUnheard(policy: AgentPolicy, s: State, ticket: string, user: string)
    requires Listening(s, 0, ticket)
    ensures var click := ClickButton(0, ticket, "deny", user, Done);
            && Enabled(s, click)
            && var t := Next(policy, s, click);
            && Enabled(t, Publish(0, false))
            && var u := Next(policy, t, Publish(0, false));
            && u.calls == s.calls && u.rows == s.rows[ticket := u.rows[ticket]] && u.rows[ticket].status == Denied
            && u.acks.Keys == {0}
  {
  }

  /** An "approve" changes no row and is heard all the same. */
  lemma ApproveHeard(policy: AgentPolicy, s: State, ticket: string, user: string)
    requires s.calls.Keys == {0} && Listens(s.calls[0], ticket) && s.calls[0].inbox == []
    requires ticket != "" && ticket in s.rows && s.rows[ticket].status == Denied && s.acks.Keys == {0}
    ensures var click := ClickButton(1, ticket, "approve", user, Done);
            && Enabled(s, click)
            && var t := Next(policy, s, click);
            && t.rows == s.rows && Enabled(t, Publish(1, true))
            && var u := Next(policy, t, Publish(1, true));
            && u.rows == s.rows && Enabled(u, Receive(0))
            && var v := Next(policy, u, Receive(0));
            && v.rows == s.rows && 0 in v.calls && v.calls[0].stage == Forwarded
  {
  }

  /** Without unanimity they can disagree, in a run from the start: a "deny" whose publication is lost
      and an "approve" after it forward the call although its ticket is denied, because the webhook
      publishes even when it changed no row. */
  lemma MixedClicksCanDisagree(policy: AgentPolicy, session: string, turn: string, tool: string, args: Value,
                               ticket: string, user: string)
    returns (run: seq<State>, steps: seq<Step>)
    requires policy.maxToolCallsPerTurn >= 1 && ticket != ""
    requires Evaluate(policy, tool, args).Some? && Evaluate(policy, tool, args).value.action == ApprovalRequired
    ensures IsRun(policy, run, steps)
    ensures var s := run[|run| - 1];
            && 0 in s.calls && s.calls[0].stage == Forwarded
            && ticket in s.rows && s.rows[ticket].status == Denied
  {
    hide Enabled, Next;
    run, steps := CallListens(policy, session, turn, tool, args, ticket);
    DenyUnheard(policy, run[|run| - 1], ticket, user);
    run, steps := RunSnoc(policy, run, steps, ClickButton(0, ticket, "deny", user, Done));
    run, steps := RunSnoc(policy, run, steps, Publish(0, false));
    ApproveHeard(policy, run[|run| - 1], ticket, user);
    run, steps := RunSnoc(policy, run, steps, ClickButton(1, ticket, "approve", user, Done));
    run, steps := RunSnoc(policy, run, steps, Publish(1, true));
    run, steps := RunSnoc(policy, run, steps, Receive(0));
  }

  // ---------- the budget in any interleaving ----------

  function KeyOf(c: Call): string {
    B.BudgetKey(c.session, c.turn)
  }

  /** The calls of a session and turn that have been charged. */
  function Charged(s: State, key: string): set<nat> {
    set id | id in s.calls && s.calls[id].stage != Arrived && KeyOf(s.calls[id]) == key
  }

  /** Those that passed the budget check. */
  function Within(s: State, key: string): set<nat> {
    set id | id in s.calls && s.calls[id].stage !in {Arrived, OverBudget} && KeyOf(s.calls[id]) == key
  }

  function ForwardedUnder(s: State, key: string): set<nat> {
    set id | id in s.calls && s.calls[id].stage == Forwarded && KeyOf(s.calls[id]) == key
  }

  function AtMost(n: int, limit: int): int {
    var cap := if limit < 0 then 0 else limit;
    if n < cap then n else cap
  }

  /** Only a charge moves a call into these sets, one call into the set of its own key. */
  lemma ChargeMoves(policy: AgentPolicy, s: State, step: Step, key: string)
    requires Enabled(s, step)
    ensures var s' := Next(policy, s, step);
            if step.Charge? && KeyOf(s.calls[step.id]) == key then
              && step.id !in Charged(s, key) && step.id !in Within(s, key)
              && Charged(s', key) == Charged(s, key) + {step.id}
              && B.CountOf(s'.counts, key) == B.CountOf(s.counts, key) + 1
              && Within(s', key) == Within(s, key) +
                   if B.CountOf(s'.counts, key) <= policy.maxToolCallsPerTurn then {step.id} else {}
            else
              && Charged(s', key) == Charged(s, key) && Within(s', key) == Within(s, key)
              && B.CountOf(s'.counts, key) == B.CountOf(s.counts, key)
  {
    hide Next, Enabled;
    var s' := Next(policy, s, step);
    CountsMove(policy, s, step, key);
    if step.Charge? {
      ChargeAdds(s, s', step.id, key);
    } else {
      forall id | id in s'.calls
        ensures id in s.calls ==> Unmoved(s.calls[id], s'.calls[id])
        ensures id !in s.calls ==> s'.calls[id].stage == Arrived
      {
        StageMoves(policy, s, step, id);
      }
      NobodyAdded(s, s', key);
    }
  }

  lemma NobodyAdded(s: State, s': State, key: string)
    requires s.calls.Keys <= s'.calls.Keys
    requires forall id | id in s'.calls ::
      if id in s.calls then Unmoved(s.calls[id], s'.calls[id]) else s'.calls[id].stage == Arrived
    ensures Charged(s', key) == Charged(s, key) && Within(s', key) == Within(s, key)
  {
  }

  lemma ChargeAdds(s: State, s': State, id: nat, key: string)
    requires id in s.calls && s.calls[id].stage == Arrived && id in s'.calls && s'.calls == s.calls[id := s'.calls[id]]
    requires KeyOf(s'.calls[id]) == KeyOf(s.calls[id]) && s'.calls[id].stage in {OverBudget, Admitted}
    ensures id !in Charged(s, key) && id !in Within(s, key)
    ensures Charged(s', key) == Charged(s, key) + if KeyOf(s.calls[id]) == key then {id} else {}
    ensures Within(s', key) == Within(s, key) +
              if KeyOf(s.calls[id]) == key && s'.calls[id].stage == Admitted then {id} else {}
  {
  }

  /** As far as the budget goes. */
  predicate Unmoved(c: Call, c': Call) {
    && KeyOf(c') == KeyOf(c)
    && (c'.stage == Arrived <==> c.stage == Arrived)
    && (c'.stage == OverBudget <==> c.stage == OverBudget)
  }

  lemma StageMoves(policy: AgentPolicy, s: State, step: Step, id: nat)
    requires Enabled(s, step) && id in Next(policy, s, step).calls
    ensures var s' := Next(policy, s, step);
            && (id in s.calls ==> Unmoved(s.calls[id], s'.calls[id]) || step == Charge(id))
            && (id !in s.calls ==> s'.calls[id].stage == Arrived)
  {
  }

  lemma CountsMove(policy: AgentPolicy, s: State, step: Step, key: string)
    requires Enabled(s, step)
    ensures var s' := Next(policy, s, step);
            && s.calls.Keys <= s'.calls.Keys
            && (step.Charge? ==> step.id in s.calls)
            && B.CountOf(s'.counts, key) == B.CountOf(s.counts, key) +
                 (if step.Charge? && KeyOf(s.calls[step.id]) == key then 1 else 0)
            && (step.Charge? ==>
                  && s.calls[step.id].stage == Arrived && s'.calls == s.calls[step.id := s'.calls[step.id]]
                  && KeyOf(s'.calls[step.id]) == KeyOf(s.calls[step.id])
                  && (KeyOf(s.calls[step.id]) == key ==>
                        s'.calls[step.id].stage == Checked(policy, B.CountOf(s'.counts, key)))
                  && s'.calls[step.id].stage in {OverBudget, Admitted})
  {
  }

  lemma ForwardedAreWithin(s: State, key: string)
    ensures ForwardedUnder(s, key) <= Within(s, key)
  {
  }

  lemma NobodyYet(policy: AgentPolicy, run: seq<State>, steps: seq<Step>, key: string)
    requires IsRun(policy, run, steps)
    ensures Charged(run[0], key) == Within(run[0], key) == ForwardedUnder(run[0], key) == {}
    ensures B.CountOf(run[0].counts, key) == 0
  {
  }

  /** The budget is exact in every run, key by key: however calls, charges, clicks and signals interleave,
      of the n calls charged so far to a budget key exactly min(n, max(0, limit)) passed the check, and no
      more than those are ever forwarded. */
  lemma {:induction false} BudgetExactInRuns(policy: AgentPolicy, run: seq<State>, steps: seq<Step>, n: nat,
      key: string)
    requires IsRun(policy, run, steps) && n < |run|
    ensures |Charged(run[n], key)| == B.CountOf(run[n].counts, key)
    ensures |Within(run[n], key)| == AtMost(|Charged(run[n], key)|, policy.maxToolCallsPerTurn)
    ensures ForwardedUnder(run[n], key) <= Within(run[n], key)
  {
    hide IsRun, Next, Enabled, Charged, Within, ForwardedUnder;
    ForwardedAreWithin(run[n], key);
    if n == 0 {
      NobodyYet(policy, run, steps, key);
    } else {
      BudgetExactInRuns(policy, run, steps, n - 1, key);
      RunStep(policy, run, steps, n - 1);
      ChargeMoves(policy, run[n - 1], steps[n - 1], key);
    }
  }

  function ChargedFor(s: State, session: string, turn: string): set<nat> {
    set id | id in s.calls && s.calls[id].stage != Arrived
             && s.calls[id].session == session && s.calls[id].turn == turn
  }

  function WithinFor(s: State, session: string, turn: string): set<nat> {
    set id | id in s.calls && s.calls[id].stage !in {Arrived, OverBudget}
             && s.calls[id].session == session && s.calls[id].turn == turn
  }

  /** So it is exact for a session and turn when, as with issued sessions, all session IDs have one
      length: other sessions and turns do not matter. */
  lemma BudgetExactForCaller(policy: AgentPolicy, run: seq<State>, steps: seq<Step>, n: nat,
                             session: string, turn: string)
    requires IsRun(policy, run, steps) && n < |run|
    requires forall id | id in run[n].calls :: |run[n].calls[id].session| == |session|
    ensures |WithinFor(run[n], session, turn)|
            == AtMost(|ChargedFor(run[n], session, turn)|, policy.maxToolCallsPerTurn)
  {
    var s, key := run[n], B.BudgetKey(session, turn);
    BudgetExactInRuns(policy, run, steps, n, key);
    forall id | id in s.calls
      ensures KeyOf(s.calls[id]) == key <==> s.calls[id].session == session && s.calls[id].turn == turn
    {
      B.BudgetKeyInjective(s.calls[id].session, s.calls[id].turn, session, turn);
    }
    assert ChargedFor(s, session, turn) == Charged(s, key);
    assert WithinFor(s, session, turn) == Within(s, key);
  }

  /** No budget key ever gets more calls forwarded than the limit. */
  lemma ForwardedWithinBudget(policy: AgentPolicy, run: seq<State>, steps: seq<Step>, n: nat, key: string)
    requires IsRun(policy, run, steps) && n < |run|
    ensures |ForwardedUnder(run[n], key)| <= if policy.maxToolCallsPerTurn < 0 then 0 else policy.maxToolCallsPerTurn
  {
    BudgetExactInRuns(policy, run, steps, n, key);
    SubsetSize(ForwardedUnder(run[n], key), Within(run[n], key));
  }

  lemma {:induction false} SubsetSize(a: set<nat>, b: set<nat>)
    requires a <= b
    ensures |a| <= |b|
  {
    if x :| x in a {
      SubsetSize(a - {x}, b - {x});
    }
  }
}
