/** Exactly when the locks stop excluding, in every run and with no hypothesis about leases: the one
    step that loses exclusion is a script that finds the keys open while a conflicting call is inside. */
module LockSurvival {
  import opened Wrappers
  import opened Redis
  import opened CallTrace
  import opened LockProtocol

  // ---------- what the keys hold ----------

  /** Owners and writer tokens are texts, counters are numbers. */
  predicate KeysTyped(db: Db) {
    forall k | k in db :: if k.SessionOwner? || k.TurnWriter? then db[k].value.Text? else db[k].value.Num?
  }

  lemma ScriptKeepsTypes(db: Db, now: int, op: Op)
    requires KeysTyped(db)
    ensures KeysTyped(Run(db, now, op).db)
  {
  }

  lemma {:induction false} RunKeysTyped(cfg: Config, run: seq<State>, steps: seq<Step>, n: nat)
    requires IsRun(cfg, run, steps) && n < |run|
    ensures KeysTyped(run[n].db)
  {
    if n > 0 {
      RunKeysTyped(cfg, run, steps, n - 1);
      StepKeepsTypes(cfg, run[n - 1], steps[n - 1]);
    }
  }

  lemma StepKeepsTypes(cfg: Config, s: State, step: Step)
    requires Enabled(cfg, s, step) && KeysTyped(s.db)
    ensures KeysTyped(Next(cfg, s, step).db)
  {
    hide Run, KeysTyped;
    if step.Send? {
      ScriptKeepsTypes(s.db, s.now, step.op);
    }
  }

  // ---------- sessions ----------

  /** The acquire script would let this call in: the lease is free, or its owner is the call's turn. */
  predicate SessionOpen(s: State, p: Plan) {
    var owner := Get(s.db, s.now, SessionOwner(p.session));
    owner == Some(Text(p.turn)) || (owner == None && p.sessionTtl > 0)
  }

  /** The step lets a call into a session that it finds open while a call of another turn is inside. */
  predicate Intrudes(s: State, step: Step, holder: nat) {
    && step.Send? && step.id in s.calls && holder in s.calls
    && var p := s.calls[step.id].plan;
    && step == Send(step.id, p.Acquire(), Replied) && s.calls[step.id].phase == WantSession
    && InSession(s.calls[holder], p.session) && s.calls[holder].plan.turn != p.turn
    && SessionOpen(s, p)
  }

  lemma AcquireGetsInIff(cfg: Config, s: State, id: nat)
    requires KeysTyped(s.db) && id in s.calls && s.calls[id].phase == WantSession
    ensures var attempt := Send(id, s.calls[id].plan.Acquire(), Replied);
            && Enabled(cfg, s, attempt)
            && (HoldsSession(Next(cfg, s, attempt).calls[id].phase) <==> SessionOpen(s, s.calls[id].plan))
  {
  }

  /** Only an acquire that is answered brings a call into its session. */
  lemma NewHolder(cfg: Config, s: State, step: Step, id: nat)
    requires Enabled(cfg, s, step) && id in Next(cfg, s, step).calls
    requires HoldsSession(Next(cfg, s, step).calls[id].phase)
    requires id in s.calls ==> !HoldsSession(s.calls[id].phase)
    ensures id in s.calls && s.calls[id].phase == WantSession && step == Send(id, s.calls[id].plan.Acquire(), Replied)
  {
    hide Run;
  }

  lemma PlansKept(cfg: Config, s: State, step: Step, id: nat)
    requires Enabled(cfg, s, step) && id in s.calls
    ensures var s' := Next(cfg, s, step);
            && id in s'.calls && s'.calls[id].plan == s.calls[id].plan
            && (step.Send? && step.id != id ==> s'.calls[id] == s.calls[id])
  {
    hide Run;
  }

  lemma OthersUnmoved(cfg: Config, s: State, step: Step, id: nat)
    requires Enabled(cfg, s, step) && step.Send? && step.id != id && id in Next(cfg, s, step).calls
    ensures id in s.calls && Next(cfg, s, step).calls[id] == s.calls[id]
  {
    hide Run;
  }

  lemma NewHolderIntrudes(cfg: Config, s: State, step: Step, i: nat, j: nat)
    requires Enabled(cfg, s, step) && KeysTyped(s.db)
    requires i in Next(cfg, s, step).calls && j in Next(cfg, s, step).calls
    requires var c, d := Next(cfg, s, step).calls[i], Next(cfg, s, step).calls[j];
             && HoldsSession(c.phase) && HoldsSession(d.phase) && c.plan.session == d.plan.session
             && c.plan.turn != d.plan.turn
    requires i in s.calls ==> !HoldsSession(s.calls[i].phase)
    ensures Intrudes(s, step, j)
  {
    hide Next, Enabled, KeysTyped, SessionOpen;
    NewHolder(cfg, s, step, i);
    AcquireGetsInIff(cfg, s, i);
    PlansKept(cfg, s, step, i);
    OthersUnmoved(cfg, s, step, j);
  }

  /** Session exclusion is lost exactly by a step that intrudes. */
  lemma SessionStepIff(cfg: Config, s: State, step: Step)
    requires Enabled(cfg, s, step) && KeysTyped(s.db) && SessionExclusion(s)
    ensures !SessionExclusion(Next(cfg, s, step)) <==> exists holder :: Intrudes(s, step, holder)
  {
    hide Next, Enabled, KeysTyped, SessionOpen;
    var s' := Next(cfg, s, step);
    if holder :| Intrudes(s, step, holder) {
      AcquireGetsInIff(cfg, s, step.id);
      PlansKept(cfg, s, step, step.id);
      PlansKept(cfg, s, step, holder);
    }
    if !SessionExclusion(s') {
      var i, j :| i in s'.calls && j in s'.calls && HoldsSession(s'.calls[i].phase) && HoldsSession(s'.calls[j].phase)
                  && s'.calls[i].plan.session == s'.calls[j].plan.session
                  && s'.calls[i].plan.turn != s'.calls[j].plan.turn;
      if i !in s.calls || !HoldsSession(s.calls[i].phase) {
        NewHolderIntrudes(cfg, s, step, i, j);
      } else if j !in s.calls || !HoldsSession(s.calls[j].phase) {
        NewHolderIntrudes(cfg, s, step, j, i);
      } else {
        PlansKept(cfg, s, step, i);
        PlansKept(cfg, s, step, j);
        assert false;
      }
    }
  }

  // ---------- turns ----------

  /** The lock script would let this call in: no writer, and for a writer a counter of zero, for a reader
      any counter but -1. */
  predicate TurnOpen(s: State, p: Plan) {
    && !Live(s.db, s.now, TurnWriter(p.turn))
    && var readers := Counter(s.db, s.now, TurnReaders(p.turn));
    if p.kind == Read then readers != -1 else readers == 0 && p.turnTtl > 0
  }

  /** The step lets a call into a turn that it finds open while a conflicting call is inside. */
  predicate Conflicts(s: State, step: Step, holder: nat) {
    && step.Send? && step.id in s.calls && holder in s.calls && holder != step.id
    && var p := s.calls[step.id].plan;
    && step == Send(step.id, p.Lock(), Replied) && s.calls[step.id].phase == WantTurn
    && s.calls[holder].phase == Running && s.calls[holder].plan.turn == p.turn
    && !(s.calls[holder].plan.kind == Read && p.kind == Read)
    && TurnOpen(s, p)
  }

  lemma LockGetsInIff(cfg: Config, s: State, id: nat)
    requires KeysTyped(s.db) && id in s.calls && s.calls[id].phase == WantTurn
    ensures var attempt := Send(id, s.calls[id].plan.Lock(), Replied);
            && Enabled(cfg, s, attempt)
            && (Next(cfg, s, attempt).calls[id].phase == Running <==> TurnOpen(s, s.calls[id].plan))
  {
  }

  /** Only a lock script that is answered brings a call into its turn. */
  lemma NewInsider(cfg: Config, s: State, step: Step, id: nat)
    requires Enabled(cfg, s, step) && id in Next(cfg, s, step).calls
    requires Next(cfg, s, step).calls[id].phase == Running
    requires id in s.calls ==> s.calls[id].phase != Running
    ensures id in s.calls && s.calls[id].phase == WantTurn && step == Send(id, s.calls[id].plan.Lock(), Replied)
  {
    hide Run;
  }

  lemma NewInsiderConflicts(cfg: Config, s: State, step: Step, i: nat, j: nat)
    requires Enabled(cfg, s, step) && KeysTyped(s.db) && i != j
    requires i in Next(cfg, s, step).calls && j in Next(cfg, s, step).calls
    requires var c, d := Next(cfg, s, step).calls[i], Next(cfg, s, step).calls[j];
             && c.phase == d.phase == Running && c.plan.turn == d.plan.turn && !(c.plan.kind == d.plan.kind == Read)
    requires i in s.calls ==> s.calls[i].phase != Running
    ensures Conflicts(s, step, j)
  {
    hide Next, Enabled, KeysTyped, TurnOpen;
    NewInsider(cfg, s, step, i);
    LockGetsInIff(cfg, s, i);
    PlansKept(cfg, s, step, i);
    OthersUnmoved(cfg, s, step, j);
  }

  /** Turn exclusion is lost exactly by a step that conflicts. */
  lemma TurnStepIff(cfg: Config, s: State, step: Step)
    requires Enabled(cfg, s, step) && KeysTyped(s.db) && TurnExclusion(s)
    ensures !TurnExclusion(Next(cfg, s, step)) <==> exists holder :: Conflicts(s, step, holder)
  {
    hide Next, Enabled, KeysTyped, TurnOpen;
    var s' := Next(cfg, s, step);
    if holder :| Conflicts(s, step, holder) {
      LockGetsInIff(cfg, s, step.id);
      PlansKept(cfg, s, step, step.id);
      PlansKept(cfg, s, step, holder);
    }
    if !TurnExclusion(s') {
      var i, j :| i in s'.calls && j in s'.calls && i != j && s'.calls[i].phase == s'.calls[j].phase == Running
                  && s'.calls[i].plan.turn == s'.calls[j].plan.turn
                  && !(s'.calls[i].plan.kind == Read && s'.calls[j].plan.kind == Read);
      if i !in s.calls || s.calls[i].phase != Running {
        NewInsiderConflicts(cfg, s, step, i, j);
      } else if j !in s.calls || s.calls[j].phase != Running {
        NewInsiderConflicts(cfg, s, step, j, i);
      } else {
        PlansKept(cfg, s, step, i);
        PlansKept(cfg, s, step, j);
        assert false;
      }
    }
  }

  // ---------- runs ----------

  /** In every run, whatever has lapsed before: a step takes session exclusion away if and only if it is
      the answered acquire of a call that finds its session free, or owned by its turn, while a call of
      another turn is inside. */
  lemma SessionExclusionLostIff(cfg: Config, run: seq<State>, steps: seq<Step>, i: nat)
    requires IsRun(cfg, run, steps) && i < |steps| && SessionExclusion(run[i])
    ensures !SessionExclusion(run[i + 1]) <==> exists holder :: Intrudes(run[i], steps[i], holder)
  {
    RunKeysTyped(cfg, run, steps, i);
    SessionStepIff(cfg, run[i], steps[i]);
  }

  /** In every run, whatever has lapsed before: a step takes turn exclusion away if and only if it is the
      answered lock script of a call that finds no writer key, and a counter of zero (a writer) or other
      than -1 (a reader), while a conflicting call is inside. */
  lemma TurnExclusionLostIff(cfg: Config, run: seq<State>, steps: seq<Step>, i: nat)
    requires IsRun(cfg, run, steps) && i < |steps| && TurnExclusion(run[i])
    ensures !TurnExclusion(run[i + 1]) <==> exists holder :: Conflicts(run[i], steps[i], holder)
  {
    RunKeysTyped(cfg, run, steps, i);
    TurnStepIff(cfg, run[i], steps[i]);
  }
}
