/** The lease hypothesis as a matter of time alone: when the scripts that refresh a lease reach Redis
    often enough, nobody has to assume that they succeed. */
module LockTiming {
  import opened Redis
  import opened CallTrace
  import opened LockProtocol

  /** A step that brings a call's acquire or extend script to Redis, whatever comes of it. */
  predicate Touches(step: Step, id: nat) {
    step.Send? && step.id == id && step.fate != NeverSent && (step.op.AcquireSession? || step.op.ExtendSession?)
  }

  /** When a call's last such script reached Redis. */
  function LastTouch(run: seq<State>, steps: seq<Step>, n: nat, id: nat): int
    requires n <= |steps| < |run|
  {
    if n == 0 then 0
    else if Touches(steps[n - 1], id) then run[n - 1].now
    else LastTouch(run, steps, n - 1, id)
  }

  /** Every call inside its session brought an acquire or extend to Redis less than a session TTL ago,
      and every call inside its turn locked it less than a turn TTL ago. */
  predicate Prompt(cfg: Config, run: seq<State>, steps: seq<Step>, n: nat)
    requires n <= |steps| < |run|
  {
    forall id | id in run[n].calls ::
      var c := run[n].calls[id];
      && (HoldsSession(c.phase) ==> run[n].now < LastTouch(run, steps, n, id) + cfg.sessionTtl * NANOS_PER_MILLI)
      && (c.phase == Running ==> run[n].now < c.turnAt + cfg.turnTtl * NANOS_PER_MILLI)
  }

  /** In an unlapsed session every extend that reaches Redis succeeds. */
  lemma ExtendTakesEffect(cfg: Config, s: State, id: nat, op: Op, fate: Fate)
    requires Inv(cfg, s) && LeaseHolds(cfg, s) && Enabled(cfg, s, Send(id, op, fate))
    requires op.ExtendSession? && fate != NeverSent
    ensures TookEffect(s, op, fate)
  {
    var sid := s.calls[id].plan.session;
    assert SessionOk(cfg, s, sid);
    assert id in Holders(s.calls, sid);
    LeaseOf(cfg, s, id);
  }

  /** A call inside its session was refreshed by this step, or was inside before and is as it was. */
  lemma TouchStep(cfg: Config, s: State, step: Step, id: nat)
    requires Inv(cfg, s) && LeaseHolds(cfg, s) && Enabled(cfg, s, step)
    requires id in Next(cfg, s, step).calls && HoldsSession(Next(cfg, s, step).calls[id].phase)
    ensures var c := Next(cfg, s, step).calls[id];
            if Touches(step, id) then c.sessionAt == s.now
            else id in s.calls && HoldsSession(s.calls[id].phase) && c.sessionAt == s.calls[id].sessionAt
  {
    hide Inv, LeaseHolds, Run;
    if step.Send? && step.op.ExtendSession? && step.fate != NeverSent {
      ExtendTakesEffect(cfg, s, step.id, step.op, step.fate);
    }
  }

  lemma StepOf(cfg: Config, run: seq<State>, steps: seq<Step>, i: nat)
    requires IsRun(cfg, run, steps) && i < |steps|
    ensures |run| == |steps| + 1 && Enabled(cfg, run[i], steps[i]) && run[i + 1] == Next(cfg, run[i], steps[i])
  {
  }

  /** While all calls are prompt, all are leased, each since its last touch. */
  lemma {:induction false} PromptIsLeased(cfg: Config, run: seq<State>, steps: seq<Step>, n: nat)
    requires IsRun(cfg, run, steps) && n <= |steps|
    requires forall k | 0 <= k <= n :: Prompt(cfg, run, steps, k)
    ensures Inv(cfg, run[n]) && LeaseHolds(cfg, run[n])
    ensures forall id | id in run[n].calls && HoldsSession(run[n].calls[id].phase) ::
              run[n].calls[id].sessionAt == LastTouch(run, steps, n, id)
  {
    if n == 0 {
      StartIsLeased(cfg, run, steps);
    } else {
      hide IsRun, Inv, Enabled, Next, HoldsSession;
      StepOf(cfg, run, steps, n - 1);
      PromptIsLeased(cfg, run, steps, n - 1);
      forall id | id in run[n].calls && HoldsSession(run[n].calls[id].phase)
        ensures run[n].calls[id].sessionAt == LastTouch(run, steps, n, id)
      {
        TouchStep(cfg, run[n - 1], steps[n - 1], id);
      }
      assert Prompt(cfg, run, steps, n);
      InvKept(cfg, run[n - 1], steps[n - 1]);
    }
  }

  lemma StartIsLeased(cfg: Config, run: seq<State>, steps: seq<Step>)
    requires IsRun(cfg, run, steps)
    ensures Inv(cfg, run[0]) && LeaseHolds(cfg, run[0]) && run[0].calls == map[]
  {
    RunInv(cfg, run, steps, 0);
  }

  /** The guarantees of the locks in every interleaving, from the times alone: any number of calls,
      some of them waiting and extending their sessions, lost replies and failed releases included. */
  lemma PromptRunsAreSafe(cfg: Config, run: seq<State>, steps: seq<Step>)
    requires IsRun(cfg, run, steps)
    requires forall n | 0 <= n <= |steps| :: Prompt(cfg, run, steps, n)
    ensures forall i | 0 <= i < |run| ::
              && SessionExclusion(run[i]) && TurnExclusion(run[i])
              && RefcountExact(run[i]) && ReadersExact(run[i])
              && DeadlinesShared(cfg, run[i]) && RepliesTruthful(run[i])
  {
    forall i | 0 <= i < |run| ensures LeaseHolds(cfg, run[i]) {
      PromptIsLeased(cfg, run, steps, i);
    }
    LeasedRunsAreSafe(cfg, run, steps);
  }
}
