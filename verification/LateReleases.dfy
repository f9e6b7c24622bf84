/** Why a lease of one's own does not protect a call: the unlock or release of a call that overstayed
    gives back the unit of a call that is inside. */
module LateReleases {
  import opened Wrappers
  import opened Redis
  import opened CallTrace
  import opened LockProtocol
  import opened LockHazards
  import opened LockSurvival

  /** All leases in force are those of one turn. */
  ghost predicate OneTurn(s: State, t: string) {
    && KeysTyped(s.db)
    && forall sid: string :: Get(s.db, s.now, SessionOwner(sid)) in {None, Some(Text(t))}
  }

  /** The keys of a turn are as before. */
  predicate TurnKeysKept(s: State, s': State, t: string) {
    && (TurnReaders(t) in s'.db <==> TurnReaders(t) in s.db)
    && (TurnReaders(t) in s.db ==> s'.db[TurnReaders(t)] == s.db[TurnReaders(t)])
    && (TurnWriter(t) in s'.db <==> TurnWriter(t) in s.db)
    && (TurnWriter(t) in s.db ==> s'.db[TurnWriter(t)] == s.db[TurnWriter(t)])
  }

  predicate Newcomer(cfg: Config, s: State, id: nat, plan: Plan) {
    id !in s.calls && FreshToken(s, plan) && plan.sessionTtl == cfg.sessionTtl > 0 && plan.turnTtl == cfg.turnTtl > 0
  }

  lemma AcquireInOneTurn(cfg: Config, s: State, id: nat)
    requires id in s.calls && s.calls[id].phase == WantSession && s.calls[id].plan.sessionTtl > 0
    requires OneTurn(s, s.calls[id].plan.turn)
    ensures var p := s.calls[id].plan;
            var step := Send(id, p.Acquire(), Replied);
            && Enabled(cfg, s, step)
            && var s' := Next(cfg, s, step);
            && s'.now == s.now && s'.calls == s.calls[id := Call(p, WantTurn, s.now, s.calls[id].turnAt)]
            && OneTurn(s', p.turn) && TurnKeysKept(s, s', p.turn)
            && (Get(s.db, s.now, SessionOwner(p.session)) == None ==>
                  s'.db == s.db[SessionOwner(p.session) := Leased(Text(p.turn), s.now, p.sessionTtl)]
                               [SessionCount(p.session) := Leased(Num(1), s.now, p.sessionTtl)])
  {
    var p := s.calls[id].plan;
    var step := Send(id, p.Acquire(), Replied);
    assert Get(s.db, s.now, SessionOwner(p.session)) in {None, Some(Text(p.turn))};
    AcquireGetsInIff(cfg, s, id);
    StepKeepsTypes(cfg, s, step);
    RunFrame(s.db, s.now, p.Acquire(), TurnReaders(p.turn));
    RunFrame(s.db, s.now, p.Acquire(), TurnWriter(p.turn));
    var s' := Next(cfg, s, step);
    forall sid: string ensures Get(s'.db, s'.now, SessionOwner(sid)) in {None, Some(Text(p.turn))} {
      assert Get(s.db, s.now, SessionOwner(sid)) in {None, Some(Text(p.turn))};
      if sid != p.session {
        RunFrame(s.db, s.now, p.Acquire(), SessionOwner(sid));
      }
    }
  }

  /** A call arrives and gets into its session, be it new, expired or another call's of its turn. */
  lemma Enters(cfg: Config, run: seq<State>, steps: seq<Step>, id: nat, plan: Plan)
    returns (run': seq<State>, steps': seq<Step>)
    requires IsRun(cfg, run, steps) && Newcomer(cfg, run[|run| - 1], id, plan) && OneTurn(run[|run| - 1], plan.turn)
    ensures IsRun(cfg, run', steps')
    ensures var s, s' := run[|run| - 1], run'[|run'| - 1];
            && s'.now == s.now && s'.calls == s.calls[id := Call(plan, WantTurn, s.now, s.now)]
            && OneTurn(s', plan.turn) && TurnKeysKept(s, s', plan.turn)
            && (Get(s.db, s.now, SessionOwner(plan.session)) == None ==>
                  s'.db == s.db[SessionOwner(plan.session) := Leased(Text(plan.turn), s.now, plan.sessionTtl)]
                               [SessionCount(plan.session) := Leased(Num(1), s.now, plan.sessionTtl)])
  {
    hide Run, OneTurn, KeysTyped;
    var s := run[|run| - 1];
    run', steps' := RunSnoc(cfg, run, steps, Arrive(id, plan));
    var t := run'[|run'| - 1];
    assert OneTurn(t, plan.turn) by {
      SameKeysOneTurn(s, t, plan.turn);
    }
    AcquireInOneTurn(cfg, t, id);
    run', steps' := RunSnoc(cfg, run', steps', Send(id, plan.Acquire(), Replied));
  }

  lemma SameKeysOneTurn(s: State, s': State, t: string)
    requires OneTurn(s, t) && s'.db == s.db && s'.now >= s.now
    ensures OneTurn(s', t)
  {
    forall sid: string ensures Get(s'.db, s'.now, SessionOwner(sid)) in {None, Some(Text(t))} {
      assert Get(s.db, s.now, SessionOwner(sid)) in {None, Some(Text(t))};
    }
  }

  lemma Waits(cfg: Config, run: seq<State>, steps: seq<Step>, d: nat, t: string)
    returns (run': seq<State>, steps': seq<Step>)
    requires IsRun(cfg, run, steps) && OneTurn(run[|run| - 1], t)
    ensures IsRun(cfg, run', steps') && OneTurn(run'[|run'| - 1], t)
    ensures run'[|run'| - 1] == run[|run| - 1].(now := run[|run| - 1].now + d)
  {
    hide Run, OneTurn;
    run', steps' := RunSnoc(cfg, run, steps, Elapse(d));
    SameKeysOneTurn(run[|run| - 1], run'[|run'| - 1], t);
  }

  /** A turn lock or unlock that is answered, as seen from the sessions. */
  lemma TurnStepOneTurn(cfg: Config, s: State, id: nat, op: Op, t: string)
    requires Enabled(cfg, s, Send(id, op, Replied)) && OneTurn(s, t)
    requires !(op.AcquireSession? || op.ReleaseSession? || op.ExtendSession?)
    ensures OneTurn(Next(cfg, s, Send(id, op, Replied)), t)
  {
    var s' := Next(cfg, s, Send(id, op, Replied));
    StepKeepsTypes(cfg, s, Send(id, op, Replied));
    forall sid: string ensures Get(s'.db, s'.now, SessionOwner(sid)) in {None, Some(Text(t))} {
      assert Get(s.db, s.now, SessionOwner(sid)) in {None, Some(Text(t))};
      RunFrame(s.db, s.now, op, SessionOwner(sid));
    }
  }

  // ---------- a late unlock ----------

  lemma FirstReaderLocks(cfg: Config, s: State, id: nat)
    requires id in s.calls && s.calls[id].phase == WantTurn
    requires s.calls[id].plan.kind == Read && s.calls[id].plan.turnTtl > 0
    requires !Live(s.db, s.now, TurnReaders(s.calls[id].plan.turn))
      && !Live(s.db, s.now, TurnWriter(s.calls[id].plan.turn))
    ensures var c := s.calls[id];
            var step := Send(id, c.plan.Lock(), Replied);
            && Enabled(cfg, s, step)
            && var s' := Next(cfg, s, step);
            && s'.now == s.now && s'.calls == s.calls[id := Call(c.plan, Running, c.sessionAt, s.now)]
            && s'.db == s.db[TurnReaders(c.plan.turn) := Leased(Num(1), s.now, c.plan.turnTtl)]
  {
  }

  lemma ReaderUnlocks(cfg: Config, s: State, id: nat)
    requires id in s.calls && s.calls[id].phase == Running && s.calls[id].plan.kind == Read
    requires Get(s.db, s.now, TurnReaders(s.calls[id].plan.turn)) == Some(Num(1))
    ensures var c := s.calls[id];
            var key, step := TurnReaders(c.plan.turn), Send(id, c.plan.Unlock(), Replied);
            && Enabled(cfg, s, step)
            && var s' := Next(cfg, s, step);
            && s'.now == s.now && s'.calls == s.calls[id := Call(c.plan, DropSession, c.sessionAt, c.turnAt)]
            && s'.db == s.db[key := Entry(Num(0), s.db[key].deadline)]
  {
  }

  lemma WriterLocks(cfg: Config, s: State, id: nat)
    requires id in s.calls && s.calls[id].phase == WantTurn
    requires s.calls[id].plan.kind == Write && s.calls[id].plan.turnTtl > 0
    requires Get(s.db, s.now, TurnReaders(s.calls[id].plan.turn)) == Some(Num(0))
    requires !Live(s.db, s.now, TurnWriter(s.calls[id].plan.turn))
    ensures var c := s.calls[id];
            var step := Send(id, c.plan.Lock(), Replied);
            && Enabled(cfg, s, step)
            && var s' := Next(cfg, s, step);
            && s'.now == s.now && s'.calls == s.calls[id := Call(c.plan, Running, c.sessionAt, s.now)]
            && s'.db == s.db[TurnWriter(c.plan.turn) := Leased(Text(c.plan.token), s.now, c.plan.turnTtl)]
  {
  }

  /** One reader overstays, and a second one enters with a counter of its own. */
  lemma TwoReaders(cfg: Config, first: Plan, second: Plan) returns (run: seq<State>, steps: seq<Step>)
    requires cfg.sessionTtl > 0 && cfg.turnTtl > 0 && first.kind == second.kind == Read && first.turn == second.turn
    requires first.token != second.token
    requires first.sessionTtl == second.sessionTtl == cfg.sessionTtl && first.turnTtl == second.turnTtl == cfg.turnTtl
    ensures IsRun(cfg, run, steps)
    ensures var s, t := run[|run| - 1], cfg.turnTtl * NANOS_PER_MILLI;
            && OneTurn(s, first.turn) && s.now == t
            && s.calls == map[0 := Call(first, Running, 0, 0), 1 := Call(second, Running, t, t)]
            && TurnReaders(first.turn) in s.db && s.db[TurnReaders(first.turn)] == Leased(Num(1), t, cfg.turnTtl)
            && !Live(s.db, s.now, TurnWriter(first.turn))
  {
    hide Enabled, Next, Run, OneTurn;
    run, steps := Nobody(cfg, first);
    run, steps := Enters(cfg, run, steps, 0, first);
    FirstReaderLocks(cfg, run[|run| - 1], 0);
    TurnStepOneTurn(cfg, run[|run| - 1], 0, first.Lock(), first.turn);
    run, steps := RunSnoc(cfg, run, steps, Send(0, first.Lock(), Replied));
    run, steps := Waits(cfg, run, steps, cfg.turnTtl * NANOS_PER_MILLI, first.turn);
    run, steps := Enters(cfg, run, steps, 1, second);
    FirstReaderLocks(cfg, run[|run| - 1], 1);
    TurnStepOneTurn(cfg, run[|run| - 1], 1, second.Lock(), first.turn);
    run, steps := RunSnoc(cfg, run, steps, Send(1, second.Lock(), Replied));
  }

  lemma Nobody(cfg: Config, plan: Plan) returns (run: seq<State>, steps: seq<Step>)
    ensures IsRun(cfg, run, steps) && run[|run| - 1] == State(0, map[], map[], map[], map[])
    ensures OneTurn(run[|run| - 1], plan.turn)
  {
    run, steps := [State(0, map[], map[], map[], map[])], [];
  }

  /** A reader overstays its turn lease, a second one enters, and then the first one's unlock, which asks
      for no owner, takes the second one's unit: a writer gets in beside a reader whose own key is alive,
      and both are well inside their leases. */
  lemma LateUnlockAdmitsWriter(cfg: Config, first: Plan, second: Plan, third: Plan)
    returns (run: seq<State>, steps: seq<Step>)
    requires cfg.sessionTtl > 0 && cfg.turnTtl > 0
    requires first.kind == second.kind == Read && third.kind == Write && first.turn == second.turn == third.turn
    requires first.token != second.token && third.token != first.token && third.token != second.token
    requires first.sessionTtl == second.sessionTtl == third.sessionTtl == cfg.sessionTtl
    requires first.turnTtl == second.turnTtl == third.turnTtl == cfg.turnTtl
    ensures IsRun(cfg, run, steps)
    ensures var s := run[|run| - 1];
            && s.calls.Keys == {0, 1, 2}
            && InTurn(s.calls[1], first.turn, Read) && InTurn(s.calls[2], first.turn, Write) && !TurnExclusion(s)
            && (forall id | id in {1, 2} ::
                  && s.now < s.calls[id].turnAt + cfg.turnTtl * NANOS_PER_MILLI
                  && s.now < s.calls[id].sessionAt + cfg.sessionTtl * NANOS_PER_MILLI)
            && Live(s.db, s.now, TurnReaders(first.turn))
            && s.db[TurnReaders(first.turn)].deadline == At(s.calls[1].turnAt + cfg.turnTtl * NANOS_PER_MILLI)
  {
    hide Enabled, Next, Run, OneTurn;
    run, steps := TwoReaders(cfg, first, second);
    ReaderUnlocks(cfg, run[|run| - 1], 0);
    TurnStepOneTurn(cfg, run[|run| - 1], 0, first.Unlock(), first.turn);
    run, steps := RunSnoc(cfg, run, steps, Send(0, first.Unlock(), Replied));
    run, steps := Enters(cfg, run, steps, 2, third);
    WriterLocks(cfg, run[|run| - 1], 2);
    run, steps := RunSnoc(cfg, run, steps, Send(2, third.Lock(), Replied));
    ConflictInside(run[|run| - 1], 1, 2);
  }

  // ---------- a late release ----------

  lemma FirstLocks(cfg: Config, s: State, id: nat)
    requires id in s.calls && s.calls[id].phase == WantTurn && s.calls[id].plan.turnTtl > 0
    requires var t := s.calls[id].plan.turn; !Live(s.db, s.now, TurnReaders(t)) && !Live(s.db, s.now, TurnWriter(t))
    ensures var c := s.calls[id];
            var step := Send(id, c.plan.Lock(), Replied);
            && Enabled(cfg, s, step)
            && var s' := Next(cfg, s, step);
            && s'.now == s.now && s'.calls == s.calls[id := Call(c.plan, Running, c.sessionAt, s.now)]
            && SessionKeysKept(s, s', c.plan.session)
  {
  }

  predicate SessionKeysKept(s: State, s': State, sid: string) {
    && (SessionOwner(sid) in s'.db <==> SessionOwner(sid) in s.db)
    && (SessionOwner(sid) in s.db ==> s'.db[SessionOwner(sid)] == s.db[SessionOwner(sid)])
    && (SessionCount(sid) in s'.db <==> SessionCount(sid) in s.db)
    && (SessionCount(sid) in s.db ==> s'.db[SessionCount(sid)] == s.db[SessionCount(sid)])
  }

  lemma Unlocks(cfg: Config, s: State, id: nat)
    requires id in s.calls && s.calls[id].phase == Running
    ensures var c := s.calls[id];
            var step := Send(id, c.plan.Unlock(), Replied);
            && Enabled(cfg, s, step)
            && var s' := Next(cfg, s, step);
            && s'.now == s.now && s'.calls == s.calls[id := Call(c.plan, DropSession, c.sessionAt, c.turnAt)]
            && SessionKeysKept(s, s', c.plan.session)
  {
    RunFrame(s.db, s.now, s.calls[id].plan.Unlock(), SessionOwner(s.calls[id].plan.session));
    RunFrame(s.db, s.now, s.calls[id].plan.Unlock(), SessionCount(s.calls[id].plan.session));
  }

  lemma LastRelease(cfg: Config, s: State, id: nat)
    requires id in s.calls && s.calls[id].phase == DropSession
    requires Get(s.db, s.now, SessionOwner(s.calls[id].plan.session)) == Some(Text(s.calls[id].plan.turn))
    requires Get(s.db, s.now, SessionCount(s.calls[id].plan.session)) == Some(Num(1))
    ensures var c := s.calls[id];
            var step := Send(id, c.plan.Release(), Replied);
            && Enabled(cfg, s, step)
            && var s' := Next(cfg, s, step);
            && s'.now == s.now && s'.calls == s.calls[id := Call(c.plan, Finished, c.sessionAt, c.turnAt)]
            && SessionOwner(c.plan.session) !in s'.db
  {
  }

  /** A call overstays its session, and another call of its turn takes a new lease. */
  lemma TwoHolders(cfg: Config, first: Plan, second: Plan) returns (run: seq<State>, steps: seq<Step>)
    requires cfg.sessionTtl > 0 && cfg.turnTtl > 0 && first.session == second.session && first.turn == second.turn
    requires first.token != second.token
    requires first.sessionTtl == second.sessionTtl == cfg.sessionTtl && first.turnTtl == second.turnTtl == cfg.turnTtl
    ensures IsRun(cfg, run, steps)
    ensures var s, t := run[|run| - 1], cfg.sessionTtl * NANOS_PER_MILLI;
            && s.now == t
            && s.calls == map[0 := Call(first, Running, 0, 0), 1 := Call(second, WantTurn, t, t)]
            && Get(s.db, t, SessionOwner(first.session)) == Some(Text(first.turn))
            && Get(s.db, t, SessionCount(first.session)) == Some(Num(1))
  {
    hide Enabled, Next, Run, OneTurn;
    run, steps := Nobody(cfg, first);
    run, steps := Enters(cfg, run, steps, 0, first);
    FirstLocks(cfg, run[|run| - 1], 0);
    TurnStepOneTurn(cfg, run[|run| - 1], 0, first.Lock(), first.turn);
    run, steps := RunSnoc(cfg, run, steps, Send(0, first.Lock(), Replied));
    run, steps := Waits(cfg, run, steps, cfg.sessionTtl * NANOS_PER_MILLI, first.turn);
    run, steps := Enters(cfg, run, steps, 1, second);
  }

  /** A call overstays its session, another call of its turn takes a new lease, and then the first one's
      release, which asks for the turn alone, deletes that lease: a call of another turn gets in beside a
      call whose lease has not lapsed. */
  lemma LateReleaseAdmitsIntruder(cfg: Config, first: Plan, second: Plan, third: Plan)
    returns (run: seq<State>, steps: seq<Step>)
    requires cfg.sessionTtl > 0 && cfg.turnTtl > 0
    requires first.session == second.session == third.session && first.turn == second.turn != third.turn
    requires first.token != second.token && third.token != first.token && third.token != second.token
    requires first.sessionTtl == second.sessionTtl == third.sessionTtl == cfg.sessionTtl
    requires first.turnTtl == second.turnTtl == third.turnTtl == cfg.turnTtl
    ensures IsRun(cfg, run, steps)
    ensures var s := run[|run| - 1];
            && s.calls.Keys == {0, 1, 2} && s.calls[0].phase == Finished
            && InSession(s.calls[1], first.session) && s.calls[1].plan == second
            && InSession(s.calls[2], first.session) && s.calls[2].plan == third && !SessionExclusion(s)
            && (forall id | id in {1, 2} :: s.now < s.calls[id].sessionAt + cfg.sessionTtl * NANOS_PER_MILLI)
  {
    hide Enabled, Next, Run;
    run, steps := TwoHolders(cfg, first, second);
    Unlocks(cfg, run[|run| - 1], 0);
    run, steps := RunSnoc(cfg, run, steps, Send(0, first.Unlock(), Replied));
    LastRelease(cfg, run[|run| - 1], 0);
    run, steps := RunSnoc(cfg, run, steps, Send(0, first.Release(), Replied));
    ThirdArrives(cfg, run[|run| - 1], third);
    run, steps := RunSnoc(cfg, run, steps, Arrive(2, third));
    FreeAcquire(cfg, run[|run| - 1], 2);
    run, steps := RunSnoc(cfg, run, steps, Send(2, third.Acquire(), Replied));
    var s := run[|run| - 1];
    assert HoldsSession(s.calls[1].phase) && HoldsSession(s.calls[2].phase);
  }

  lemma ThirdArrives(cfg: Config, s: State, plan: Plan)
    requires Newcomer(cfg, s, 2, plan)
    ensures Enabled(cfg, s, Arrive(2, plan))
    ensures Next(cfg, s, Arrive(2, plan)) == s.(calls := s.calls[2 := Call(plan, WantSession, s.now, s.now)])
  {
  }

  lemma FreeAcquire(cfg: Config, s: State, id: nat)
    requires id in s.calls && s.calls[id].phase == WantSession && s.calls[id].plan.sessionTtl > 0
    requires SessionOwner(s.calls[id].plan.session) !in s.db
    ensures var c := s.calls[id];
            var step := Send(id, c.plan.Acquire(), Replied);
            && Enabled(cfg, s, step)
            && var s' := Next(cfg, s, step);
            s'.now == s.now && s'.calls == s.calls[id := Call(c.plan, WantTurn, s.now, c.turnAt)]
  {
  }
}
