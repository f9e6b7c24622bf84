/** Where the lock guarantees end: when the lease of a call lets another one in, what a late reader
    unlock leaves behind, and why an approval wait does not protect its turn lock. The exact conditions
    in every state are in LockSurvival; here they are read off for leased states. */
module LockHazards {
  import opened Wrappers
  import opened Redis
  import opened CallTrace
  import opened LockProtocol

  /** While no lease has lapsed so far: a holder inside a session, a call of another turn waiting for it,
      and d nanoseconds more; exclusion survives the newcomer's next attempt if and only if the holder's
      lease has not lapsed by then. (LateReleases.LateReleaseAdmitsIntruder shows that an earlier lapse
      can cost a later holder its lease; LockSurvival.SessionExclusionLostIff covers that as well.) */
  lemma IntruderAdmittedIffLapsed(cfg: Config, s: State, holder: nat, intruder: nat, d: nat)
    requires Inv(cfg, s) && cfg.sessionTtl > 0
    requires holder in s.calls && HoldsSession(s.calls[holder].phase)
    requires intruder in s.calls && s.calls[intruder].phase == WantSession
    requires s.calls[intruder].plan.session == s.calls[holder].plan.session
    requires s.calls[intruder].plan.turn != s.calls[holder].plan.turn
    ensures var owner := SessionOwner(s.calls[holder].plan.session);
            var late := Next(cfg, s, Elapse(d));
            var attempt := Send(intruder, s.calls[intruder].plan.Acquire(), Replied);
            && Enabled(cfg, late, attempt)
            && owner in s.db && s.db[owner].deadline.At?
            && (SessionExclusion(Next(cfg, late, attempt)) <==> late.now < s.db[owner].deadline.ns)
  {
    var sid := s.calls[holder].plan.session;
    assert SessionOk(cfg, s, sid);
    assert holder in Holders(s.calls, sid);
    var late := Next(cfg, s, Elapse(d));
    var op := s.calls[intruder].plan.Acquire();
    var after := Next(cfg, late, Send(intruder, op, Replied));
    if late.now < s.db[SessionOwner(sid)].deadline.ns {
      assert Run(late.db, late.now, op).reply == Some(0);
      assert after.calls[intruder].phase == WantSession;
      InvSessionExclusion(cfg, s);
      forall i, j | i in after.calls && j in after.calls && HoldsSession(after.calls[i].phase)
        && HoldsSession(after.calls[j].phase)
                    && after.calls[i].plan.session == after.calls[j].plan.session
        ensures after.calls[i].plan.turn == after.calls[j].plan.turn
      {
        assert i != intruder && j != intruder;
        assert after.calls[i] == s.calls[i] && after.calls[j] == s.calls[j];
      }
    } else {
      assert Run(late.db, late.now, op).reply == Some(1);
      assert after.calls[intruder].phase == WantTurn;
      assert after.calls[holder] == s.calls[holder];
    }
  }

  /** The same for a turn, for every conflicting pair, while no lease has lapsed so far: a writer beside a
      reader or a writer, or a reader beside a writer, gets in if and only if the key that holds the first
      one's lease has expired by then, whichever sessions the two belong to. (For what an earlier lapse can
      do see LateReleases.LateUnlockAdmitsWriter and LockSurvival.TurnExclusionLostIff.) */
  lemma ConflictAdmittedIffLapsed(cfg: Config, s: State, holder: nat, other: nat, d: nat)
    requires Inv(cfg, s) && cfg.turnTtl > 0
    requires holder in s.calls && s.calls[holder].phase == Running
    requires other in s.calls && s.calls[other].phase == WantTurn
    requires s.calls[other].plan.turn == s.calls[holder].plan.turn
    requires !(s.calls[holder].plan.kind == Read && s.calls[other].plan.kind == Read)
    ensures var key := TurnKey(s.calls[holder].plan.turn, s.calls[holder].plan.kind);
            var late := Next(cfg, s, Elapse(d));
            var attempt := Send(other, s.calls[other].plan.Lock(), Replied);
            && Enabled(cfg, late, attempt)
            && key in s.db && s.db[key].deadline.At?
            && (TurnExclusion(Next(cfg, late, attempt)) <==> late.now < s.db[key].deadline.ns)
  {
    hide Run, TurnExclusion, Inv, TurnKey;
    var late := Next(cfg, s, Elapse(d));
    var op := s.calls[other].plan.Lock();
    var after := Next(cfg, late, Send(other, op, Replied));
    ConflictingReply(cfg, s, holder, other, d);
    if after.calls[other].phase == WantTurn {
      InvTurnExclusion(cfg, s);
      OthersStayExclusive(s, after, other);
    } else {
      assert after.calls[holder] == s.calls[holder];
      ConflictInside(after, holder, other);
    }
  }

  /** What Redis answers to the conflicting call. */
  lemma ConflictingReply(cfg: Config, s: State, holder: nat, other: nat, d: nat)
    requires Inv(cfg, s) && cfg.turnTtl > 0
    requires holder in s.calls && s.calls[holder].phase == Running && other in s.calls
    requires s.calls[other].plan.turn == s.calls[holder].plan.turn
    requires !(s.calls[holder].plan.kind == Read && s.calls[other].plan.kind == Read)
    ensures var key := TurnKey(s.calls[holder].plan.turn, s.calls[holder].plan.kind);
            var reply := Run(s.db, s.now + d, s.calls[other].plan.Lock()).reply;
            && key in s.db && s.db[key].deadline.At?
            && reply.Some? && (reply.value == 0 <==> s.now + d < s.db[key].deadline.ns)
  {
    var t, kind := s.calls[holder].plan.turn, s.calls[holder].plan.kind;
    assert WriterOk(cfg, s, t) && ReadersOk(cfg, s, t);
    SomeoneInside(s, holder, t, kind);
  }

  lemma ConflictInside(s: State, i: nat, j: nat)
    requires i in s.calls && j in s.calls && i != j && s.calls[i].phase == s.calls[j].phase == Running
    requires s.calls[i].plan.turn == s.calls[j].plan.turn
    requires !(s.calls[i].plan.kind == Read && s.calls[j].plan.kind == Read)
    ensures !TurnExclusion(s)
  {
  }

  /** A call that is not inside its turn breaks nothing. */
  lemma OthersStayExclusive(s: State, s': State, outside: nat)
    requires TurnExclusion(s) && outside in s.calls && s'.calls.Keys == s.calls.Keys
    requires s'.calls[outside].phase != Running
    requires forall id | id in s.calls && id != outside :: s'.calls[id] == s.calls[id]
    ensures TurnExclusion(s')
  {
    forall i, j | i in s'.calls && j in s'.calls && i != j && s'.calls[i].phase == Running
                  && s'.calls[j].phase == Running && s'.calls[i].plan.turn == s'.calls[j].plan.turn
      ensures s'.calls[i].plan.kind == Read && s'.calls[j].plan.kind == Read
    {
      assert i != outside && j != outside;
      assert s'.calls[i] == s.calls[i] && s'.calls[j] == s.calls[j];
    }
  }

  /** The turn lock knows no sessions: while a writer is inside, a call of any session that uses
      the same turn ID is refused, reader or writer. */
  lemma SameTurnIsSharedAcrossSessions(cfg: Config, s: State, writer: nat, other: nat)
    requires Inv(cfg, s) && cfg.turnTtl > 0
    requires writer in s.calls && InTurn(s.calls[writer], s.calls[writer].plan.turn, Write)
    requires other in s.calls && s.calls[other].phase == WantTurn
    requires s.calls[other].plan.turn == s.calls[writer].plan.turn
    ensures Observe(s.db, s.now, s.calls[other].plan.Lock(), Replied) == Outcome(s.db, Some(0))
  {
    var t := s.calls[writer].plan.turn;
    assert WriterOk(cfg, s, t) && ReadersOk(cfg, s, t);
    SomeoneInside(s, writer, t, Write);
  }

  // ---------- a reader unlock after expiry ----------

  /** DECR has no floor: the unlock leaves the counter negative exactly when the counter it meets
      has expired or is spent, and a negative counter from expiry has no deadline of its own. */
  lemma UnlockGoesNegativeIff(db: Db, now: int, t: string)
    requires Get(db, now, TurnReaders(t)) in {None, Some(Num(Counter(db, now, TurnReaders(t))))}
    ensures var after := Run(db, now, Op.ReadUnlock(t)).db;
            && (Counter(after, now, TurnReaders(t)) < 0 <==> Counter(db, now, TurnReaders(t)) <= 0)
            && (Get(db, now, TurnReaders(t)) == None ==> after[TurnReaders(t)] == Entry(Num(-1), Never))
  {
  }

  /** A reader is counted and yet told that it was not exactly when no writer is there and the counter
      it meets is -1: then and only then a zero reply does not mean "nothing happened". */
  lemma CountedYetRefusedIff(db: Db, now: int, t: string, ttl: int)
    requires ttl > 0
    requires Get(db, now, TurnReaders(t)) in {None, Some(Num(Counter(db, now, TurnReaders(t))))}
    ensures var read := Run(db, now, Op.ReadLock(t, ttl));
            read.reply == Some(0) && read.db != db
            <==> !Live(db, now, TurnWriter(t)) && Counter(db, now, TurnReaders(t)) == -1
  {
    var read := Run(db, now, Op.ReadLock(t, ttl));
    if !Live(db, now, TurnWriter(t)) && Counter(db, now, TurnReaders(t)) == -1 {
      assert read.db[TurnReaders(t)].value == Num(0) && db[TurnReaders(t)].value == Num(-1);
    }
  }

  /** After one unlock of an expired counter and for as long as nobody else touches the turn, every
      writer is refused and the next reader counts itself in but is told it was not. */
  lemma LateUnlockPoisonsTurn(db: Db, now: int, t: string, later: int, token: string, ttl: int)
    requires !Live(db, now, TurnReaders(t)) && !Live(db, now, TurnWriter(t)) && now <= later && ttl > 0
    ensures var after := Run(db, now, Op.ReadUnlock(t)).db;
            && Run(after, later, Op.WriteLock(t, token, ttl)) == Outcome(after, Some(0))
            && var read := Run(after, later, Op.ReadLock(t, ttl));
               read.reply == Some(0) && read.db != after && Counter(read.db, later, TurnReaders(t)) == 0
  {
    var after := Run(db, now, Op.ReadUnlock(t)).db;
    var read := Run(after, later, Op.ReadLock(t, ttl));
    assert after[TurnReaders(t)].value != read.db[TurnReaders(t)].value;
  }

  /** A wrongly refused reader leaves room for a writer: after the poisoned refusal the counter
      reads zero, so a writer is admitted, and a retrying reader is then refused by that writer. */
  lemma PoisonedRefusalAdmitsWriter(db: Db, now: int, t: string, token: string, ttl: int)
    requires !Live(db, now, TurnReaders(t)) && !Live(db, now, TurnWriter(t)) && ttl > 0
    ensures var poisoned := Run(db, now, Op.ReadUnlock(t)).db;
            var refused := Run(poisoned, now, Op.ReadLock(t, ttl)).db;
            && Run(refused, now, Op.WriteLock(t, token, ttl)).reply == Some(1)
            && Run(Run(refused, now, Op.WriteLock(t, token, ttl)).db, now, Op.ReadLock(t, ttl)).reply == Some(0)
  {
  }

  // ---------- runs that break exclusion ----------

  lemma RunSnoc(cfg: Config, run: seq<State>, steps: seq<Step>, step: Step)
      returns (run': seq<State>, steps': seq<Step>)
    requires IsRun(cfg, run, steps) && Enabled(cfg, run[|run| - 1], step)
    ensures IsRun(cfg, run', steps')
    ensures run' == run + [Next(cfg, run[|run| - 1], step)] && steps' == steps + [step]
  {
    hide Enabled, Next, Initial;
    run' := run + [Next(cfg, run[|run| - 1], step)];
    steps' := steps + [step];
    forall i | 0 <= i < |steps'|
      ensures Enabled(cfg, run'[i], steps'[i]) && run'[i + 1] == Next(cfg, run'[i], steps'[i]) {
      if i < |steps| {
        assert run'[i] == run[i] && run'[i + 1] == run[i + 1] && steps'[i] == steps[i];
      }
    }
  }

  /** The session half of the lease hypothesis. */
  predicate SessionLeaseHolds(cfg: Config, s: State) {
    forall id | id in s.calls && HoldsSession(s.calls[id].phase) ::
      s.now < s.calls[id].sessionAt + cfg.sessionTtl * NANOS_PER_MILLI
  }

  ghost predicate LeasedRun(cfg: Config, run: seq<State>, steps: seq<Step>) {
    IsRun(cfg, run, steps) && forall i | 0 <= i < |run| :: SessionLeaseHolds(cfg, run[i])
  }

  lemma LeasedSnoc(cfg: Config, run: seq<State>, steps: seq<Step>, step: Step)
    returns (run': seq<State>, steps': seq<Step>)
    requires LeasedRun(cfg, run, steps) && Enabled(cfg, run[|run| - 1], step)
    requires SessionLeaseHolds(cfg, Next(cfg, run[|run| - 1], step))
    ensures LeasedRun(cfg, run', steps') && |run'| == |run| + 1
    ensures run'[|run|] == Next(cfg, run[|run| - 1], step)
  {
    run', steps' := RunSnoc(cfg, run, steps, step);
  }

  /** One call gets into its turn as a writer, from the empty database. */
  lemma WriterEnters(cfg: Config, plan: Plan) returns (run: seq<State>, steps: seq<Step>)
    requires cfg.sessionTtl > 0 && cfg.turnTtl > 0
    requires plan.kind == Write && plan.sessionTtl == cfg.sessionTtl && plan.turnTtl == cfg.turnTtl
    ensures LeasedRun(cfg, run, steps)
    ensures var s := run[|run| - 1];
            && s.now == 0 && s.calls == map[0 := Call(plan, Running, 0, 0)]
            && s.db == map[SessionOwner(plan.session) := Leased(Text(plan.turn), 0, cfg.sessionTtl),
                           SessionCount(plan.session) := Leased(Num(1), 0, cfg.sessionTtl),
                           TurnWriter(plan.turn) := Leased(Text(plan.token), 0, cfg.turnTtl)]
  {
    var s0 := State(0, map[], map[], map[], map[]);
    run, steps := [s0], [];
    run, steps := RunSnoc(cfg, run, steps, Arrive(0, plan));
    run, steps := RunSnoc(cfg, run, steps, Send(0, plan.Acquire(), Replied));
    assert run[|run| - 1].calls == map[0 := Call(plan, WantTurn, 0, 0)];
    run, steps := RunSnoc(cfg, run, steps, Send(0, plan.Lock(), Replied));
    assert run[|run| - 1].calls == map[0 := Call(plan, Running, 0, 0)];
  }

  /** Dropping the hypothesis breaks exclusion: a holder that outlives its TTL meets a call of
      another turn inside its session. */
  lemma LapsedLeaseBreaksExclusion(cfg: Config, first: Plan, second: Plan) returns (run: seq<State>, steps: seq<Step>)
    requires cfg.sessionTtl > 0 && cfg.turnTtl > 0
    requires first.kind == Write && first.sessionTtl == second.sessionTtl == cfg.sessionTtl
    requires first.turnTtl == second.turnTtl == cfg.turnTtl
    requires first.session == second.session && first.turn != second.turn && first.token != second.token
    ensures IsRun(cfg, run, steps) && !SessionExclusion(run[|run| - 1])
  {
    run, steps := WriterEnters(cfg, first);
    run, steps := RunSnoc(cfg, run, steps, Elapse(cfg.sessionTtl * NANOS_PER_MILLI));
    run, steps := RunSnoc(cfg, run, steps, Arrive(1, second));
    assert !Live(run[|run| - 1].db, run[|run| - 1].now, SessionOwner(second.session));
    run, steps := RunSnoc(cfg, run, steps, Send(1, second.Acquire(), Replied));
    var s := run[|run| - 1];
    assert s.calls[1].phase == WantTurn && s.calls[0].phase == Running;
  }

  /** One call gets into its turn as a reader and stays until its turn lease has ended. */
  lemma ReaderOverstays(cfg: Config, plan: Plan) returns (run: seq<State>, steps: seq<Step>)
    requires cfg.sessionTtl > 0 && cfg.turnTtl > 0
    requires plan.kind == Read && plan.sessionTtl == cfg.sessionTtl && plan.turnTtl == cfg.turnTtl
    ensures IsRun(cfg, run, steps)
    ensures var s := run[|run| - 1];
            && s.now == cfg.turnTtl * NANOS_PER_MILLI && s.calls == map[0 := Call(plan, Running, 0, 0)]
            && !Live(s.db, s.now, TurnReaders(plan.turn)) && !Live(s.db, s.now, TurnWriter(plan.turn))
            && s.db.Keys == {SessionOwner(plan.session), SessionCount(plan.session), TurnReaders(plan.turn)}
            && s.db[SessionOwner(plan.session)].value == Text(plan.turn)
            && s.db[SessionCount(plan.session)].value == Num(1)
            && s.db[SessionOwner(plan.session)].deadline == s.db[SessionCount(plan.session)].deadline
  {
    var s0 := State(0, map[], map[], map[], map[]);
    run, steps := [s0], [];
    run, steps := RunSnoc(cfg, run, steps, Arrive(0, plan));
    run, steps := RunSnoc(cfg, run, steps, Send(0, plan.Acquire(), Replied));
    assert run[|run| - 1].calls == map[0 := Call(plan, WantTurn, 0, 0)];
    run, steps := RunSnoc(cfg, run, steps, Send(0, plan.Lock(), Replied));
    assert run[|run| - 1].calls == map[0 := Call(plan, Running, 0, 0)];
    run, steps := RunSnoc(cfg, run, steps, Elapse(cfg.turnTtl * NANOS_PER_MILLI));
  }

  /** The unlock of a reader that overstayed leaves -1 behind. */
  lemma LateUnlock(cfg: Config, s: State, first: Plan)
    requires first.kind == Read && s.calls == map[0 := Call(first, Running, 0, 0)]
    requires !Live(s.db, s.now, TurnReaders(first.turn))
    ensures Enabled(cfg, s, Send(0, first.Unlock(), Replied))
    ensures var t := Next(cfg, s, Send(0, first.Unlock(), Replied));
            && t.calls == map[0 := Call(first, DropSession, 0, 0)] && t.now == s.now
            && t.db == s.db[TurnReaders(first.turn) := Entry(Num(-1), Never)]
  {
  }

  /** A call of the same turn gets hold of its session, be it the first call's or another. */
  lemma SameTurnAcquires(cfg: Config, s: State, first: Plan, second: Plan)
    requires cfg.sessionTtl == second.sessionTtl > 0 && second.turn == first.turn
    requires s.calls == map[0 := Call(first, DropSession, 0, 0), 1 := Call(second, WantSession, s.now, s.now)]
    requires s.db.Keys == {SessionOwner(first.session), SessionCount(first.session), TurnReaders(first.turn)}
    requires s.db[SessionOwner(first.session)].value == Text(first.turn)
    requires s.db[SessionCount(first.session)].value == Num(1)
    requires s.db[SessionOwner(first.session)].deadline == s.db[SessionCount(first.session)].deadline
    ensures Enabled(cfg, s, Send(1, second.Acquire(), Replied))
    ensures var t := Next(cfg, s, Send(1, second.Acquire(), Replied));
            && t.calls == map[0 := Call(first, DropSession, 0, 0), 1 := Call(second, WantTurn, s.now, s.now)]
              && t.now == s.now
            && TurnReaders(first.turn) in t.db && t.db[TurnReaders(first.turn)] == s.db[TurnReaders(first.turn)]
            && TurnWriter(first.turn) !in t.db
  {
    RunFrame(s.db, s.now, second.Acquire(), TurnReaders(first.turn));
    RunFrame(s.db, s.now, second.Acquire(), TurnWriter(first.turn));
    assert Run(s.db, s.now, second.Acquire()).reply == Some(1);
  }

  /** That call, if it is a reader, is counted and refused. */
  lemma CountedAndRefused(cfg: Config, s: State, first: Plan, second: Plan)
    requires second.kind == Read && second.turn == first.turn && cfg.turnTtl == second.turnTtl > 0
    requires s.calls == map[0 := Call(first, DropSession, 0, 0), 1 := Call(second, WantTurn, s.now, s.now)]
    requires TurnReaders(first.turn) in s.db && s.db[TurnReaders(first.turn)] == Entry(Num(-1), Never)
    requires TurnWriter(first.turn) !in s.db
    ensures Enabled(cfg, s, Send(1, second.Lock(), Replied))
    ensures var t := Next(cfg, s, Send(1, second.Lock(), Replied));
            && t.calls == s.calls
            && Counter(s.db, s.now, TurnReaders(second.turn)) == -1
            && Counter(t.db, t.now, TurnReaders(second.turn)) == 0
    ensures !RepliesTruthful(s)
  {
    var t := Next(cfg, s, Send(1, second.Lock(), Replied));
    assert Run(s.db, s.now, Op.ReadLock(second.turn, second.turnTtl)).reply == Some(0);
    assert t.calls[1] == s.calls[1];
  }

  /** A run in which a zero reply lies: a reader outlives its turn lease and unlocks; no call is inside
      the turn and no writer is there, and yet the next reader is refused, and counted. */
  lemma LateReaderPoisonsNext(cfg: Config, first: Plan, second: Plan) returns (run: seq<State>, steps: seq<Step>)
    requires cfg.sessionTtl > 0 && cfg.turnTtl > 0
    requires first.kind == second.kind == Read && first.turn == second.turn && first.token != second.token
    requires first.sessionTtl == second.sessionTtl == cfg.sessionTtl && first.turnTtl == second.turnTtl == cfg.turnTtl
    ensures IsRun(cfg, run, steps) && |steps| > 0 && steps[|steps| - 1] == Send(1, second.Lock(), Replied)
    ensures var before, after := run[|run| - 2], run[|run| - 1];
            && (forall id | id in before.calls :: before.calls[id].phase != Running)
            && !Live(before.db, before.now, TurnWriter(second.turn)) && !RepliesTruthful(before)
            && 1 in before.calls && 1 in after.calls && before.calls[1].phase == after.calls[1].phase == WantTurn
            && Counter(before.db, before.now, TurnReaders(second.turn)) == -1
            && Counter(after.db, after.now, TurnReaders(second.turn)) == 0
  {
    hide Enabled, Next, RepliesTruthful, Counter;
    run, steps := ReaderOverstays(cfg, first);
    LateUnlock(cfg, run[|run| - 1], first);
    run, steps := RunSnoc(cfg, run, steps, Send(0, first.Unlock(), Replied));
    SecondArrives(cfg, run[|run| - 1], first, second);
    run, steps := RunSnoc(cfg, run, steps, Arrive(1, second));
    SameTurnAcquires(cfg, run[|run| - 1], first, second);
    run, steps := RunSnoc(cfg, run, steps, Send(1, second.Acquire(), Replied));
    CountedAndRefused(cfg, run[|run| - 1], first, second);
    run, steps := RunSnoc(cfg, run, steps, Send(1, second.Lock(), Replied));
  }

  lemma SecondArrives(cfg: Config, s: State, first: Plan, second: Plan)
    requires s.calls.Keys == {0} && s.calls[0].plan == first && first.token != second.token
    requires second.sessionTtl == cfg.sessionTtl && second.turnTtl == cfg.turnTtl
    ensures Enabled(cfg, s, Arrive(1, second))
    ensures var t := Next(cfg, s, Arrive(1, second));
            t.now == s.now && t.db == s.db
                && t.calls == map[0 := s.calls[0], 1 := Call(second, WantSession, s.now, s.now)]
  {
    var t := Next(cfg, s, Arrive(1, second));
    assert t.calls.Keys == {0, 1};
  }

  /** What a successful extend leaves: both keys with their values, and a new deadline. */
  lemma ExtendWrites(db: Db, now: int, s: string, t: string, ttl: int)
    requires Get(db, now, SessionOwner(s)) == Some(Text(t)) && Live(db, now, SessionCount(s)) && ttl > 0
    ensures var r := Run(db, now, ExtendSession(s, t, ttl));
            && r.reply == Some(1)
            && r.db == db[SessionOwner(s) := Leased(Text(t), now, ttl)]
                         [SessionCount(s) := Leased(db[SessionCount(s)].value, now, ttl)]
  {
  }

  lemma WriterExtends(cfg: Config, s: State, first: Plan, half: nat)
    requires cfg.sessionTtl > 0 && half == cfg.sessionTtl * (NANOS_PER_MILLI / 2) && first.sessionTtl == cfg.sessionTtl
    requires s.now == half && s.calls == map[0 := Call(first, Running, 0, 0)]
    requires s.db == map[SessionOwner(first.session) := Leased(Text(first.turn), 0, cfg.sessionTtl),
                         SessionCount(first.session) := Leased(Num(1), 0, cfg.sessionTtl),
                         TurnWriter(first.turn) := Leased(Text(first.token), 0, cfg.turnTtl)]
    ensures Enabled(cfg, s, Send(0, first.Extend(), Replied))
    ensures var t := Next(cfg, s, Send(0, first.Extend(), Replied));
            && t.now == half && t.calls == map[0 := Call(first, Running, half, 0)]
            && t.db == map[SessionOwner(first.session) := Leased(Text(first.turn), half, cfg.sessionTtl),
                           SessionCount(first.session) := Leased(Num(1), half, cfg.sessionTtl),
                           TurnWriter(first.turn) := Leased(Text(first.token), 0, cfg.turnTtl)]
  {
    hide Run;
    ExtendWrites(s.db, s.now, first.session, first.turn, first.sessionTtl);
    var t := Next(cfg, s, Send(0, first.Extend(), Replied));
    assert t.calls[0] == Call(first, Running, half, 0);
  }

  /** A writer that has waited for half its TTL, extended its session, and waited once more. */
  lemma WriterWaits(cfg: Config, first: Plan, half: nat) returns (run: seq<State>, steps: seq<Step>)
    requires cfg.sessionTtl == cfg.turnTtl > 0 && half == cfg.sessionTtl * (NANOS_PER_MILLI / 2)
    requires first.kind == Write && first.sessionTtl == cfg.sessionTtl && first.turnTtl == cfg.turnTtl
    ensures LeasedRun(cfg, run, steps)
    ensures var s := run[|run| - 1];
            && s.now == half + half && s.calls == map[0 := Call(first, Running, half, 0)]
            && s.db == map[SessionOwner(first.session) := Leased(Text(first.turn), half, cfg.sessionTtl),
                           SessionCount(first.session) := Leased(Num(1), half, cfg.sessionTtl),
                           TurnWriter(first.turn) := Leased(Text(first.token), 0, cfg.turnTtl)]
  {
    run, steps := WriterEnters(cfg, first);
    run, steps := LeasedSnoc(cfg, run, steps, Elapse(half));
    WriterExtends(cfg, run[|run| - 1], first, half);
    run, steps := LeasedSnoc(cfg, run, steps, Send(0, first.Extend(), Replied));
    run, steps := LeasedSnoc(cfg, run, steps, Elapse(half));
  }

  /** An approval wait extends only the session lock. Both locks have the same TTL; a writer that
      waits for an approval and extends its session at half the TTL keeps its session lease at every
      moment, and yet a second writer of the same turn gets in beside it once the TTL has passed. */
  lemma ApprovalWaitOutlivesTurnLock(cfg: Config, first: Plan, second: Plan) returns (run: seq<State>, steps: seq<Step>)
    requires cfg.sessionTtl == cfg.turnTtl > 0
    requires first.kind == second.kind == Write && first.token != second.token
    requires first.session == second.session && first.turn == second.turn
    requires first.sessionTtl == second.sessionTtl == cfg.sessionTtl && first.turnTtl == second.turnTtl == cfg.turnTtl
    ensures LeasedRun(cfg, run, steps)
    ensures !TurnExclusion(run[|run| - 1])
  {
    var half := cfg.sessionTtl * (NANOS_PER_MILLI / 2);
    run, steps := WriterWaits(cfg, first, half);
    var a, b, c := SecondWriterEnters(cfg, run[|run| - 1], first, second, half);
    run, steps := LeasedSnoc(cfg, run, steps, Arrive(1, second));
    run, steps := LeasedSnoc(cfg, run, steps, Send(1, second.Acquire(), Replied));
    run, steps := LeasedSnoc(cfg, run, steps, Send(1, second.Lock(), Replied));
  }

  lemma SecondWriterEnters(cfg: Config, s: State, first: Plan, second: Plan, half: nat)
    returns (a: State, b: State, c: State)
    requires cfg.sessionTtl == cfg.turnTtl > 0 && half == cfg.sessionTtl * (NANOS_PER_MILLI / 2)
    requires first.kind == second.kind == Write && first.token != second.token
    requires first.session == second.session && first.turn == second.turn
    requires first.sessionTtl == second.sessionTtl == cfg.sessionTtl && first.turnTtl == second.turnTtl == cfg.turnTtl
    requires s.now == half + half && s.calls == map[0 := Call(first, Running, half, 0)]
    requires s.db == map[SessionOwner(first.session) := Leased(Text(first.turn), half, cfg.sessionTtl),
                         SessionCount(first.session) := Leased(Num(1), half, cfg.sessionTtl),
                         TurnWriter(first.turn) := Leased(Text(first.token), 0, cfg.turnTtl)]
    ensures Enabled(cfg, s, Arrive(1, second)) && a == Next(cfg, s, Arrive(1, second))
    ensures Enabled(cfg, a, Send(1, second.Acquire(), Replied)) && b == Next(cfg, a, Send(1, second.Acquire(), Replied))
    ensures Enabled(cfg, b, Send(1, second.Lock(), Replied)) && c == Next(cfg, b, Send(1, second.Lock(), Replied))
    ensures SessionLeaseHolds(cfg, a) && SessionLeaseHolds(cfg, b) && SessionLeaseHolds(cfg, c)
    ensures !TurnExclusion(c)
  {
    hide Enabled, Next, TurnExclusion, SessionLeaseHolds, Live, Leased;
    a := SecondWriterArrives(cfg, s, first, second, half);
    b := SecondWriterAcquires(cfg, a, first, second, half);
    c := SecondWriterLocks(cfg, b, first, second, half);
  }

  lemma SecondWriterArrives(cfg: Config, s: State, first: Plan, second: Plan, half: nat) returns (a: State)
    requires first.token != second.token && second.sessionTtl == cfg.sessionTtl > 0 && second.turnTtl == cfg.turnTtl
    requires s.now == half + half && half == cfg.sessionTtl * (NANOS_PER_MILLI / 2)
    requires s.calls == map[0 := Call(first, Running, half, 0)]
    ensures Enabled(cfg, s, Arrive(1, second)) && a == Next(cfg, s, Arrive(1, second))
    ensures a.now == s.now && a.db == s.db && SessionLeaseHolds(cfg, a)
    ensures a.calls == map[0 := Call(first, Running, half, 0), 1 := Call(second, WantSession, a.now, a.now)]
  {
    a := Next(cfg, s, Arrive(1, second));
  }

  lemma SecondWriterLocks(cfg: Config, b: State, first: Plan, second: Plan, half: nat) returns (c: State)
    requires second.kind == first.kind == Write && first.turn == second.turn && cfg.turnTtl == second.turnTtl > 0
    requires b.now == half + half && half == cfg.sessionTtl * (NANOS_PER_MILLI / 2) && cfg.sessionTtl > 0
    requires b.calls == map[0 := Call(first, Running, half, 0), 1 := Call(second, WantTurn, b.now, b.now)]
    requires !Live(b.db, b.now, TurnWriter(first.turn)) && !Live(b.db, b.now, TurnReaders(first.turn))
    ensures Enabled(cfg, b, Send(1, second.Lock(), Replied)) && c == Next(cfg, b, Send(1, second.Lock(), Replied))
    ensures SessionLeaseHolds(cfg, c) && !TurnExclusion(c)
  {
    c := Next(cfg, b, Send(1, second.Lock(), Replied));
    assert c.calls[1] == Call(second, Running, b.now, b.now) && c.calls[0] == b.calls[0];
  }

  lemma SecondWriterAcquires(cfg: Config, a: State, first: Plan, second: Plan, half: nat) returns (b: State)
    requires cfg.sessionTtl == cfg.turnTtl > 0 && half == cfg.sessionTtl * (NANOS_PER_MILLI / 2)
    requires first.session == second.session && first.turn == second.turn
    requires first.sessionTtl == second.sessionTtl == cfg.sessionTtl
    requires a.now == half + half
      && a.calls == map[0 := Call(first, Running, half, 0), 1 := Call(second, WantSession, a.now, a.now)]
    requires a.db == map[SessionOwner(first.session) := Leased(Text(first.turn), half, cfg.sessionTtl),
                         SessionCount(first.session) := Leased(Num(1), half, cfg.sessionTtl),
                         TurnWriter(first.turn) := Leased(Text(first.token), 0, cfg.turnTtl)]
    ensures Enabled(cfg, a, Send(1, second.Acquire(), Replied)) && b == Next(cfg, a, Send(1, second.Acquire(), Replied))
    ensures b.now == a.now && b.calls
      == map[0 := Call(first, Running, half, 0), 1 := Call(second, WantTurn, a.now, a.now)]
    ensures SessionLeaseHolds(cfg, b)
    ensures !Live(b.db, b.now, TurnWriter(first.turn)) && !Live(b.db, b.now, TurnReaders(first.turn))
  {
    b := Next(cfg, a, Send(1, second.Acquire(), Replied));
    RunFrame(a.db, a.now, second.Acquire(), TurnWriter(first.turn));
    RunFrame(a.db, a.now, second.Acquire(), TurnReaders(first.turn));
    assert b.calls[1] == Call(second, WantTurn, a.now, a.now);
  }
}
