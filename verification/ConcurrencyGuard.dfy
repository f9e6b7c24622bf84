/** cmd/gateway/concurrency_guard.go: the turn lock nested in the session lock around one call. */
module ConcurrencyGuard {
  import opened Wrappers
  import opened Redis
  import opened CallTrace
  import opened RedisLink
  import S = SessionLocker
  import T = TurnRWLock

  /** How the guarded function ends; it may return a response beside an error. */
  datatype Body<+R> = Returned(resp: Option<R>, err: Option<string>) | Panicked(msg: string)

  /** What the guarded function does: any number of lease extensions (an approval wait), then an end. */
  datatype Work<+R> = Work(keepalives: nat, body: Body<R>)

  datatype Error =
    | SessionBusy(why: LockResult)
    | TurnBusy(why: LockResult)
    | FromWork(msg: string)
    | FromPanic(msg: string)
    | TurnUnlockFailed
    | SessionReleaseFailed

  datatype Settlement<+R> = Settlement(resp: Option<R>, err: Option<Error>)

  /** The ranking of outcomes once the function has run: a panic hides everything, the
      function's own error hides both cleanups, the turn unlock hides the session release,
      and any error of the cleanups takes the response away. */
  function Settle<R>(body: Body<R>, unlocked: bool, released: bool): Settlement<R> {
    match body
    case Panicked(msg) => Settlement(None, Some(FromPanic(msg)))
    case Returned(resp, Some(msg)) => Settlement(resp, Some(FromWork(msg)))
    case Returned(resp, None) =>
      if !unlocked then Settlement(None, Some(TurnUnlockFailed))
      else if !released then Settlement(None, Some(SessionReleaseFailed))
      else Settlement(resp, None)
  }

  /** The named results between the turn unlock and the session release: a panic is still under way
      and has set nothing yet. */
  function Unwound<R>(body: Body<R>, unlocked: bool): Settlement<R> {
    match body
    case Panicked(_) => Settlement(None, if unlocked then None else Some(TurnUnlockFailed))
    case Returned(resp, Some(msg)) => Settlement(resp, Some(FromWork(msg)))
    case Returned(resp, None) => if unlocked then Settlement(resp, None) else Settlement(None, Some(TurnUnlockFailed))
  }

  /** A response without error comes only from a function that returned it, under clean cleanups. */
  lemma SettleClean<R>(body: Body<R>, unlocked: bool, released: bool)
    ensures var r := Settle(body, unlocked, released);
            r.err == None <==> body == Returned(r.resp, None) && unlocked && released
  {
  }

  /** The ranking in its own words: whose error a call returns, and when it keeps the response. */
  lemma SettleRanks<R>(body: Body<R>, unlocked: bool, released: bool)
    ensures var r := Settle(body, unlocked, released);
            var clean := body.Returned? && body.err == None;
            && (forall msg :: r.err == Some(FromPanic(msg)) <==> body == Panicked(msg))
            && (forall msg :: r.err == Some(FromWork(msg)) <==> body.Returned? && body.err == Some(msg))
            && (r.err == Some(TurnUnlockFailed) <==> clean && !unlocked)
            && (r.err == Some(SessionReleaseFailed) <==> clean && unlocked && !released)
            && (body.Returned? && (body.err.Some? || (unlocked && released)) ==> r.resp == body.resp)
            && (body.Panicked? || (clean && !(unlocked && released)) ==> r.resp == None)
  {
  }

  lemma {:induction false} TrackExtends(plan: Plan, evs: seq<Event>)
    requires forall e | e in evs :: e.op == plan.Extend()
    ensures Track(plan, Running, evs) == Some(Running)
  {
    if evs != [] {
      TrackExtends(plan, evs[..|evs| - 1]);
      assert evs[|evs| - 1] in evs;
    }
  }

  /** The events of a call that ran: polls, extensions, unlock, release. */
  lemma RanTrack(plan: Plan, a: seq<Event>, t: seq<Event>, x: seq<Event>, unlock: Event, release: Event)
    requires Polled(plan.Acquire(), a, Acquired) && Polled(plan.Lock(), t, Acquired)
    requires forall e | e in x :: e.op == plan.Extend()
    requires unlock.op == plan.Unlock() && release.op == plan.Release()
    ensures var evs := a + t + x + [unlock] + [release];
            && Track(plan, WantSession, evs) == Some(Finished)
            && TurnGrants(evs) == 1
  {
    hide Observe, Polled;
    TrackPolled(plan, WantSession, plan.Acquire(), a, Acquired);
    TrackPolled(plan, WantTurn, plan.Lock(), t, Acquired);
    TrackAppend(plan, WantSession, a, t);
    TrackExtends(plan, x);
    TrackAppend(plan, WantSession, a + t, x);
    var front := a + t + x;
    Balanced(plan, front);
    TrackSnoc(plan, WantSession, front, unlock);
    TrackSnoc(plan, WantSession, front + [unlock], release);
    assert (front + [unlock])[..|front|] == front;
    assert (front + [unlock] + [release])[..|front| + 1] == front + [unlock];
    TurnReturnsOnlyAfterGrant(plan, front);
  }

  /** While a call runs it has been granted the turn lock and has not returned it. */
  lemma TurnReturnsOnlyAfterGrant(plan: Plan, evs: seq<Event>)
    requires Track(plan, WantSession, evs) == Some(Running)
    ensures TurnGrants(evs) == 1
  {
    Balanced(plan, evs);
  }

  /** The events of a call that got the session lock but not the turn lock. */
  lemma RefusedTrack(plan: Plan, a: seq<Event>, t: seq<Event>, r: LockResult, release: Event)
    requires Polled(plan.Acquire(), a, Acquired)
    requires r != Acquired && (Polled(plan.Lock(), t, r) || t == [])
    requires release.op == plan.Release()
    ensures var evs := a + t + [release];
            && Track(plan, WantSession, evs) == Some(Finished)
            && TurnGrants(evs) == 0
  {
    TrackPolled(plan, WantSession, plan.Acquire(), a, Acquired);
    TrackAppend(plan, WantSession, a, t);
    if t != [] {
      TrackPolled(plan, WantTurn, plan.Lock(), t, r);
    }
    var front := a + t;
    TrackSnoc(plan, WantSession, front, release);
    assert (front + [release])[..|front|] == front;
    NoGrants(plan, a, t, r);
  }

  lemma NoGrants(plan: Plan, a: seq<Event>, t: seq<Event>, r: LockResult)
    requires Polled(plan.Acquire(), a, Acquired)
    requires r != Acquired && (Polled(plan.Lock(), t, r) || t == [])
    ensures TurnGrants(a + t) == 0
  {
    forall e | e in a + t ensures !((e.op.ReadLock? || e.op.WriteLock?) && e.Seen().Some? && e.Seen() != Some(0)) {
      if e in a {
        assert e in a[..|a| - 1] || e == a[|a| - 1];
      } else {
        assert e in t[..|t| - 1] || e == t[|t| - 1];
      }
    }
    GrantsNone(a + t);
  }

  lemma {:induction false} GrantsNone(evs: seq<Event>)
    requires forall e | e in evs :: !((e.op.ReadLock? || e.op.WriteLock?) && e.Seen().Some? && e.Seen() != Some(0))
    ensures TurnGrants(evs) == 0
  {
    if evs != [] {
      GrantsNone(evs[..|evs| - 1]);
      assert evs[|evs| - 1] in evs;
    }
  }

  /** The scripts of a call that got its session but not its turn. */
  ghost predicate TurnRefused(plan: Plan, evs: seq<Event>, why: LockResult) {
    exists a, t, release: Event ::
      && evs == a + t + [release] && release.op == plan.Release()
      && Polled(plan.Acquire(), a, Acquired) && (Polled(plan.Lock(), t, why) || t == [])
  }

  /** The scripts of a call that got both locks, in order: as many extensions as its work makes come between
      the polls for the locks and their return. */
  ghost predicate RanBetween(plan: Plan, evs: seq<Event>, keepalives: nat) {
    exists a, t, x, unlock, release: Event ::
      && evs == a + t + x + [unlock] + [release]
      && Polled(plan.Acquire(), a, Acquired) && Polled(plan.Lock(), t, Acquired)
      && |x| == keepalives && (forall e | e in x :: e.op == plan.Extend())
      && unlock.op == plan.Unlock() && release.op == plan.Release()
  }

  /** What one guarded call did and returned. */
  ghost predicate Guarded<R>(plan: Plan, evs: seq<Event>, work: Work<R>, ran: bool, r: Settlement<R>) {
    && Track(plan, WantSession, evs) in {Some(WantSession), Some(Finished)}
    && TurnGrants(evs) == (if ran then 1 else 0)
    && (ran ==> RanBetween(plan, evs, work.keepalives))
    && (ran ==> |evs| >= 2 && r == Settle(work.body, evs[|evs| - 2].Seen().Some?, evs[|evs| - 1].Seen().Some?))
    && (!ran ==> r.resp == None && r.err.Some? && (r.err.value.SessionBusy? || r.err.value.TurnBusy?))
    && (SessionGrants(evs) == 0 <==> r.err.Some? && r.err.value.SessionBusy?)
    && (forall why :: r.err == Some(SessionBusy(why)) ==> why != Acquired && Polled(plan.Acquire(), evs, why))
    && (forall why :: r.err == Some(TurnBusy(why)) ==> why != Acquired && TurnRefused(plan, evs, why))
  }

  /** Whatever happened to the locks, a call that ended has given back every lock it was granted,
      once, and its session release came after everything else. */
  lemma GuardedReturnsLocks<R>(plan: Plan, evs: seq<Event>, work: Work<R>, ran: bool, r: Settlement<R>)
    requires Guarded(plan, evs, work, ran, r)
    ensures SessionGrants(evs) == SessionReturns(evs) && TurnGrants(evs) == TurnReturns(evs)
    ensures forall i | 0 <= i < |evs| && evs[i].op.ReleaseSession? :: i == |evs| - 1
    ensures ran ==> evs[|evs| - 1].op == plan.Release() && evs[|evs| - 2].op == plan.Unlock()
  {
    Balanced(plan, evs);
    if ran {
      RanEnds(plan, evs);
    }
  }

  lemma RanEnds(plan: Plan, evs: seq<Event>)
    requires |evs| >= 2 && TurnGrants(evs) == 1
    requires Track(plan, WantSession, evs) in {Some(WantSession), Some(Finished)}
    ensures evs[|evs| - 1].op == plan.Release() && evs[|evs| - 2].op == plan.Unlock()
  {
    var n := |evs| - 1;
    var front := evs[..n];
    Balanced(plan, evs);
    Balanced(plan, front);
    assert Track(plan, WantSession, front) in {Some(WantTurn), Some(DropSession)};
    DroppedAfterUnlock(plan, front);
  }

  lemma DroppedAfterUnlock(plan: Plan, evs: seq<Event>)
    requires evs != [] && TurnGrants(evs) == 1
    requires Track(plan, WantSession, evs) in {Some(WantTurn), Some(DropSession)}
    ensures evs[|evs| - 1].op == plan.Unlock()
  {
    Balanced(plan, evs);
    Balanced(plan, evs[..|evs| - 1]);
  }

  class ConcurrencyGuard {
    const link: Link
    const locker: S.SessionLocker
    const rwlock: T.TurnRWLock
    const classifier: Option<string -> Class>

    constructor (locker: S.SessionLocker, rwlock: T.TurnRWLock, classifier: Option<string -> Class>)
      requires locker.link == rwlock.link
      ensures this.locker == locker && this.rwlock == rwlock && this.classifier == classifier && Valid()
    {
      this.link, this.locker, this.rwlock, this.classifier := locker.link, locker, rwlock, classifier;
    }

    ghost predicate Valid() {
      locker.link == link && rwlock.link == link
    }

    function Classify(tool: string): Class {
      if classifier.Some? then classifier.value(tool) else Write
    }

    function PlanOf(session: string, turn: string, tool: string, token: Option<string>): Plan {
      Plan(session, turn, Classify(tool), if token.Some? then token.value else "",
           Milliseconds(locker.lockTTL), Milliseconds(rwlock.lockTTL))
    }

    /** The guarded function's own use of the locks. */
    method RunWork<R>(session: string, turn: string, work: Work<R>) returns (ghost evs: seq<Event>)
      requires Valid()
      modifies link, link.server
      ensures link.log == old(link.log) + evs && |evs| == work.keepalives
      ensures forall e | e in evs :: e.op == ExtendSession(session, turn, Milliseconds(locker.lockTTL))
      ensures Follows(link.Calm(), old(link.server.db), old(link.server.now), evs, link.server.db, link.server.now)
    {
      ghost var before, db0, t0 := link.log, link.server.db, link.server.now;
      evs := [];
      for i := 0 to work.keepalives
        invariant link.log == before + evs && |evs| == i
        invariant forall e | e in evs :: e.op == ExtendSession(session, turn, Milliseconds(locker.lockTTL))
        invariant Follows(link.Calm(), db0, t0, evs, link.server.db, link.server.now)
      {
        ghost var db1, t1 := link.server.db, link.server.now;
        var _ := locker.Extend(session, turn);
        ghost var e := link.log[|before| + |evs|];
        FollowsAppend(link.Calm(), db0, t0, evs, db1, t1, [e], link.server.db, link.server.now);
        evs := evs + [e];
      }
    }

    /** The part of Execute under the session lock: take the turn lock, run, give it back. */
    method UnderTurnLock<R>(session: string, turn: string, tool: string, token: Option<string>, work: Work<R>)
      returns (r: Settlement<R>, ran: bool, ghost why: LockResult, ghost t: seq<Event>, ghost x: seq<Event>,
          ghost u: seq<Event>)
      requires Valid()
      modifies link, link.server
      ensures link.log == old(link.log) + (t + x + u)
      ensures var plan := PlanOf(session, turn, tool, token);
              if ran then
                && Polled(plan.Lock(), t, Acquired)
                && |x| == work.keepalives && (forall e | e in x :: e.op == plan.Extend())
                && |u| == 1 && u[0].op == plan.Unlock()
                && r == Unwound(work.body, u[0].Seen().Some?)
              else
                && why != Acquired && (Polled(plan.Lock(), t, why) || t == []) && x == [] && u == []
                && r == Settlement(None, Some(TurnBusy(why)))
      ensures Follows(link.Calm(), old(link.server.db), old(link.server.now), t + x + u,
        link.server.db, link.server.now)
      ensures !ran && why == Cancelled ==> link.log != [] && link.tape(|link.log| - 1).cancelled
    {
      hide Observe, Follows, Polled, Milliseconds;
      ghost var db0, t0 := link.server.db, link.server.now;
      var got;
      if Classify(tool) == Read {
        got, t := rwlock.ReadLock(turn);
      } else {
        got, t := rwlock.WriteLock(turn, token);
      }
      x, u, why := [], [], got;
      if got != Acquired {
        assert t + x + u == t;
        return Settlement(None, Some(TurnBusy(got))), false, why, t, x, u;
      }
      ran := true;
      ghost var db1, t1 := link.server.db, link.server.now;
      x := RunWork(session, turn, work);
      FollowsAppend(link.Calm(), db0, t0, t, db1, t1, x, link.server.db, link.server.now);
      r := match work.body
           case Returned(resp, err) => Settlement(resp, if err.Some? then Some(FromWork(err.value)) else None)
           case Panicked(msg) => Settlement(None, None);
      db1, t1 := link.server.db, link.server.now;
      ghost var mark := |link.log|;
      var ok;
      if Classify(tool) == Read {
        ok := rwlock.ReadUnlock(turn);
      } else {
        ok := rwlock.WriteUnlock(turn, token.value);
      }
      u := [link.log[mark]];
      FollowsAppend(link.Calm(), db0, t0, t + x, db1, t1, u, link.server.db, link.server.now);
      if !ok && r.err == None {
        r := Settlement(None, Some(TurnUnlockFailed));
      }
    }

    /** Execute for a named tool. */
    method Guard<R>(session: string, turn: string, tool: string, token: Option<string>, work: Work<R>)
      returns (r: Settlement<R>, ran: bool, ghost evs: seq<Event>)
      requires Valid()
      modifies link, link.server
      ensures link.log == old(link.log) + evs
      ensures Follows(link.Calm(), old(link.server.db), old(link.server.now), evs, link.server.db, link.server.now)
      ensures Guarded(PlanOf(session, turn, tool, token), evs, work, ran, r)
      ensures r.err == Some(SessionBusy(Cancelled)) ==> link.log != [] && link.tape(|link.log| - 1).cancelled
      ensures r.err == Some(TurnBusy(Cancelled)) ==> |link.log| > 1 && link.tape(|link.log| - 2).cancelled
    {
      hide Observe, Track, Follows, Polled, Guarded, Unwound, Milliseconds;
      ghost var db0, t0, plan := link.server.db, link.server.now, PlanOf(session, turn, tool, token);
      var got;
      ghost var a;
      got, a := locker.Acquire(session, turn);
      if got != Acquired {
        NeverEntered(plan, a, got, work);
        return Settlement(None, Some(SessionBusy(got))), false, a;
      }
      ghost var db1, t1 := link.server.db, link.server.now;
      ghost var t, x, u, why;
      r, ran, why, t, x, u := UnderTurnLock(session, turn, tool, token, work);
      FollowsAppend(link.Calm(), db0, t0, a, db1, t1, t + x + u, link.server.db, link.server.now);
      ghost var inner := r;
      db1, t1 := link.server.db, link.server.now;
      ghost var mark := |link.log|;
      var ok := locker.Release(session, turn);
      ghost var release := link.log[mark];
      FollowsAppend(link.Calm(), db0, t0, a + (t + x + u), db1, t1, [release], link.server.db, link.server.now);
      if !ok && r.err == None {
        r := Settlement(None, Some(SessionReleaseFailed));
      }
      if ran && work.body.Panicked? {
        r := Settlement(None, Some(FromPanic(work.body.msg)));
      }
      evs := a + (t + x + u) + [release];
      Concluded(plan, a, t, x, u, release, ran, why, work, inner, r);
    }

    /** A script that a call of this tool may send: on its own session and turn, with the TTLs of the two
        lockers; the shared turn lock exactly for a tool classified as a read, the exclusive one, with the
        call's token, for every other tool. */
    predicate Proper(session: string, turn: string, tool: string, token: Option<string>, op: Op) {
      var shared := classifier.Some? && classifier.value(tool) == Read;
      match op
      case AcquireSession(s, t, ttl) => s == session && t == turn && ttl == Milliseconds(locker.lockTTL)
      case ReleaseSession(s, t) => s == session && t == turn
      case ExtendSession(s, t, ttl) => s == session && t == turn && ttl == Milliseconds(locker.lockTTL)
      case ReadLock(t, ttl) => shared && t == turn && ttl == Milliseconds(rwlock.lockTTL)
      case ReadUnlock(t) => shared && t == turn
      case WriteLock(t, tok, ttl) =>
        !shared && t == turn && (token.Some? ==> tok == token.value) && ttl == Milliseconds(rwlock.lockTTL)
      case WriteUnlock(t, tok) => !shared && t == turn && (token.Some? ==> tok == token.value)
    }

    lemma PlanIsProper(session: string, turn: string, tool: string, token: Option<string>, evs: seq<Event>)
      requires Track(PlanOf(session, turn, tool, token), WantSession, evs).Some?
      ensures forall e | e in evs :: Proper(session, turn, tool, token, e.op)
    {
      hide Milliseconds;
      TrackOps(PlanOf(session, turn, tool, token), evs);
    }

    /** Runs work under the two locks. A call without a tool name takes no lock. Otherwise the
        scripts sent keep to the phases of the plan, the work runs exactly when the turn lock was
        granted, the result is ranked by Settle, and an undisturbed call leaves the locks as they were. */
    method Execute<R>(session: string, turn: string, tool: string, token: Option<string>, work: Work<R>)
      returns (r: Settlement<R>, ran: bool, ghost evs: seq<Event>)
      requires Valid()
      modifies link, link.server
      ensures link.log == old(link.log) + evs
      ensures Follows(link.Calm(), old(link.server.db), old(link.server.now), evs, link.server.db, link.server.now)
      ensures tool == "" ==> ran && r == Settle(work.body, true, true) && |evs| == work.keepalives
      ensures tool == "" ==> forall e | e in evs :: e.op.ExtendSession?
      ensures tool != "" ==> Guarded(PlanOf(session, turn, tool, token), evs, work, ran, r)
      ensures tool != "" ==> forall e | e in evs :: Proper(session, turn, tool, token, e.op)
      ensures tool != "" && r.err == Some(SessionBusy(Cancelled)) ==>
        link.log != [] && link.tape(|link.log| - 1).cancelled
      ensures tool != "" && r.err == Some(TurnBusy(Cancelled)) ==> |link.log| > 1 && link.tape(|link.log| - 2).cancelled
      ensures var plan := PlanOf(session, turn, tool, token);
              tool != "" && link.Calm()
              && SessionShape(old(link.server.db), old(link.server.now), session)
              && TurnShape(old(link.server.db), old(link.server.now), turn)
              && Unexpired(plan, old(link.server.db), old(link.server.now), link.server.now)
              ==> LeavesLocks(plan, old(link.server.db), old(link.server.now), evs, link.server.db, link.server.now)
    {
      hide Settle, Observe, Track, Proper, Polled, RanBetween, TurnRefused;
      if tool == "" {
        evs := RunWork(session, turn, work);
        return Settle(work.body, true, true), true, evs;
      }
      ghost var db0, t0, plan := link.server.db, link.server.now, PlanOf(session, turn, tool, token);
      r, ran, evs := Guard(session, turn, tool, token, work);
      PlanIsProper(session, turn, tool, token, evs);
      if link.Calm() && SessionShape(db0, t0, session) && TurnShape(db0, t0, turn)
         && Unexpired(plan, db0, t0, link.server.now) {
        Neutral(plan, db0, t0, link.server.now, evs);
      }
    }

    lemma TrackPolledSession(plan: Plan, a: seq<Event>, got: LockResult)
      requires Polled(plan.Acquire(), a, got)
      ensures Track(plan, WantSession, a)
        == Some(if got == Acquired then WantTurn else if got == Broken then Finished else WantSession)
      ensures got != Acquired ==> SessionGrants(a) == 0 && TurnGrants(a) == 0
    {
      TrackPolled(plan, WantSession, plan.Acquire(), a, got);
      if got != Acquired {
        forall e | e in a ensures !((e.op.ReadLock? || e.op.WriteLock?) && e.Seen().Some? && e.Seen() != Some(0)) {
          assert e in a[..|a| - 1] || e == a[|a| - 1];
        }
        GrantsNone(a);
        var n := |a| - 1;
        TrackRefused(plan, WantSession, plan.Acquire(), a[..n]);
        Balanced(plan, a[..n]);
      }
    }

    lemma Conclude(plan: Plan, a: seq<Event>, t: seq<Event>, x: seq<Event>, u: seq<Event>, release: Event,
        ran: bool, why: LockResult)
      requires Polled(plan.Acquire(), a, Acquired) && release.op == plan.Release()
      requires if ran then
                 && Polled(plan.Lock(), t, Acquired) && (forall e | e in x :: e.op == plan.Extend())
                 && |u| == 1 && u[0].op == plan.Unlock()
               else why != Acquired && (Polled(plan.Lock(), t, why) || t == []) && x == [] && u == []
      ensures var evs := a + (t + x + u) + [release];
              && Track(plan, WantSession, evs) == Some(Finished)
              && TurnGrants(evs) == (if ran then 1 else 0)
              && SessionGrants(evs) == 1
              && evs[|evs| - 1] == release
              && (ran ==> |evs| >= 2 && evs[|evs| - 2] == u[0])
    {
      var evs := a + (t + x + u) + [release];
      if ran {
        assert u == [u[0]];
        assert evs == a + t + x + [u[0]] + [release];
        RanTrack(plan, a, t, x, u[0], release);
      } else {
        assert evs == a + t + [release];
        RefusedTrack(plan, a, t, why, release);
      }
      Balanced(plan, evs);
      assert evs[..|evs| - 1] == a + (t + x + u);
    }

    lemma NeverEntered<R>(plan: Plan, a: seq<Event>, got: LockResult, work: Work<R>)
      requires Polled(plan.Acquire(), a, got) && got != Acquired
      ensures Guarded(plan, a, work, false, Settlement(None, Some(SessionBusy(got))))
    {
      TrackPolledSession(plan, a, got);
    }

    lemma Concluded<R>(plan: Plan, a: seq<Event>, t: seq<Event>, x: seq<Event>, u: seq<Event>, release: Event,
                    ran: bool, why: LockResult, work: Work<R>, inner: Settlement<R>, r: Settlement<R>)
      requires Polled(plan.Acquire(), a, Acquired) && release.op == plan.Release()
      requires if ran then
                 && Polled(plan.Lock(), t, Acquired) && (forall e | e in x :: e.op == plan.Extend())
                 && |x| == work.keepalives
                 && |u| == 1 && u[0].op == plan.Unlock() && inner == Unwound(work.body, u[0].Seen().Some?)
               else
                 && why != Acquired && (Polled(plan.Lock(), t, why) || t == []) && x == [] && u == []
                 && inner == Settlement(None, Some(TurnBusy(why)))
      requires r == if ran && work.body.Panicked? then Settlement(None, Some(FromPanic(work.body.msg)))
                    else if release.Seen() == None && inner.err == None
                    then Settlement(None, Some(SessionReleaseFailed))
                    else inner
      ensures Guarded(plan, a + (t + x + u) + [release], work, ran, r)
      ensures ran && r.err.Some? ==> !r.err.value.TurnBusy? && !r.err.value.SessionBusy?
      ensures !ran ==> r == inner
    {
      hide Polled, RanBetween, TurnRefused, Track, Observe;
      Conclude(plan, a, t, x, u, release, ran, why);
      if ran {
        RanHere(plan, a, t, x, u, release);
      } else {
        RefusedHere(plan, a, t, x, u, release, why);
      }
    }

    lemma RefusedHere(plan: Plan, a: seq<Event>, t: seq<Event>, x: seq<Event>, u: seq<Event>, release: Event,
        why: LockResult)
      requires Polled(plan.Acquire(), a, Acquired) && (Polled(plan.Lock(), t, why) || t == [])
      requires release.op == plan.Release() && x == [] && u == []
      ensures TurnRefused(plan, a + (t + x + u) + [release], why)
    {
      hide Polled;
      assert a + (t + x + u) + [release] == a + t + [release];
    }

    lemma RanHere(plan: Plan, a: seq<Event>, t: seq<Event>, x: seq<Event>, u: seq<Event>, release: Event)
      requires Polled(plan.Acquire(), a, Acquired) && Polled(plan.Lock(), t, Acquired)
      requires forall e | e in x :: e.op == plan.Extend()
      requires |u| == 1 && u[0].op == plan.Unlock() && release.op == plan.Release()
      ensures RanBetween(plan, a + (t + x + u) + [release], |x|)
    {
      hide Polled;
      assert u == [u[0]];
      assert a + (t + x + u) + [release] == a + t + x + [u[0]] + [release];
    }
  }
}
