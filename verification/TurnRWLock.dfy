/** cmd/gateway/turn_rwlock.go: a reader counter and a writer token per turn ID. */
module TurnRWLock {
  import opened Wrappers
  import opened Redis
  import opened CallTrace
  import opened RedisLink

  class TurnRWLock {
    const link: Link
    const lockTTL: int
    const acquireTimeout: int

    constructor (link: Link, lockTTL: int, acquireTimeout: int)
      ensures this.link == link && this.lockTTL == lockTTL && this.acquireTimeout == acquireTimeout
    {
      this.link, this.lockTTL, this.acquireTimeout := link, lockTTL, acquireTimeout;
    }

    method ReadLock(turn: string) returns (r: LockResult, ghost evs: seq<Event>)
      modifies link, link.server
      ensures link.log == old(link.log) + evs
      ensures Polled(Op.ReadLock(turn, Milliseconds(lockTTL)), evs, r)
      ensures |evs| <= MaxAttempts(acquireTimeout)
      ensures Follows(link.Calm(), old(link.server.db), old(link.server.now), evs, link.server.db, link.server.now)
      ensures r == TimedOut ==> link.server.now - old(link.server.now) >= acquireTimeout
      ensures r == Cancelled ==> acquireTimeout > 0 && evs != [] && link.tape(|link.log| - 1).cancelled
      ensures Napped(old(link.naps), link.naps, if r == Cancelled || evs == [] then |evs| else |evs| - 1)
    {
      var op := Op.ReadLock(turn, Milliseconds(lockTTL));
      ghost var before, naps0, db0, t0 := link.log, link.naps, link.server.db, link.server.now;
      var start := link.Now();
      var deadline := start + acquireTimeout;
      evs := [];
      while true
        invariant link.log == before + evs
        invariant Refused(op, evs)
        invariant Follows(link.Calm(), db0, t0, evs, link.server.db, link.server.now)
        invariant Paced(|evs|, acquireTimeout, start, link.server.now)
        invariant t0 <= start <= link.server.now
        invariant Napped(naps0, link.naps, |evs|)
        invariant |evs| > 0 ==> acquireTimeout > 0
        decreases deadline - link.server.now
      {
        hide Follows, Polled, Refused, Napped, Paced, MaxAttempts, Milliseconds;
        PaceAllows(|evs|, acquireTimeout, start, link.server.now);
        ghost var n, head := |evs|, link.server.now;
        var result;
        result, evs := link.Attempt(op, db0, t0, evs);
        if result == None {
          return Broken, evs;
        }
        if result.value != 0 {
          return Acquired, evs;
        }
        ghost var t1 := link.server.now;
        var now := link.Now();
        FollowsLater(link.Calm(), db0, t0, evs, link.server.db, t1, now);
        if acquireTimeout <= 0 || !(now < deadline) {
          return TimedOut, evs;
        }
        ghost var naps1 := link.naps;
        var fired := link.Pause(deadline, db0, t0, evs);
        NappedOnce(naps0, naps1, link.naps, n);
        if !fired {
          return Cancelled, evs;
        }
        PaceStep(n, acquireTimeout, start, head, now, link.server.now);
      }
    }

    method ReadUnlock(turn: string) returns (ok: bool)
      modifies link, link.server
      ensures |link.log| == old(|link.log|) + 1 && link.log == old(link.log) + [link.log[old(|link.log|)]]
      ensures var e := link.log[old(|link.log|)];
              e.op == Op.ReadUnlock(turn) && (ok <==> e.Seen().Some?)
      ensures Follows(link.Calm(), old(link.server.db), old(link.server.now), [link.log[old(|link.log|)]],
        link.server.db, link.server.now)
    {
      var seen := link.Eval(Op.ReadUnlock(turn));
      ok := seen.Some?;
    }

    /** The token is what the random source gave; without one no script is sent. */
    method WriteLock(turn: string, token: Option<string>) returns (r: LockResult, ghost evs: seq<Event>)
      modifies link, link.server
      ensures link.log == old(link.log) + evs
      ensures token.None? ==> r == Broken && evs == []
      ensures token.Some? ==> Polled(Op.WriteLock(turn, token.value, Milliseconds(lockTTL)), evs, r)
      ensures |evs| <= MaxAttempts(acquireTimeout)
      ensures Follows(link.Calm(), old(link.server.db), old(link.server.now), evs, link.server.db, link.server.now)
      ensures r == TimedOut ==> link.server.now - old(link.server.now) >= acquireTimeout
      ensures r == Cancelled ==> acquireTimeout > 0 && evs != [] && link.tape(|link.log| - 1).cancelled
      ensures Napped(old(link.naps), link.naps, if r == Cancelled || evs == [] then |evs| else |evs| - 1)
    {
      evs := [];
      if token.None? {
        return Broken, evs;
      }
      r, evs := WriteLockWith(turn, token.value);
    }

    /** The polling loop of WriteLock, once there is a token. */
    method WriteLockWith(turn: string, token: string) returns (r: LockResult, ghost evs: seq<Event>)
      modifies link, link.server
      ensures link.log == old(link.log) + evs
      ensures Polled(Op.WriteLock(turn, token, Milliseconds(lockTTL)), evs, r)
      ensures |evs| <= MaxAttempts(acquireTimeout)
      ensures Follows(link.Calm(), old(link.server.db), old(link.server.now), evs, link.server.db, link.server.now)
      ensures r == TimedOut ==> link.server.now - old(link.server.now) >= acquireTimeout
      ensures r == Cancelled ==> acquireTimeout > 0 && evs != [] && link.tape(|link.log| - 1).cancelled
      ensures Napped(old(link.naps), link.naps, if r == Cancelled || evs == [] then |evs| else |evs| - 1)
    {
      evs := [];
      var op := Op.WriteLock(turn, token, Milliseconds(lockTTL));
      ghost var before, naps0, db0, t0 := link.log, link.naps, link.server.db, link.server.now;
      var start := link.Now();
      var deadline := start + acquireTimeout;
      while true
        invariant link.log == before + evs
        invariant Refused(op, evs)
        invariant Follows(link.Calm(), db0, t0, evs, link.server.db, link.server.now)
        invariant Paced(|evs|, acquireTimeout, start, link.server.now)
        invariant t0 <= start <= link.server.now
        invariant Napped(naps0, link.naps, |evs|)
        invariant |evs| > 0 ==> acquireTimeout > 0
        decreases deadline - link.server.now
      {
        hide Follows, Polled, Refused, Napped, Paced, MaxAttempts, Milliseconds;
        PaceAllows(|evs|, acquireTimeout, start, link.server.now);
        ghost var n, head := |evs|, link.server.now;
        var result;
        result, evs := link.Attempt(op, db0, t0, evs);
        if result == None {
          return Broken, evs;
        }
        if result.value != 0 {
          return Acquired, evs;
        }
        ghost var t1 := link.server.now;
        var now := link.Now();
        FollowsLater(link.Calm(), db0, t0, evs, link.server.db, t1, now);
        if acquireTimeout <= 0 || !(now < deadline) {
          return TimedOut, evs;
        }
        ghost var naps1 := link.naps;
        var fired := link.Pause(deadline, db0, t0, evs);
        NappedOnce(naps0, naps1, link.naps, n);
        if !fired {
          return Cancelled, evs;
        }
        PaceStep(n, acquireTimeout, start, head, now, link.server.now);
      }
    }

    method WriteUnlock(turn: string, token: string) returns (ok: bool)
      modifies link, link.server
      ensures |link.log| == old(|link.log|) + 1 && link.log == old(link.log) + [link.log[old(|link.log|)]]
      ensures var e := link.log[old(|link.log|)];
              e.op == Op.WriteUnlock(turn, token) && (ok <==> e.Seen().Some?)
      ensures Follows(link.Calm(), old(link.server.db), old(link.server.now), [link.log[old(|link.log|)]],
        link.server.db, link.server.now)
    {
      var seen := link.Eval(Op.WriteUnlock(turn, token));
      ok := seen.Some?;
    }
  }
}
