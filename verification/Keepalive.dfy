/** The keepalive of an approval wait: the ticker extends the session lease every half TTL
    (cmd/gateway/approval_bridge.go), the lease is granted in whole milliseconds
    (cmd/gateway/session_locker.go). */
module Keepalive {
  import opened Wrappers
  import opened Redis
  import opened RedisLink

  /** lockTTL / 2 on time.Duration: truncation toward zero. */
  function Interval(lockTTL: int): int {
    if lockTTL >= 0 then lockTTL / 2 else -((-lockTTL) / 2)
  }

  /** The lease as Redis grants it, in nanoseconds. */
  function LeaseNanos(lockTTL: int): int {
    Milliseconds(lockTTL) * NANOS_PER_MILLI
  }

  /** A positive TTL loses less than a millisecond when it is sent to Redis, and the ticker runs every half of
      it, to the nanosecond below. */
  lemma TruncationsAre(lockTTL: int)
    requires lockTTL >= 0
    ensures Milliseconds(lockTTL) * 1_000_000 <= lockTTL < (Milliseconds(lockTTL) + 1) * 1_000_000
    ensures 2 * Interval(lockTTL) <= lockTTL < 2 * Interval(lockTTL) + 2
    ensures LeaseNanos(lockTTL) <= lockTTL < LeaseNanos(lockTTL) + 1_000_000
  {
  }

  /** The ticker is faster than the truncated lease exactly from one millisecond up. */
  lemma IntervalBelowLease(lockTTL: int)
    requires lockTTL > 0
    ensures Interval(lockTTL) < LeaseNanos(lockTTL) <==> lockTTL >= NANOS_PER_MILLI
  {
  }

  /** The database after the extensions sent at the given times. */
  function AfterExtends(db: Db, s: string, t: string, ttl: int, times: seq<int>): Db {
    if times == [] then db
    else
      var n := |times| - 1;
      Run(AfterExtends(db, s, t, ttl, times[..n]), times[n], ExtendSession(s, t, ttl)).db
  }

  /** The last refresh: the grant itself, or the last extension. */
  function LastRefresh(at: int, times: seq<int>): int {
    if times == [] then at else times[|times| - 1]
  }

  /** Every extension found the lease still there. */
  predicate AllSucceed(db: Db, s: string, t: string, ttl: int, times: seq<int>) {
    times != [] ==>
      var n := |times| - 1;
      && AllSucceed(db, s, t, ttl, times[..n])
      && Run(AfterExtends(db, s, t, ttl, times[..n]), times[n], ExtendSession(s, t, ttl)).reply == Some(1)
  }

  /** Each extension is sent before the lease of the refresh before it ends. */
  predicate CloseEnough(lease: int, at: int, times: seq<int>) {
    times != [] ==>
      var n := |times| - 1;
      && CloseEnough(lease, at, times[..n])
      && times[n] < LastRefresh(at, times[..n]) + lease
  }

  predicate Ordered(at: int, times: seq<int>) {
    times != [] ==>
      var n := |times| - 1;
      Ordered(at, times[..n]) && LastRefresh(at, times[..n]) <= times[n]
  }

  /** The lease of turn t on session s, refreshed at the given time. */
  predicate LeasedAt(db: Db, s: string, t: string, ttl: int, at: int) {
    && SessionOwner(s) in db && db[SessionOwner(s)] == Leased(Text(t), at, ttl)
    && SessionCount(s) in db && db[SessionCount(s)].deadline == At(at + ttl * NANOS_PER_MILLI)
  }

  lemma {:induction false} LeaseCarried(db: Db, s: string, t: string, ttl: int, at: int, times: seq<int>)
    requires ttl > 0 && LeasedAt(db, s, t, ttl, at)
    requires Ordered(at, times) && CloseEnough(ttl * NANOS_PER_MILLI, at, times)
    ensures LeasedAt(AfterExtends(db, s, t, ttl, times), s, t, ttl, LastRefresh(at, times))
  {
    if times != [] {
      LeaseCarried(db, s, t, ttl, at, times[..|times| - 1]);
    }
  }

  /** Over any number of extensions: all of them succeed if and only if each is sent less than a
      lease after the refresh before it. */
  lemma {:induction false} ExtensionsSucceedIff(db: Db, s: string, t: string, ttl: int, at: int, times: seq<int>)
    requires ttl > 0 && LeasedAt(db, s, t, ttl, at) && Ordered(at, times)
    ensures AllSucceed(db, s, t, ttl, times) <==> CloseEnough(ttl * NANOS_PER_MILLI, at, times)
  {
    if times != [] {
      var front := times[..|times| - 1];
      ExtensionsSucceedIff(db, s, t, ttl, at, front);
      if CloseEnough(ttl * NANOS_PER_MILLI, at, front) {
        LeaseCarried(db, s, t, ttl, at, front);
      }
    }
  }

  /** The time of tick k after the ticker starts. */
  function Due(k: nat, interval: int): int {
    if k == 0 then 0 else Due(k - 1, interval) + interval
  }

  /** When the extensions of a wait reach Redis: the ticker starts at the given time, tick k is due
      k intervals later, and each extension is late by some amount. */
  function TickTimes(start: int, interval: int, late: seq<nat>): seq<int> {
    if late == [] then []
    else TickTimes(start, interval, late[..|late| - 1]) + [start + Due(|late|, interval) + late[|late| - 1]]
  }

  /** One more extension, in time. */
  lemma OneMoreTick(lease: int, at: int, times: seq<int>, next: int)
    requires Ordered(at, times) && CloseEnough(lease, at, times)
    requires LastRefresh(at, times) <= next < LastRefresh(at, times) + lease
    ensures Ordered(at, times + [next]) && CloseEnough(lease, at, times + [next])
    ensures LastRefresh(at, times + [next]) == next
  {
    assert (times + [next])[..|times|] == times;
  }

  /** Every tick comes within a lease of the one before it. */
  lemma {:induction false} TicksInOrder(at: int, delay: nat, interval: nat, lease: int, late: seq<nat>)
    requires forall i | 0 <= i < |late| :: late[i] + delay < lease - interval && late[i] <= interval
    ensures var times := TickTimes(at + delay, interval, late);
            && |times| == |late| && Ordered(at, times) && CloseEnough(lease, at, times)
            && LastRefresh(at, times) == if late == [] then at
              else at + delay + Due(|late|, interval) + late[|late| - 1]
  {
    hide Ordered, CloseEnough;
    if late == [] {
      NoTicks(lease, at);
    } else {
      var n := |late| - 1;
      var before := TickTimes(at + delay, interval, late[..n]);
      var next := at + delay + Due(n + 1, interval) + late[n];
      TicksInOrder(at, delay, interval, lease, late[..n]);
      assert Due(n + 1, interval) == Due(n, interval) + interval;
      if n > 0 {
        assert late[..n][n - 1] == late[n - 1];
      } else {
        assert Due(0, interval) == 0;
      }
      OneMoreTick(lease, at, before, next);
    }
  }

  lemma NoTicks(lease: int, at: int)
    ensures Ordered(at, []) && CloseEnough(lease, at, [])
  {
  }

  /** The lease outlives an approval wait of any length. The lease was granted at time at and the wait
      began delay later; that delay plus the lateness of any extension stays below the gap between
      interval and lease. Then every extension finds the lease alive, and from the last refresh until
      one lease after it the owner is this turn. As this holds after every number of ticks, the lease
      is never lost in between. */
  lemma WaitNeverLosesLease(db: Db, s: string, t: string, lockTTL: int, at: int, delay: nat, late: seq<nat>,
      moment: int)
    requires lockTTL >= NANOS_PER_MILLI
    requires LeasedAt(db, s, t, Milliseconds(lockTTL), at)
    requires forall i | 0 <= i < |late| ::
               late[i] + delay < LeaseNanos(lockTTL) - Interval(lockTTL)
    requires var last := LastRefresh(at, TickTimes(at + delay, Interval(lockTTL), late));
             last <= moment < last + LeaseNanos(lockTTL)
    ensures var times := TickTimes(at + delay, Interval(lockTTL), late);
            && AllSucceed(db, s, t, Milliseconds(lockTTL), times)
            && Get(AfterExtends(db, s, t, Milliseconds(lockTTL), times), moment, SessionOwner(s)) == Some(Text(t))
            && Live(AfterExtends(db, s, t, Milliseconds(lockTTL), times), moment, SessionCount(s))
  {
    var interval, ttl := Interval(lockTTL), Milliseconds(lockTTL);
    TicksInOrder(at, delay, interval, LeaseNanos(lockTTL), late);
    ExtensionsSucceedIff(db, s, t, ttl, at, TickTimes(at + delay, interval, late));
    LeaseCarried(db, s, t, ttl, at, TickTimes(at + delay, interval, late));
  }

  /** Until its next extension reaches Redis a waiting call is prompt: its last touch is less than a
      lease ago. With LockTiming.PromptRunsAreSafe this holds the session locks in every interleaving. */
  lemma TicksKeepPrompt(lockTTL: int, at: int, delay: nat, late: seq<nat>, moment: int)
    requires lockTTL >= NANOS_PER_MILLI && late != []
    requires forall i | 0 <= i < |late| :: late[i] + delay < LeaseNanos(lockTTL) - Interval(lockTTL)
    requires var times := TickTimes(at + delay, Interval(lockTTL), late);
             |times| == |late| && moment <= times[|late| - 1]
    ensures moment < LastRefresh(at, TickTimes(at + delay, Interval(lockTTL), late[..|late| - 1])) + LeaseNanos(lockTTL)
  {
    var n, interval := |late| - 1, Interval(lockTTL);
    TicksInOrder(at, delay, interval, LeaseNanos(lockTTL), late);
    assert TickTimes(at + delay, interval, late)[..n] == TickTimes(at + delay, interval, late[..n]);
  }
}
