/** One client's connection to Redis, with everything the client cannot control written on a
    tape: what others do to the database before each Eval, delays, lost requests and replies,
    late timers and cancelled contexts. The log keeps every Eval in order. */
module RedisLink {
  import opened Wrappers
  import opened Redis
  import opened CallTrace

  datatype Weather = Weather(
    meddle: Option<Db>,   // the database as others left it, when they changed it
    delay: nat,           // until the script runs
    latency: nat,         // from the script to the reply
    fate: Fate,
    late: nat,            // how late a timer set after this Eval fires
    cancelled: bool)      // the context is done during the wait after this Eval

  /** What a stretch of Evals did: it ends in the given database and time, and when nobody
      meddled and nothing was lost it is an undisturbed run. */
  ghost predicate Follows(calm: bool, db0: Db, t0: int, evs: seq<Event>, db: Db, t: int) {
    && t0 <= t
    && db == Last(db0, evs)
    && (calm ==> Undisturbed(db0, t0, t, evs))
  }

  lemma FollowsAppend(calm: bool, db0: Db, t0: int, a: seq<Event>, db1: Db, t1: int, b: seq<Event>, db2: Db, t2: int)
    requires Follows(calm, db0, t0, a, db1, t1) && Follows(calm, db1, t1, b, db2, t2)
    ensures Follows(calm, db0, t0, a + b, db2, t2)
  {
    if b == [] {
      assert a + b == a;
    } else {
      assert (a + b)[|a + b| - 1] == b[|b| - 1];
    }
    if calm {
      UndisturbedAppend(db0, t0, t1, t2, a, b);
    }
  }

  lemma FollowsLater(calm: bool, db0: Db, t0: int, evs: seq<Event>, db: Db, t: int, later: int)
    requires Follows(calm, db0, t0, evs, db, t) && t <= later
    ensures Follows(calm, db0, t0, evs, db, later)
  {
    FollowsAppend(calm, db0, t0, evs, db, t, [], db, later);
    assert evs + [] == evs;
  }

  // ---------- polling loops ----------

  const POLL_INTERVAL: int := 50 * NANOS_PER_MILLI

  /** time.Duration.Milliseconds: truncation toward zero. */
  function Milliseconds(nanos: int): int {
    if nanos >= 0 then nanos / NANOS_PER_MILLI else -((-nanos) / NANOS_PER_MILLI)
  }

  datatype LockResult = Acquired | TimedOut | Broken | Cancelled

  /** Which replies the client takes for a lock. */
  predicate Granted(op: Op, reply: int) {
    if op.AcquireSession? then reply == 1 else reply != 0
  }

  /** Every event of a failed stretch of polling: the same script, answered, not granted. */
  predicate Refused(op: Op, evs: seq<Event>) {
    forall e | e in evs :: e.op == op && e.Seen().Some? && !Granted(op, e.Seen().value)
  }

  /** A finished poll: refusals, then one last attempt that fits the result. */
  predicate Polled(op: Op, evs: seq<Event>, r: LockResult) {
    && evs != []
    && Refused(op, evs[..|evs| - 1])
    && var last := evs[|evs| - 1];
       && last.op == op
       && match r
          case Acquired => last.Seen().Some? && Granted(op, last.Seen().value)
          case Broken => last.Seen() == None
          case _ => last.Seen().Some? && !Granted(op, last.Seen().value)
  }

  /** How a poll ends, by what the client saw: a session is granted by the reply 1 alone, a turn lock by any
      reply but 0; every earlier attempt was answered otherwise. */
  lemma PollEnds(op: Op, evs: seq<Event>, r: LockResult)
    requires Polled(op, evs, r)
    ensures var seen := evs[|evs| - 1].Seen();
            && (r == Broken <==> seen == None)
            && (op.AcquireSession? ==> (r == Acquired <==> seen == Some(1)))
            && (op.ReadLock? || op.WriteLock? ==>
                  (r == Acquired <==> seen.Some? && seen != Some(0))
                      && (r in {TimedOut, Cancelled} <==> seen == Some(0)))
    ensures forall i | 0 <= i < |evs| - 1 ::
              && evs[i].Seen().Some?
              && (op.AcquireSession? ==> evs[i].Seen() != Some(1))
              && (op.ReadLock? || op.WriteLock? ==> evs[i].Seen() == Some(0))
  {
    forall i | 0 <= i < |evs| - 1 ensures evs[i] in evs[..|evs| - 1] {
      assert evs[..|evs| - 1][i] == evs[i];
    }
  }

  lemma PollStep(op: Op, evs: seq<Event>, e: Event)
    requires Refused(op, evs) && e.op == op
    ensures e.Seen() == None ==> Polled(op, evs + [e], Broken)
    ensures e.Seen().Some? && Granted(op, e.Seen().value) ==> Polled(op, evs + [e], Acquired)
    ensures e.Seen().Some? && !Granted(op, e.Seen().value) ==>
              Refused(op, evs + [e]) && Polled(op, evs + [e], TimedOut) && Polled(op, evs + [e], Cancelled)
  {
    assert (evs + [e])[..|evs|] == evs;
  }

  /** One attempt when there is no time to wait, else one per started poll interval and one more. */
  function MaxAttempts(timeout: int): nat {
    if timeout <= 0 then 1 else (timeout + POLL_INTERVAL - 1) / POLL_INTERVAL + 1
  }

  /** The pace of polling after n refused attempts. */
  predicate Paced(n: nat, timeout: int, start: int, now: int) {
    n >= 1 ==>
      && timeout > 0
      && POLL_INTERVAL * (n - 1) < timeout
      && (now >= start + POLL_INTERVAL * n || now >= start + timeout)
  }

  /** The poll interval is 50 ms, and the bound on the attempts is one more than the number of intervals
      it takes to cover the timeout. */
  lemma MaxAttemptsIs(timeout: int)
    ensures timeout <= 0 ==> MaxAttempts(timeout) == 1
    ensures timeout > 0 ==> 50_000_000 * (MaxAttempts(timeout) - 2) < timeout <= 50_000_000 * (MaxAttempts(timeout) - 1)
  {
  }

  lemma PaceAllows(n: nat, timeout: int, start: int, now: int)
    requires Paced(n, timeout, start, now)
    ensures n + 1 <= MaxAttempts(timeout)
  {
  }

  lemma PaceStep(n: nat, timeout: int, start: int, now: int, checked: int, later: int)
    requires Paced(n, timeout, start, now) && timeout > 0
    requires now <= checked < start + timeout && start <= now
    requires later >= checked + POLL_INTERVAL || later >= start + timeout
    ensures Paced(n + 1, timeout, start, later)
  {
  }

  /** So many waits were added, none longer than 50 ms. */
  predicate Napped(before: seq<int>, after: seq<int>, count: nat) {
    && |after| == |before| + count && before <= after
    && forall i | |before| <= i < |after| :: after[i] <= 50_000_000
  }

  lemma NappedOnce(before: seq<int>, mid: seq<int>, after: seq<int>, count: nat)
    requires Napped(before, mid, count) && Napped(mid, after, 1)
    ensures Napped(before, after, count + 1)
  {
  }

  lemma {:induction false} TrackRefused(plan: Plan, start: Phase, op: Op, evs: seq<Event>)
    requires (start == WantSession && op == plan.Acquire()) || (start == WantTurn && op == plan.Lock())
    requires Refused(op, evs)
    ensures Track(plan, start, evs) == Some(start)
  {
    if evs != [] {
      TrackRefused(plan, start, op, evs[..|evs| - 1]);
      assert evs[|evs| - 1] in evs;
    }
  }

  /** A poll moves a call on exactly when it was granted; a broken one is over for that lock. */
  lemma TrackPolled(plan: Plan, start: Phase, op: Op, evs: seq<Event>, r: LockResult)
    requires (start == WantSession && op == plan.Acquire()) || (start == WantTurn && op == plan.Lock())
    requires Polled(op, evs, r)
    ensures Track(plan, start, evs) == Some(
              match r
              case Acquired => if start == WantSession then WantTurn else Running
              case Broken => if start == WantSession then Finished else DropSession
              case _ => start)
  {
    TrackRefused(plan, start, op, evs[..|evs| - 1]);
  }

  class Link {
    const server: Server
    const tape: nat -> Weather
    const drift: nat -> nat      // time that passes before each look at the clock
    var looks: nat
    var log: seq<Event>
    var naps: seq<int>           // the waits asked for between attempts, in order

    constructor (server: Server, tape: nat -> Weather, drift: nat -> nat)
      ensures this.server == server && this.tape == tape && this.drift == drift && log == [] && naps == []
    {
      this.server, this.tape, this.drift := server, tape, drift;
      looks, log, naps := 0, [], [];
    }

    /** No interference, no lost request, no lost reply. */
    ghost predicate Calm() {
      forall i: nat :: tape(i).meddle == None && tape(i).fate == Replied
    }

    method Now() returns (t: int)
      modifies this`looks, server`now
      ensures t == server.now >= old(server.now)
    {
      server.now := server.now + drift(looks);
      looks := looks + 1;
      t := server.now;
    }

    method Eval(op: Op) returns (seen: Option<int>)
      modifies this`log, server
      ensures |log| == |old(log)| + 1 && log == old(log) + [log[|old(log)|]]
      ensures var e := log[|old(log)|];
              && e.op == op && e.Seen() == seen
              && old(server.now) <= e.at <= server.now
              && server.db == e.After()
      ensures Follows(Calm(), old(server.db), old(server.now), [log[|old(log)|]], server.db, server.now)
    {
      var w := tape(|log|);
      server.now := server.now + w.delay;
      if w.meddle.Some? {
        server.db := w.meddle.value;
      }
      var e := Event(op, server.now, server.db, w.fate);
      match w.fate {
        case NeverSent =>
          seen := None;
        case ReplyLost =>
          var _ := server.Eval(op);
          seen := None;
        case Replied =>
          seen := server.Eval(op);
      }
      log := log + [e];
      server.now := server.now + w.latency;
      assert [e][..0] == [];
    }

    /** A timer select: sleeps at least as long as asked, or reports that the context was cancelled. */
    method Sleep(wait: int) returns (fired: bool)
      requires log != []
      modifies this`naps, server`now
      ensures naps == old(naps) + [wait]
      ensures fired <==> !tape(|log| - 1).cancelled
      ensures server.now >= old(server.now)
      ensures fired ==> server.now >= old(server.now) + wait
    {
      var w := tape(|log| - 1);
      fired := !w.cancelled;
      naps := naps + [wait];
      server.now := server.now + w.late + (if fired && wait > 0 then wait else 0);
    }

    /** One attempt inside a polling loop: an Eval added to the refusals so far. */
    method Attempt(op: Op, ghost db0: Db, ghost t0: int, ghost evs: seq<Event>)
      returns (seen: Option<int>, ghost more: seq<Event>)
      requires Refused(op, evs) && Follows(Calm(), db0, t0, evs, server.db, server.now)
      modifies this`log, server
      ensures |more| == |evs| + 1 && more[..|evs|] == evs && log == old(log) + [more[|evs|]]
      ensures Follows(Calm(), db0, t0, more, server.db, server.now) && server.now >= old(server.now)
      ensures seen == None ==> Polled(op, more, Broken)
      ensures seen.Some? && Granted(op, seen.value) ==> Polled(op, more, Acquired)
      ensures seen.Some? && !Granted(op, seen.value) ==>
                Refused(op, more) && Polled(op, more, TimedOut) && Polled(op, more, Cancelled)
    {
      seen := Eval(op);
      ghost var e := log[|log| - 1];
      PollStep(op, evs, e);
      FollowsAppend(Calm(), db0, t0, evs, old(server.db), old(server.now), [e], server.db, server.now);
      more := evs + [e];
    }

    /** The wait between attempts: 50 ms, or what is left until the deadline; it is cut short only by a
        cancelled context. */
    method Pause(deadline: int, ghost db0: Db, ghost t0: int, ghost evs: seq<Event>) returns (fired: bool)
      requires log != [] && Follows(Calm(), db0, t0, evs, server.db, server.now)
      modifies this`looks, this`naps, server`now
      ensures Follows(Calm(), db0, t0, evs, server.db, server.now) && server.now >= old(server.now)
      ensures Napped(old(naps), naps, 1)
      ensures fired <==> !tape(|log| - 1).cancelled
      ensures fired ==> server.now >= old(server.now) + POLL_INTERVAL || server.now >= deadline
    {
      var wait := POLL_INTERVAL;
      var now := Now();
      if deadline - now < wait {
        wait := deadline - now;
      }
      fired := Sleep(wait);
      FollowsLater(Calm(), db0, t0, evs, server.db, old(server.now), server.now);
    }
  }
}
