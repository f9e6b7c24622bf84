/** What one guarded call does to Redis: the scripts it may send in each phase, and what
    every sequence of scripts that keeps to those phases achieves. The same phases drive the
    interleaved protocol (module LockProtocol) and the sequential code (ConcurrencyGuard). */
module CallTrace {
  import opened Wrappers
  import opened Redis

  datatype Class = Read | Write

  /** The fixed arguments of one guarded call. */
  datatype Plan = Plan(session: string, turn: string, kind: Class, token: string, sessionTtl: int, turnTtl: int)
  {
    function Acquire(): Op { AcquireSession(session, turn, sessionTtl) }

    function Release(): Op { ReleaseSession(session, turn) }

    function Extend(): Op { ExtendSession(session, turn, sessionTtl) }

    function Lock(): Op {
      if kind == Read then ReadLock(turn, turnTtl) else WriteLock(turn, token, turnTtl)
    }

    function Unlock(): Op {
      if kind == Read then ReadUnlock(turn) else WriteUnlock(turn, token)
    }
  }

  datatype Phase = WantSession | WantTurn | Running | DropSession | Finished

  /** The phase after sending op and seeing a reply (None: the client saw an error).
      The result is None when the call may not send op in this phase. */
  function Advance(plan: Plan, phase: Phase, op: Op, seen: Option<int>): Option<Phase> {
    match phase
    case WantSession =>
      if op != plan.Acquire() then None
      else if seen == None then Some(Finished)
      else if seen == Some(1) then Some(WantTurn)
      else Some(WantSession)
    case WantTurn =>
      if op == plan.Lock() then
        if seen == None then Some(DropSession)
        else if seen != Some(0) then Some(Running)
        else Some(WantTurn)
      else if op == plan.Release() then Some(Finished)
      else None
    case Running =>
      if op == plan.Extend() then Some(Running)
      else if op == plan.Unlock() then Some(DropSession)
      else None
    case DropSession =>
      if op == plan.Release() then Some(Finished) else None
    case Finished => None
  }

  predicate HoldsSession(phase: Phase) {
    phase in {WantTurn, Running, DropSession}
  }

  /** How an Eval went: reply seen, script run but reply lost, or script never run. */
  datatype Fate = Replied | ReplyLost | NeverSent

  function Observe(db: Db, now: int, op: Op, fate: Fate): Outcome {
    match fate
    case NeverSent => Outcome(db, None)
    case ReplyLost => Outcome(Run(db, now, op).db, None)
    case Replied => Run(db, now, op)
  }

  datatype Event = Event(op: Op, at: int, before: Db, fate: Fate) {
    function After(): Db { Observe(before, at, op, fate).db }

    function Seen(): Option<int> { Observe(before, at, op, fate).reply }
  }

  /** The phase reached by a sequence of events from a starting phase, if it keeps to the phases. */
  function Track(plan: Plan, start: Phase, evs: seq<Event>): Option<Phase> {
    if evs == [] then Some(start)
    else
      var n := |evs| - 1;
      match Track(plan, start, evs[..n])
      case None => None
      case Some(p) => Advance(plan, p, evs[n].op, evs[n].Seen())
  }

  lemma TrackSnoc(plan: Plan, start: Phase, evs: seq<Event>, e: Event)
    ensures Track(plan, start, evs + [e]) ==
            match Track(plan, start, evs)
            case None => None
            case Some(p) => Advance(plan, p, e.op, e.Seen())
  {
    assert (evs + [e])[..|evs|] == evs;
  }

  lemma {:induction false} TrackAppend(plan: Plan, start: Phase, a: seq<Event>, b: seq<Event>)
    requires Track(plan, start, a).Some?
    ensures Track(plan, start, a + b) == Track(plan, Track(plan, start, a).value, b)
  {
    hide Advance, Observe;
    if b == [] {
      assert a + b == a;
    } else {
      var n := |b| - 1;
      TrackAppend(plan, start, a, b[..n]);
      assert (a + b)[..|a| + n] == a + b[..n];
    }
  }

  /** A call that keeps to its phases sends its own scripts only. */
  lemma {:induction false} TrackOps(plan: Plan, evs: seq<Event>)
    requires Track(plan, WantSession, evs).Some?
    ensures forall e | e in evs :: e.op in {plan.Acquire(), plan.Release(), plan.Extend(), plan.Lock(), plan.Unlock()}
  {
    hide Observe;
    if evs != [] {
      var front := evs[..|evs| - 1];
      TrackOps(plan, front);
      assert evs == front + [evs[|evs| - 1]];
    }
  }

  // ---------- every lock taken is given back once, turn lock before session lock ----------

  function SessionGrants(evs: seq<Event>): nat {
    if evs == [] then 0
    else
      var e := evs[|evs| - 1];
      SessionGrants(evs[..|evs| - 1]) + if e.op.AcquireSession? && e.Seen() == Some(1) then 1 else 0
  }

  function SessionReturns(evs: seq<Event>): nat {
    if evs == [] then 0
    else SessionReturns(evs[..|evs| - 1]) + if evs[|evs| - 1].op.ReleaseSession? then 1 else 0
  }

  function TurnGrants(evs: seq<Event>): nat {
    if evs == [] then 0
    else
      var e := evs[|evs| - 1];
      TurnGrants(evs[..|evs| - 1]) +
      if (e.op.ReadLock? || e.op.WriteLock?) && e.Seen().Some? && e.Seen() != Some(0) then 1 else 0
  }

  function TurnReturns(evs: seq<Event>): nat {
    if evs == [] then 0
    else
      var e := evs[|evs| - 1];
      TurnReturns(evs[..|evs| - 1]) + if e.op.ReadUnlock? || e.op.WriteUnlock? then 1 else 0
  }

  /** Grants and returns differ by exactly what the phase says is held, so a finished call has
      returned each lock as often as it was granted one, and nothing follows the session release. */
  lemma {:induction false} Balanced(plan: Plan, evs: seq<Event>)
    requires Track(plan, WantSession, evs).Some?
    ensures var p := Track(plan, WantSession, evs).value;
            && SessionGrants(evs) == SessionReturns(evs) + (if HoldsSession(p) then 1 else 0) <= 1
            && TurnGrants(evs) == TurnReturns(evs) + (if p == Running then 1 else 0) <= 1
            && (p == WantSession ==> SessionGrants(evs) == 0)
            && (TurnGrants(evs) == 1 ==> SessionGrants(evs) == 1)
            && (p == WantTurn ==> TurnGrants(evs) == 0)
    ensures forall i | 0 <= i < |evs| && evs[i].op.ReleaseSession? :: i == |evs| - 1
  {
    hide Observe;
    if evs != [] {
      var front := evs[..|evs| - 1];
      Balanced(plan, front);
      NotYetReleased(plan, front);
      assert forall i | 0 <= i < |front| :: front[i] == evs[i];
    }
  }

  lemma NotYetReleased(plan: Plan, evs: seq<Event>)
    requires Track(plan, WantSession, evs).Some? && Track(plan, WantSession, evs) != Some(Finished)
    ensures evs != [] ==> !evs[|evs| - 1].op.ReleaseSession?
  {
  }

  // ---------- a call leaves the locks as it found them ----------

  function Keys(plan: Plan): set<Key> {
    {SessionOwner(plan.session), SessionCount(plan.session), TurnReaders(plan.turn), TurnWriter(plan.turn)}
  }

  function Last(db: Db, evs: seq<Event>): Db {
    if evs == [] then db else evs[|evs| - 1].After()
  }

  /** Every reply arrives and nobody else changes the database in between. */
  predicate Undisturbed(db: Db, from: int, to: int, evs: seq<Event>) {
    evs != [] ==>
      var n := |evs| - 1;
      && Undisturbed(db, from, to, evs[..n])
      && evs[n].fate == Replied
      && evs[n].before == Last(db, evs[..n])
      && from <= evs[n].at <= to
  }

  lemma {:induction false} UndisturbedAppend(db: Db, from: int, mid: int, to: int, a: seq<Event>, b: seq<Event>)
    requires from <= mid <= to
    requires Undisturbed(db, from, mid, a) && Undisturbed(Last(db, a), mid, to, b)
    ensures Undisturbed(db, from, to, a + b)
    decreases |a| + |b|
  {
    if b != [] {
      var n := |b| - 1;
      UndisturbedAppend(db, from, mid, to, a, b[..n]);
      assert (a + b)[..|a| + n] == a + b[..n];
      assert n == 0 ==> a + b[..n] == a;
    } else if a != [] {
      assert a + b == a;
      UndisturbedAppend(db, from, mid, to, a[..|a| - 1], []);
      assert a[..|a| - 1] + [] == a[..|a| - 1];
    }
  }

  /** No lock key of the call expires between the two times. */
  predicate Unexpired(plan: Plan, db: Db, from: int, to: int) {
    && from <= to
    && to < from + plan.sessionTtl * NANOS_PER_MILLI
    && to < from + plan.turnTtl * NANOS_PER_MILLI
    && forall k | k in Keys(plan) :: Live(db, from, k) ==> Live(db, to, k)
  }

  /** The shape the session scripts keep: an owner text beside a positive count, or neither. */
  predicate SessionShape(db: Db, now: int, s: string) {
    match Get(db, now, SessionOwner(s))
    case None => Get(db, now, SessionCount(s)) == None
    case Some(Text(_)) => Get(db, now, SessionCount(s)).Some? && Get(db, now, SessionCount(s)).value.Num?
      && Counter(db, now, SessionCount(s)) >= 1
    case Some(Num(_)) => false
  }

  predicate TurnShape(db: Db, now: int, t: string) {
    && Get(db, now, TurnReaders(t)) in {None, Some(Num(Counter(db, now, TurnReaders(t))))}
    && (Live(db, now, TurnWriter(t)) ==> db[TurnWriter(t)].value.Text?)
  }

  function Tried(evs: seq<Event>): bool {
    evs != [] && (Tried(evs[..|evs| - 1]) || evs[|evs| - 1].op.ReadLock?)
  }

  /** The reader counter was left at -1 by an unlock after expiry and a reader now counts it up to 0. */
  predicate Underflows(plan: Plan, db: Db, now: int, evs: seq<Event>) {
    && plan.kind == Read
    && Tried(evs)
    && Counter(db, now, TurnReaders(plan.turn)) == -1
    && !Live(db, now, TurnWriter(plan.turn))
  }

  /** What the four keys read while the call is in a phase, relative to the start. */
  ghost predicate During(plan: Plan, db0: Db, from: int, to: int, evs: seq<Event>, phase: Phase, db: Db) {
    var readers0 := if Underflows(plan, db0, from, evs) then 0 else Counter(db0, from, TurnReaders(plan.turn));
    && (forall k | k in Keys(plan) :: Live(db, from, k) ==> Live(db, to, k))
    && SessionShape(db, from, plan.session)
    && TurnShape(db, from, plan.turn)
    && (if HoldsSession(phase) then
          && Get(db, from, SessionOwner(plan.session)) == Some(Text(plan.turn))
          && Counter(db, from, SessionCount(plan.session)) == Counter(db0, from, SessionCount(plan.session)) + 1
          && Get(db0, from, SessionOwner(plan.session)) in {None, Some(Text(plan.turn))}
        else
          && Get(db, from, SessionOwner(plan.session)) == Get(db0, from, SessionOwner(plan.session))
          && Get(db, from, SessionCount(plan.session)) == Get(db0, from, SessionCount(plan.session)))
    && (if phase == Running && plan.kind == Write then
          && Get(db, from, TurnWriter(plan.turn)) == Some(Text(plan.token))
          && Get(db0, from, TurnWriter(plan.turn)) == None
        else Get(db, from, TurnWriter(plan.turn)) == Get(db0, from, TurnWriter(plan.turn)))
    && (phase == Running && plan.kind == Read ==> Tried(evs) && !Live(db0, from, TurnWriter(plan.turn)))
    && Counter(db, from, TurnReaders(plan.turn)) == readers0 + (if phase == Running && plan.kind == Read then 1 else 0)
  }

  lemma SteadyGet(db: Db, from: int, at: int, to: int, k: Key)
    requires from <= at <= to
    requires Live(db, from, k) ==> Live(db, to, k)
    ensures Get(db, at, k) == Get(db, from, k)
  {
  }

  /** The premises that every step of During shares. */
  ghost predicate StepContext(plan: Plan, db0: Db, from: int, to: int, evs: seq<Event>, phase: Phase, e: Event) {
    && Unexpired(plan, db0, from, to)
    && SessionShape(db0, from, plan.session) && TurnShape(db0, from, plan.turn)
    && During(plan, db0, from, to, evs, phase, e.before)
    && e.fate == Replied && from <= e.at <= to
  }

  lemma ReadsSteady(plan: Plan, db0: Db, from: int, to: int, evs: seq<Event>, phase: Phase, e: Event)
    requires StepContext(plan, db0, from, to, evs, phase, e)
    ensures Get(e.before, e.at, SessionOwner(plan.session)) == Get(e.before, from, SessionOwner(plan.session))
    ensures Get(e.before, e.at, SessionCount(plan.session)) == Get(e.before, from, SessionCount(plan.session))
    ensures Get(e.before, e.at, TurnReaders(plan.turn)) == Get(e.before, from, TurnReaders(plan.turn))
    ensures Get(e.before, e.at, TurnWriter(plan.turn)) == Get(e.before, from, TurnWriter(plan.turn))
  {
    assert SessionOwner(plan.session) in Keys(plan) && SessionCount(plan.session) in Keys(plan);
    assert TurnReaders(plan.turn) in Keys(plan) && TurnWriter(plan.turn) in Keys(plan);
  }

  /** A session script leaves the turn's keys alone. */
  lemma SessionScriptFrame(plan: Plan, e: Event)
    requires e.op == plan.Acquire() || e.op == plan.Release() || e.op == plan.Extend()
    ensures forall at: int :: Get(e.After(), at, TurnReaders(plan.turn)) == Get(e.before, at, TurnReaders(plan.turn))
    ensures forall at: int :: Get(e.After(), at, TurnWriter(plan.turn)) == Get(e.before, at, TurnWriter(plan.turn))
  {
    RunFrame(e.before, e.at, e.op, TurnReaders(plan.turn));
    RunFrame(e.before, e.at, e.op, TurnWriter(plan.turn));
  }

  /** A turn script leaves the session's keys alone. */
  lemma TurnScriptFrame(plan: Plan, e: Event)
    requires e.op == plan.Lock() || e.op == plan.Unlock()
    ensures forall at: int ::
      Get(e.After(), at, SessionOwner(plan.session)) == Get(e.before, at, SessionOwner(plan.session))
    ensures forall at: int ::
      Get(e.After(), at, SessionCount(plan.session)) == Get(e.before, at, SessionCount(plan.session))
  {
    RunFrame(e.before, e.at, e.op, SessionOwner(plan.session));
    RunFrame(e.before, e.at, e.op, SessionCount(plan.session));
  }

  lemma TriedSnoc(evs: seq<Event>, e: Event)
    ensures Tried(evs + [e]) <==> Tried(evs) || e.op.ReadLock?
  {
    assert (evs + [e])[..|evs|] == evs;
  }

  lemma DuringAcquire(plan: Plan, db0: Db, from: int, to: int, evs: seq<Event>, e: Event, next: Phase)
    requires StepContext(plan, db0, from, to, evs, WantSession, e) && e.op == plan.Acquire()
    requires Advance(plan, WantSession, e.op, e.Seen()) == Some(next)
    ensures During(plan, db0, from, to, evs + [e], next, e.After())
  {
    TriedSnoc(evs, e);
    ReadsSteady(plan, db0, from, to, evs, WantSession, e);
    SessionScriptFrame(plan, e);
  }

  lemma DuringRelease(plan: Plan, db0: Db, from: int, to: int, evs: seq<Event>, phase: Phase, e: Event)
    requires StepContext(plan, db0, from, to, evs, phase, e) && e.op == plan.Release()
    requires phase in {WantTurn, DropSession}
    ensures During(plan, db0, from, to, evs + [e], Finished, e.After())
  {
    TriedSnoc(evs, e);
    ReadsSteady(plan, db0, from, to, evs, phase, e);
  }

  lemma DuringExtend(plan: Plan, db0: Db, from: int, to: int, evs: seq<Event>, e: Event)
    requires StepContext(plan, db0, from, to, evs, Running, e) && e.op == plan.Extend()
    ensures During(plan, db0, from, to, evs + [e], Running, e.After())
  {
    TriedSnoc(evs, e);
    ReadsSteady(plan, db0, from, to, evs, Running, e);
  }

  lemma DuringLock(plan: Plan, db0: Db, from: int, to: int, evs: seq<Event>, e: Event, next: Phase)
    requires StepContext(plan, db0, from, to, evs, WantTurn, e) && e.op == plan.Lock()
    requires Advance(plan, WantTurn, e.op, e.Seen()) == Some(next)
    ensures During(plan, db0, from, to, evs + [e], next, e.After())
  {
    TriedSnoc(evs, e);
    ReadsSteady(plan, db0, from, to, evs, WantTurn, e);
    TurnScriptFrame(plan, e);
  }

  lemma DuringUnlock(plan: Plan, db0: Db, from: int, to: int, evs: seq<Event>, e: Event)
    requires StepContext(plan, db0, from, to, evs, Running, e) && e.op == plan.Unlock()
    ensures During(plan, db0, from, to, evs + [e], DropSession, e.After())
  {
    TriedSnoc(evs, e);
    ReadsSteady(plan, db0, from, to, evs, Running, e);
  }

  lemma DuringStep(plan: Plan, db0: Db, from: int, to: int, evs: seq<Event>, phase: Phase, e: Event, next: Phase)
    requires StepContext(plan, db0, from, to, evs, phase, e)
    requires Advance(plan, phase, e.op, e.Seen()) == Some(next)
    ensures During(plan, db0, from, to, evs + [e], next, e.After())
  {
    if phase == WantSession {
      DuringAcquire(plan, db0, from, to, evs, e, next);
    } else if e.op == plan.Release() {
      DuringRelease(plan, db0, from, to, evs, phase, e);
    } else if phase == WantTurn {
      DuringLock(plan, db0, from, to, evs, e, next);
    } else if e.op == plan.Extend() {
      DuringExtend(plan, db0, from, to, evs, e);
    } else {
      DuringUnlock(plan, db0, from, to, evs, e);
    }
  }

  /** The four lock keys of a call read at the end as they read at the start, except that the
      reader count changes exactly when the call met a counter of -1. */
  ghost predicate LeavesLocks(plan: Plan, db: Db, from: int, evs: seq<Event>, end: Db, to: int) {
    && Get(end, to, SessionOwner(plan.session)) == Get(db, from, SessionOwner(plan.session))
    && Get(end, to, SessionCount(plan.session)) == Get(db, from, SessionCount(plan.session))
    && Get(end, to, TurnWriter(plan.turn)) == Get(db, from, TurnWriter(plan.turn))
    && (Counter(end, to, TurnReaders(plan.turn)) == Counter(db, from, TurnReaders(plan.turn))
        <==> !Underflows(plan, db, from, evs))
  }

  /** Lock neutrality, exactly. When every script runs and replies, nobody interferes and nothing
      expires, a call that has ended (served, refused or given up in any phase) leaves owner,
      refcount and writer as they were; it leaves the reader count as it was if and only if it
      did not meet a counter of -1. */
  lemma {:induction false} Neutral(plan: Plan, db: Db, from: int, to: int, evs: seq<Event>)
    requires SessionShape(db, from, plan.session) && TurnShape(db, from, plan.turn)
    requires Unexpired(plan, db, from, to) && Undisturbed(db, from, to, evs)
    requires Track(plan, WantSession, evs) in {Some(WantSession), Some(Finished)}
    ensures LeavesLocks(plan, db, from, evs, Last(db, evs), to)
  {
    DuringTrack(plan, db, from, to, evs);
    var end := Last(db, evs);
    forall k | k in Keys(plan) ensures Get(end, to, k) == Get(end, from, k) {
      SteadyGet(end, from, to, to, k);
    }
    assert SessionOwner(plan.session) in Keys(plan) && SessionCount(plan.session) in Keys(plan);
    assert TurnReaders(plan.turn) in Keys(plan) && TurnWriter(plan.turn) in Keys(plan);
  }

  lemma {:induction false} DuringTrack(plan: Plan, db: Db, from: int, to: int, evs: seq<Event>)
    requires SessionShape(db, from, plan.session) && TurnShape(db, from, plan.turn)
    requires Unexpired(plan, db, from, to) && Undisturbed(db, from, to, evs)
    requires Track(plan, WantSession, evs).Some?
    ensures During(plan, db, from, to, evs, Track(plan, WantSession, evs).value, Last(db, evs))
  {
    if evs != [] {
      var n := |evs| - 1;
      var front := evs[..n];
      DuringTrack(plan, db, from, to, front);
      assert evs == front + [evs[n]];
      DuringStep(plan, db, from, to, front, Track(plan, WantSession, front).value, evs[n],
                 Track(plan, WantSession, evs).value);
    }
  }
}
