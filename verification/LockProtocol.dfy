/** Any number of guarded calls interleaving over one Redis: each step lets one call send one
    script of its plan (with the reply, without it, or lost on the way there), give up, or lets
    time pass. Under the lease hypothesis the locks exclude, and the counters count. */
module LockProtocol {
  import opened Wrappers
  import opened Redis
  import opened CallTrace

  /** The lock TTLs of the deployment, in milliseconds. */
  datatype Config = Config(sessionTtl: int, turnTtl: int)

  /** One call: its plan, its phase, and when its two leases were last refreshed. */
  datatype Call = Call(plan: Plan, phase: Phase, sessionAt: int, turnAt: int)

  /** Lost units are counted apart: refcount units and reader units in Redis that no call holds,
      because the reply to the acquiring script or the request to release never arrived. */
  datatype State = State(
    now: int,
    db: Db,
    calls: map<nat, Call>,
    lostRefs: map<string, nat>,
    lostReads: map<string, nat>)

  datatype Step =
    | Arrive(id: nat, plan: Plan)
    | Elapse(nanos: nat)
    | Send(id: nat, op: Op, fate: Fate)
    | GiveUp(id: nat)

  function Lost(m: map<string, nat>, k: string): nat {
    if k in m then m[k] else 0
  }

  predicate Initial(s: State) {
    s.db == map[] && s.calls == map[]
  }

  /** Write tokens are random: two calls never share one. */
  predicate FreshToken(s: State, plan: Plan) {
    forall id | id in s.calls :: s.calls[id].plan.token != plan.token
  }

  predicate Enabled(cfg: Config, s: State, step: Step) {
    match step
    case Arrive(id, plan) =>
      id !in s.calls && plan.sessionTtl == cfg.sessionTtl && plan.turnTtl == cfg.turnTtl && FreshToken(s, plan)
    case Elapse(_) => true
    case Send(id, op, fate) =>
      id in s.calls && Advance(s.calls[id].plan, s.calls[id].phase, op, Observe(s.db, s.now, op, fate).reply).Some?
    case GiveUp(id) => id in s.calls && s.calls[id].phase == WantSession
  }

  function Next(cfg: Config, s: State, step: Step): State
    requires Enabled(cfg, s, step)
  {
    match step
    case Arrive(id, plan) => s.(calls := s.calls[id := Call(plan, WantSession, s.now, s.now)])
    case Elapse(d) => s.(now := s.now + d)
    case GiveUp(id) => s.(calls := s.calls[id := s.calls[id].(phase := Finished)])
    case Send(id, op, fate) =>
      var out := Observe(s.db, s.now, op, fate);
      State(s.now, out.db, s.calls[id := Moved(s, s.calls[id], op, fate)],
            RefsAfter(s, op, fate), ReadsAfter(s, op, fate))
  }

  /** Whether the script ran and did what its name says. */
  predicate TookEffect(s: State, op: Op, fate: Fate) {
    fate != NeverSent && Run(s.db, s.now, op).reply.Some? && Run(s.db, s.now, op).reply.value != 0
  }

  function Moved(s: State, c: Call, op: Op, fate: Fate): Call
    requires Advance(c.plan, c.phase, op, Observe(s.db, s.now, op, fate).reply).Some?
  {
    var phase := Advance(c.plan, c.phase, op, Observe(s.db, s.now, op, fate).reply).value;
    var effect := TookEffect(s, op, fate);
    Call(c.plan, phase,
         if effect && (op.AcquireSession? || op.ExtendSession?) then s.now else c.sessionAt,
         if effect && (op.ReadLock? || op.WriteLock?) then s.now else c.turnAt)
  }

  /** Lost refcount units: a fresh lease starts without any; an acquire whose reply is lost leaves
      one behind, and so does a release that never reaches Redis. */
  function RefsAfter(s: State, op: Op, fate: Fate): map<string, nat> {
    match op
    case AcquireSession(sid, _, _) =>
      if !TookEffect(s, op, fate) then s.lostRefs
      else
        var kept := if Live(s.db, s.now, SessionOwner(sid)) then Lost(s.lostRefs, sid) else 0;
        s.lostRefs[sid := kept + if fate == ReplyLost then 1 else 0]
    case ReleaseSession(sid, _) =>
      if fate == NeverSent then s.lostRefs[sid := Lost(s.lostRefs, sid) + 1] else s.lostRefs
    case _ => s.lostRefs
  }

  function ReadsAfter(s: State, op: Op, fate: Fate): map<string, nat> {
    match op
    case ReadLock(t, _) =>
      if !TookEffect(s, op, fate) then s.lostReads
      else
        var kept := if Live(s.db, s.now, TurnReaders(t)) then Lost(s.lostReads, t) else 0;
        s.lostReads[t := kept + if fate == ReplyLost then 1 else 0]
    case ReadUnlock(t) =>
      if fate == NeverSent then s.lostReads[t := Lost(s.lostReads, t) + 1] else s.lostReads
    case _ => s.lostReads
  }

  // ---------- who is inside ----------

  predicate InSession(c: Call, sid: string) {
    HoldsSession(c.phase) && c.plan.session == sid
  }

  predicate InTurn(c: Call, t: string, kind: Class) {
    c.phase == Running && c.plan.turn == t && c.plan.kind == kind
  }

  function Holders(calls: map<nat, Call>, sid: string): set<nat> {
    set id | id in calls && InSession(calls[id], sid)
  }

  function Insiders(calls: map<nat, Call>, t: string, kind: Class): set<nat> {
    set id | id in calls && InTurn(calls[id], t, kind)
  }

  /** No call stays inside this session past its last refresh plus the TTL. */
  predicate SessionLeased(cfg: Config, s: State, sid: string) {
    forall id | id in s.calls && InSession(s.calls[id], sid) ::
      s.now < s.calls[id].sessionAt + cfg.sessionTtl * NANOS_PER_MILLI
  }

  /** No call stays inside this turn past its last refresh plus the TTL. */
  predicate TurnLeased(cfg: Config, s: State, t: string) {
    forall id | id in s.calls && s.calls[id].phase == Running && s.calls[id].plan.turn == t ::
      s.now < s.calls[id].turnAt + cfg.turnTtl * NANOS_PER_MILLI
  }

  /** No call stays inside any session or turn that long. */
  predicate LeaseHolds(cfg: Config, s: State) {
    forall id | id in s.calls ::
      && (HoldsSession(s.calls[id].phase) ==> s.now < s.calls[id].sessionAt + cfg.sessionTtl * NANOS_PER_MILLI)
      && (s.calls[id].phase == Running ==> s.now < s.calls[id].turnAt + cfg.turnTtl * NANOS_PER_MILLI)
  }

  // ---------- the invariant ----------

  predicate CallsOk(cfg: Config, s: State) {
    forall id | id in s.calls ::
      && s.calls[id].plan.sessionTtl == cfg.sessionTtl && s.calls[id].plan.turnTtl == cfg.turnTtl
      && s.calls[id].sessionAt <= s.now && s.calls[id].turnAt <= s.now
  }

  predicate TokensDistinct(s: State) {
    forall i, j | i in s.calls && j in s.calls && i != j :: s.calls[i].plan.token != s.calls[j].plan.token
  }

  /** The lease of one session: owner and refcount share a deadline beyond every holder's refresh
      plus the TTL, the owner is the turn of every holder, and the refcount counts the holders and
      the lost units; without a lease nobody is inside. */
  predicate SessionOk(cfg: Config, s: State, sid: string) {
    var inside := Holders(s.calls, sid);
    if Live(s.db, s.now, SessionOwner(sid)) then
      && var owner, count := s.db[SessionOwner(sid)], Get(s.db, s.now, SessionCount(sid));
      && owner.value.Text? && owner.deadline.At?
      && count == Some(Num(|inside| + Lost(s.lostRefs, sid)))
      && s.db[SessionCount(sid)].deadline == owner.deadline
      && |inside| + Lost(s.lostRefs, sid) >= 1
      && forall id | id in inside ::
           && s.calls[id].plan.turn == owner.value.text
           && s.calls[id].sessionAt + cfg.sessionTtl * NANOS_PER_MILLI <= owner.deadline.ns
    else
      inside == {} && !Live(s.db, s.now, SessionCount(sid))
  }

  predicate ReadersOk(cfg: Config, s: State, t: string) {
    var inside := Insiders(s.calls, t, Read);
    if Live(s.db, s.now, TurnReaders(t)) then
      && var e := s.db[TurnReaders(t)];
      && e.value == Num(|inside| + Lost(s.lostReads, t))
      && e.deadline.At?
      && forall id | id in inside :: s.calls[id].turnAt + cfg.turnTtl * NANOS_PER_MILLI <= e.deadline.ns
    else inside == {}
  }

  predicate WriterOk(cfg: Config, s: State, t: string) {
    var inside := Insiders(s.calls, t, Write);
    if Live(s.db, s.now, TurnWriter(t)) then
      && var e := s.db[TurnWriter(t)];
      && e.value.Text? && e.deadline.At?
      && Counter(s.db, s.now, TurnReaders(t)) == 0
      && forall id | id in inside ::
           && s.calls[id].plan.token == e.value.text
           && s.calls[id].turnAt + cfg.turnTtl * NANOS_PER_MILLI <= e.deadline.ns
    else inside == {}
  }

  ghost predicate Inv(cfg: Config, s: State) {
    && CallsOk(cfg, s)
    && TokensDistinct(s)
    && (forall sid: string :: SessionOk(cfg, s, sid))
    && (forall t: string :: ReadersOk(cfg, s, t))
    && (forall t: string :: WriterOk(cfg, s, t))
  }

  // ---------- preservation ----------

  lemma HoldersUpdate(calls: map<nat, Call>, id: nat, c: Call, sid: string)
    ensures Holders(calls[id := c], sid) ==
            if InSession(c, sid) then Holders(calls, sid) + {id} else Holders(calls, sid) - {id}
  {
  }

  lemma InsidersUpdate(calls: map<nat, Call>, id: nat, c: Call, t: string, kind: Class)
    ensures Insiders(calls[id := c], t, kind) ==
            if InTurn(c, t, kind) then Insiders(calls, t, kind) + {id} else Insiders(calls, t, kind) - {id}
  {
  }

  /** With a TTL that is not positive the lease hypothesis keeps everybody out. */
  lemma NoHoldersWithoutTtl(cfg: Config, s: State, sid: string)
    requires CallsOk(cfg, s) && SessionLeased(cfg, s, sid) && cfg.sessionTtl <= 0
    ensures Holders(s.calls, sid) == {}
  {
    forall id | id in Holders(s.calls, sid) ensures false {
      SessionLeaseOf(cfg, s, id);
    }
  }

  lemma NoInsidersWithoutTtl(cfg: Config, s: State, t: string, kind: Class)
    requires CallsOk(cfg, s) && TurnLeased(cfg, s, t) && cfg.turnTtl <= 0
    ensures Insiders(s.calls, t, kind) == {}
  {
    forall id | id in Insiders(s.calls, t, kind) ensures false {
      TurnLeaseOf(cfg, s, id);
    }
  }

  lemma SomeoneInside(s: State, id: nat, t: string, kind: Class)
    requires id in s.calls && InTurn(s.calls[id], t, kind)
    ensures id in Insiders(s.calls, t, kind) && |Insiders(s.calls, t, kind)| >= 1
  {
    assert id in Insiders(s.calls, t, kind);
  }

  lemma LeaseOf(cfg: Config, s: State, id: nat)
    requires CallsOk(cfg, s) && LeaseHolds(cfg, s) && id in s.calls
    ensures HoldsSession(s.calls[id].phase) ==>
              s.calls[id].sessionAt <= s.now < s.calls[id].sessionAt + cfg.sessionTtl * NANOS_PER_MILLI
    ensures s.calls[id].phase == Running ==>
              s.calls[id].turnAt <= s.now < s.calls[id].turnAt + cfg.turnTtl * NANOS_PER_MILLI
  {
  }

  lemma SessionLeaseOf(cfg: Config, s: State, id: nat)
    requires CallsOk(cfg, s) && id in s.calls && HoldsSession(s.calls[id].phase)
    requires SessionLeased(cfg, s, s.calls[id].plan.session)
    ensures s.calls[id].sessionAt <= s.now < s.calls[id].sessionAt + cfg.sessionTtl * NANOS_PER_MILLI
  {
  }

  lemma TurnLeaseOf(cfg: Config, s: State, id: nat)
    requires CallsOk(cfg, s) && id in s.calls && s.calls[id].phase == Running
    requires TurnLeased(cfg, s, s.calls[id].plan.turn)
    ensures s.calls[id].turnAt <= s.now < s.calls[id].turnAt + cfg.turnTtl * NANOS_PER_MILLI
  {
  }

  /** The keys of a session and the calls inside it are as before. */
  predicate SessionUntouched(s: State, s': State, sid: string) {
    && s'.now == s.now
    && (SessionOwner(sid) in s'.db <==> SessionOwner(sid) in s.db)
    && (SessionOwner(sid) in s.db ==> s'.db[SessionOwner(sid)] == s.db[SessionOwner(sid)])
    && (SessionCount(sid) in s'.db <==> SessionCount(sid) in s.db)
    && (SessionCount(sid) in s.db ==> s'.db[SessionCount(sid)] == s.db[SessionCount(sid)])
    && Holders(s'.calls, sid) == Holders(s.calls, sid)
    && Lost(s'.lostRefs, sid) == Lost(s.lostRefs, sid)
    && forall id | id in Holders(s.calls, sid) ::
         s'.calls[id].plan == s.calls[id].plan && s'.calls[id].sessionAt == s.calls[id].sessionAt
  }

  lemma SessionUntouchedOk(cfg: Config, s: State, s': State, sid: string)
    requires SessionOk(cfg, s, sid) && SessionUntouched(s, s', sid)
    ensures SessionOk(cfg, s', sid)
  {
  }

  predicate TurnUntouched(s: State, s': State, k: Key, t: string, kind: Class) {
    && s'.now == s.now
    && (k in s'.db <==> k in s.db)
    && (k in s.db ==> s'.db[k] == s.db[k])
    && Insiders(s'.calls, t, kind) == Insiders(s.calls, t, kind)
    && (kind == Read ==> Lost(s'.lostReads, t) == Lost(s.lostReads, t))
    && forall id | id in Insiders(s.calls, t, kind) ::
         s'.calls[id].plan == s.calls[id].plan && s'.calls[id].turnAt == s.calls[id].turnAt
  }

  lemma ReadersUntouchedOk(cfg: Config, s: State, s': State, t: string)
    requires ReadersOk(cfg, s, t) && TurnUntouched(s, s', TurnReaders(t), t, Read)
    ensures ReadersOk(cfg, s', t)
  {
  }

  /** The five things a call can send. */
  lemma SendShape(cfg: Config, s: State, id: nat, op: Op, fate: Fate)
    requires Enabled(cfg, s, Send(id, op, fate))
    ensures var c := s.calls[id];
            || (c.phase == WantSession && op == c.plan.Acquire())
            || (c.phase in {WantTurn, DropSession} && op == c.plan.Release())
            || (c.phase == WantTurn && op == c.plan.Lock())
            || (c.phase == Running && op == c.plan.Extend())
            || (c.phase == Running && op == c.plan.Unlock())
  {
  }

  /** A send changes no key outside the script's footprint. */
  lemma SendFrame(cfg: Config, s: State, id: nat, op: Op, fate: Fate, k: Key)
    requires Enabled(cfg, s, Send(id, op, fate)) && k !in Footprint(op)
    ensures var s' := Next(cfg, s, Send(id, op, fate));
            (k in s'.db <==> k in s.db) && (k in s.db ==> s'.db[k] == s.db[k])
  {
    RunFrame(s.db, s.now, op, k);
  }

  lemma SessionKept(cfg: Config, s: State, step: Step, sid: string)
    requires Enabled(cfg, s, step)
    requires CallsOk(cfg, s) && SessionOk(cfg, s, sid)
    requires SessionLeased(cfg, s, sid) && SessionLeased(cfg, Next(cfg, s, step), sid)
    ensures SessionOk(cfg, Next(cfg, s, step), sid)
  {
    var s' := Next(cfg, s, step);
    CallsKept(cfg, s, step);
    match step {
      case Arrive(id, plan) =>
        OutsideUpdate(s, s', id, s'.calls[id], sid);
        SessionUntouchedOk(cfg, s, s', sid);
      case Elapse(d) =>
        SessionElapse(cfg, s, d, sid);
      case GiveUp(id) =>
        OutsideUpdate(s, s', id, s'.calls[id], sid);
        SessionUntouchedOk(cfg, s, s', sid);
      case Send(id, op, fate) =>
        SessionSend(cfg, s, id, op, fate, sid);
    }
  }

  lemma SessionSend(cfg: Config, s: State, id: nat, op: Op, fate: Fate, sid: string)
    requires Enabled(cfg, s, Send(id, op, fate))
    requires CallsOk(cfg, s) && SessionOk(cfg, s, sid) && CallsOk(cfg, Next(cfg, s, Send(id, op, fate)))
    requires SessionLeased(cfg, s, sid) && SessionLeased(cfg, Next(cfg, s, Send(id, op, fate)), sid)
    ensures SessionOk(cfg, Next(cfg, s, Send(id, op, fate)), sid)
  {
    SendShape(cfg, s, id, op, fate);
    if s.calls[id].plan.session != sid || !(op.AcquireSession? || op.ReleaseSession? || op.ExtendSession?) {
      SessionOther(cfg, s, id, op, fate, sid);
    } else if op.AcquireSession? {
      SessionAcquire(cfg, s, id, op, fate);
    } else if op.ReleaseSession? {
      SessionRelease(cfg, s, id, op, fate);
    } else {
      SessionExtend(cfg, s, id, op, fate);
    }
  }

  lemma SessionElapse(cfg: Config, s: State, d: nat, sid: string)
    requires CallsOk(cfg, s) && SessionOk(cfg, s, sid) && SessionLeased(cfg, s.(now := s.now + d), sid)
    ensures SessionOk(cfg, s.(now := s.now + d), sid)
  {
    var s' := s.(now := s.now + d);
    if Live(s.db, s.now, SessionOwner(sid)) && !Live(s'.db, s'.now, SessionOwner(sid)) {
      forall id | id in Holders(s.calls, sid) ensures false {
        SessionLeaseOf(cfg, s', id);
      }
    }
  }

  lemma SessionOther(cfg: Config, s: State, id: nat, op: Op, fate: Fate, sid: string)
    requires Enabled(cfg, s, Send(id, op, fate)) && SessionOk(cfg, s, sid)
    requires s.calls[id].plan.session != sid || !(op.AcquireSession? || op.ReleaseSession? || op.ExtendSession?)
    ensures SessionOk(cfg, Next(cfg, s, Send(id, op, fate)), sid)
  {
    var s' := Next(cfg, s, Send(id, op, fate));
    SendShape(cfg, s, id, op, fate);
    SessionOtherFrame(cfg, s, id, op, fate, sid);
    SessionUntouchedOk(cfg, s, s', sid);
  }

  lemma SessionOtherFrame(cfg: Config, s: State, id: nat, op: Op, fate: Fate, sid: string)
    requires Enabled(cfg, s, Send(id, op, fate))
    requires s.calls[id].plan.session != sid || !(op.AcquireSession? || op.ReleaseSession? || op.ExtendSession?)
    ensures SessionUntouched(s, Next(cfg, s, Send(id, op, fate)), sid)
  {
    var s' := Next(cfg, s, Send(id, op, fate));
    SendShape(cfg, s, id, op, fate);
    HoldersUpdate(s.calls, id, s'.calls[id], sid);
    assert SessionOwner(sid) !in Footprint(op) && SessionCount(sid) !in Footprint(op);
    SendFrame(cfg, s, id, op, fate, SessionOwner(sid));
    SendFrame(cfg, s, id, op, fate, SessionCount(sid));
    var c, c' := s.calls[id], s'.calls[id];
    assert c'.plan == c.plan;
    assert InSession(c', sid) <==> InSession(c, sid);
    assert Holders(s'.calls, sid) == Holders(s.calls, sid);
    assert InSession(c, sid) ==> c'.sessionAt == c.sessionAt;
  }

  /** What a successful acquire writes. */
  lemma AcquireWrites(db: Db, now: int, s: string, t: string, ttl: int)
    requires RunAcquire(db, now, s, t, ttl).reply == Some(1) && ttl > 0
    requires Get(db, now, SessionOwner(s)) != None ==> Get(db, now, SessionCount(s)).Some?
    ensures var db' := RunAcquire(db, now, s, t, ttl).db;
            && SessionOwner(s) in db' && db'[SessionOwner(s)] == Leased(Text(t), now, ttl)
            && SessionCount(s) in db'
            && db'[SessionCount(s)] ==
                 Leased(Num(if Live(db, now, SessionOwner(s)) then Counter(db, now, SessionCount(s)) + 1 else 1),
                        now, ttl)
    ensures Get(db, now, SessionOwner(s)) in {None, Some(Text(t))}
  {
  }

  lemma SessionAcquire(cfg: Config, s: State, id: nat, op: Op, fate: Fate)
    requires Enabled(cfg, s, Send(id, op, fate)) && op == s.calls[id].plan.Acquire() && s.calls[id].phase == WantSession
    requires CallsOk(cfg, s) && SessionOk(cfg, s, s.calls[id].plan.session)
    requires SessionLeased(cfg, Next(cfg, s, Send(id, op, fate)), s.calls[id].plan.session)
    requires CallsOk(cfg, Next(cfg, s, Send(id, op, fate)))
    ensures SessionOk(cfg, Next(cfg, s, Send(id, op, fate)), s.calls[id].plan.session)
  {
    var s' := Next(cfg, s, Send(id, op, fate));
    var sid := s.calls[id].plan.session;
    if !TookEffect(s, op, fate) {
      SessionNotEntered(cfg, s, id, op, fate);
    } else if cfg.sessionTtl <= 0 {
      NoHoldersWithoutTtl(cfg, s', sid);
      AcquireWithoutTtl(cfg, s, id, op, fate);
    } else {
      EnteredParts(cfg, s, id, op, fate);
      SessionEntered(cfg, s, s', id, s'.calls[id], fate);
    }
  }

  lemma SessionNotEntered(cfg: Config, s: State, id: nat, op: Op, fate: Fate)
    requires Enabled(cfg, s, Send(id, op, fate)) && op == s.calls[id].plan.Acquire() && s.calls[id].phase == WantSession
    requires SessionOk(cfg, s, s.calls[id].plan.session) && !TookEffect(s, op, fate)
    ensures SessionOk(cfg, Next(cfg, s, Send(id, op, fate)), s.calls[id].plan.session)
  {
    var s' := Next(cfg, s, Send(id, op, fate));
    var c, c', sid := s.calls[id], s'.calls[id], s.calls[id].plan.session;
    if fate != NeverSent {
      RefusedAcquire(s.db, s.now, sid, c.plan.turn, c.plan.sessionTtl);
    }
    assert s'.db == s.db && s'.lostRefs == s.lostRefs;
    OutsideUpdate(s, s', id, c', sid);
    SessionUntouchedOk(cfg, s, s', sid);
  }

  lemma RefusedAcquire(db: Db, now: int, s: string, t: string, ttl: int)
    requires RunAcquire(db, now, s, t, ttl).reply in {None, Some(0)}
    ensures RunAcquire(db, now, s, t, ttl).db == db
  {
  }

  /** A call that stays outside a session does not disturb it. */
  lemma OutsideUpdate(s: State, s': State, id: nat, c': Call, sid: string)
    requires id in s.calls ==> !InSession(s.calls[id], sid)
    requires !InSession(c', sid)
    requires s'.calls == s.calls[id := c'] && s'.db == s.db && s'.now == s.now && s'.lostRefs == s.lostRefs
    ensures SessionUntouched(s, s', sid)
  {
    HoldersUpdate(s.calls, id, c', sid);
    assert id !in Holders(s.calls, sid);
  }

  lemma AcquireWithoutTtl(cfg: Config, s: State, id: nat, op: Op, fate: Fate)
    requires Enabled(cfg, s, Send(id, op, fate)) && op == s.calls[id].plan.Acquire() && s.calls[id].phase == WantSession
    requires CallsOk(cfg, s) && SessionOk(cfg, s, s.calls[id].plan.session)
    requires cfg.sessionTtl <= 0 && TookEffect(s, op, fate)
    ensures var s', sid := Next(cfg, s, Send(id, op, fate)), s.calls[id].plan.session;
            !Live(s'.db, s'.now, SessionOwner(sid)) && !Live(s'.db, s'.now, SessionCount(sid))
  {
  }

  /** The parts of the state that an effective acquire changes. */
  lemma EnteredParts(cfg: Config, s: State, id: nat, op: Op, fate: Fate)
    requires Enabled(cfg, s, Send(id, op, fate)) && op == s.calls[id].plan.Acquire() && s.calls[id].phase == WantSession
    requires TookEffect(s, op, fate) && s.calls[id].plan.sessionTtl > 0
    requires SessionOk(cfg, s, s.calls[id].plan.session)
    ensures var s', c, sid := Next(cfg, s, Send(id, op, fate)), s.calls[id], s.calls[id].plan.session;
            && s'.now == s.now && s'.calls == s.calls[id := s'.calls[id]]
            && WrittenByAcquire(s, s', c)
            && s'.calls[id].plan == c.plan && s'.calls[id].sessionAt == s.now
            && (HoldsSession(s'.calls[id].phase) <==> fate == Replied) && fate != NeverSent
            && Lost(s'.lostRefs, sid) == (if Live(s.db, s.now, SessionOwner(sid)) then Lost(s.lostRefs, sid) else 0)
                                         + (if fate == ReplyLost then 1 else 0)
  {
    var c := s.calls[id];
    AcquireWrites(s.db, s.now, c.plan.session, c.plan.turn, c.plan.sessionTtl);
  }

  predicate WrittenByAcquire(s: State, s': State, c: Call) {
    var owner, count, ttl := SessionOwner(c.plan.session), SessionCount(c.plan.session), c.plan.sessionTtl;
    && Get(s.db, s.now, owner) in {None, Some(Text(c.plan.turn))}
    && owner in s'.db && s'.db[owner] == Leased(Text(c.plan.turn), s.now, ttl)
    && count in s'.db
    && s'.db[count] == Leased(Num(if Live(s.db, s.now, owner) then Counter(s.db, s.now, count) + 1 else 1), s.now, ttl)
  }

  lemma EnteredSize(cfg: Config, s: State, s': State, id: nat, c': Call, fate: Fate)
    requires id in s.calls && s.calls[id].phase == WantSession && s.calls[id].plan.sessionTtl == cfg.sessionTtl > 0
    requires SessionOk(cfg, s, s.calls[id].plan.session)
    requires forall i | i in Holders(s.calls, s.calls[id].plan.session) :: s.calls[i].sessionAt <= s.now
    requires var c, sid := s.calls[id], s.calls[id].plan.session;
             && s'.now == s.now && s'.calls == s.calls[id := c']
             && WrittenByAcquire(s, s', c)
             && c'.plan == c.plan && c'.sessionAt == s.now
             && (HoldsSession(c'.phase) <==> fate == Replied) && fate != NeverSent
             && Lost(s'.lostRefs, sid) == (if Live(s.db, s.now, SessionOwner(sid)) then Lost(s.lostRefs, sid) else 0)
                                          + (if fate == ReplyLost then 1 else 0)
    ensures var c, sid := s.calls[id], s.calls[id].plan.session;
            var count :=
              if Live(s.db, s.now, SessionOwner(sid)) then Counter(s.db, s.now, SessionCount(sid)) + 1 else 1;
            && |Holders(s'.calls, sid)| + Lost(s'.lostRefs, sid) == count >= 1
            && forall i | i in Holders(s'.calls, sid) ::
                 s'.calls[i].plan.turn == c.plan.turn && s'.calls[i].sessionAt <= s.now
  {
    var sid := s.calls[id].plan.session;
    HoldersUpdate(s.calls, id, c', sid);
    var inside, inside' := Holders(s.calls, sid), Holders(s'.calls, sid);
    assert id !in inside;
    assert inside' == (if fate == Replied then inside + {id} else inside);
    forall i | i in inside' ensures s'.calls[i].plan.turn == s.calls[id].plan.turn && s'.calls[i].sessionAt <= s.now {
      assert i == id || i in inside;
    }
  }

  lemma SessionEntered(cfg: Config, s: State, s': State, id: nat, c': Call, fate: Fate)
    requires id in s.calls && s.calls[id].phase == WantSession && s.calls[id].plan.sessionTtl == cfg.sessionTtl > 0
    requires SessionOk(cfg, s, s.calls[id].plan.session)
    requires forall i | i in Holders(s.calls, s.calls[id].plan.session) :: s.calls[i].sessionAt <= s.now
    requires var c, sid := s.calls[id], s.calls[id].plan.session;
             && s'.now == s.now && s'.calls == s.calls[id := c']
             && WrittenByAcquire(s, s', c)
             && c'.plan == c.plan && c'.sessionAt == s.now
             && (HoldsSession(c'.phase) <==> fate == Replied) && fate != NeverSent
             && Lost(s'.lostRefs, sid) == (if Live(s.db, s.now, SessionOwner(sid)) then Lost(s.lostRefs, sid) else 0)
                                          + (if fate == ReplyLost then 1 else 0)
    ensures SessionOk(cfg, s', s.calls[id].plan.session)
  {
    EnteredSize(cfg, s, s', id, c', fate);
    EnteredOk(cfg, s, s', s.calls[id]);
  }

  lemma EnteredOk(cfg: Config, s: State, s': State, c: Call)
    requires WrittenByAcquire(s, s', c) && s'.now == s.now && c.plan.sessionTtl == cfg.sessionTtl > 0
    requires var sid := c.plan.session;
             var count :=
               if Live(s.db, s.now, SessionOwner(sid)) then Counter(s.db, s.now, SessionCount(sid)) + 1 else 1;
             && |Holders(s'.calls, sid)| + Lost(s'.lostRefs, sid) == count >= 1
             && forall i | i in Holders(s'.calls, sid) ::
                  s'.calls[i].plan.turn == c.plan.turn && s'.calls[i].sessionAt <= s.now
    ensures SessionOk(cfg, s', c.plan.session)
  {
  }

  lemma SessionRelease(cfg: Config, s: State, id: nat, op: Op, fate: Fate)
    requires Enabled(cfg, s, Send(id, op, fate)) && op == s.calls[id].plan.Release() && HoldsSession(s.calls[id].phase)
    requires CallsOk(cfg, s) && SessionOk(cfg, s, s.calls[id].plan.session)
    requires SessionLeased(cfg, s, s.calls[id].plan.session)
    ensures SessionOk(cfg, Next(cfg, s, Send(id, op, fate)), s.calls[id].plan.session)
  {
    var s' := Next(cfg, s, Send(id, op, fate));
    var sid := s.calls[id].plan.session;
    HoldersUpdate(s.calls, id, s'.calls[id], sid);
    assert id in Holders(s.calls, sid);
    SessionLeaseOf(cfg, s, id);
    var left := Holders(s.calls, sid) - {id};
    assert |left| == |Holders(s.calls, sid)| - 1;
    assert Holders(s'.calls, sid) == left;
    if |left| == 0 {
      assert left == {};
    }
  }

  lemma SessionExtend(cfg: Config, s: State, id: nat, op: Op, fate: Fate)
    requires Enabled(cfg, s, Send(id, op, fate)) && op == s.calls[id].plan.Extend() && s.calls[id].phase == Running
    requires CallsOk(cfg, s) && SessionOk(cfg, s, s.calls[id].plan.session)
    requires SessionLeased(cfg, s, s.calls[id].plan.session)
    ensures SessionOk(cfg, Next(cfg, s, Send(id, op, fate)), s.calls[id].plan.session)
  {
    var s' := Next(cfg, s, Send(id, op, fate));
    var sid := s.calls[id].plan.session;
    HoldersUpdate(s.calls, id, s'.calls[id], sid);
    assert id in Holders(s.calls, sid) && Holders(s'.calls, sid) == Holders(s.calls, sid);
    SessionLeaseOf(cfg, s, id);
  }

  lemma ReadersKept(cfg: Config, s: State, step: Step, t: string)
    requires Enabled(cfg, s, step)
    requires CallsOk(cfg, s) && ReadersOk(cfg, s, t)
    requires TurnLeased(cfg, s, t) && TurnLeased(cfg, Next(cfg, s, step), t)
    ensures ReadersOk(cfg, Next(cfg, s, step), t)
  {
    hide Run, Observe, Advance;
    var s' := Next(cfg, s, step);
    CallsKept(cfg, s, step);
    match step {
      case Arrive(id, plan) =>
        InsidersUpdate(s.calls, id, s'.calls[id], t, Read);
        ReadersUntouchedOk(cfg, s, s', t);
      case Elapse(d) =>
        ReadersElapse(cfg, s, d, t);
      case GiveUp(id) =>
        InsidersUpdate(s.calls, id, s'.calls[id], t, Read);
        ReadersUntouchedOk(cfg, s, s', t);
      case Send(id, op, fate) =>
        ReadersSend(cfg, s, id, op, fate, t);
    }
  }

  lemma ReadersSend(cfg: Config, s: State, id: nat, op: Op, fate: Fate, t: string)
    requires Enabled(cfg, s, Send(id, op, fate))
    requires CallsOk(cfg, s) && ReadersOk(cfg, s, t) && CallsOk(cfg, Next(cfg, s, Send(id, op, fate)))
    requires TurnLeased(cfg, s, t) && TurnLeased(cfg, Next(cfg, s, Send(id, op, fate)), t)
    ensures ReadersOk(cfg, Next(cfg, s, Send(id, op, fate)), t)
  {
    SendShape(cfg, s, id, op, fate);
    if s.calls[id].plan.turn != t || !(op.ReadLock? || op.ReadUnlock?) {
      TurnOtherFrame(cfg, s, id, op, fate, t, Read);
      ReadersUntouchedOk(cfg, s, Next(cfg, s, Send(id, op, fate)), t);
    } else if op.ReadLock? {
      ReadersLock(cfg, s, id, op, fate);
    } else {
      ReadersUnlock(cfg, s, id, op, fate);
    }
  }

  /** The key that counts the insiders of a kind. */
  function TurnKey(t: string, kind: Class): Key {
    if kind == Read then TurnReaders(t) else TurnWriter(t)
  }

  lemma TurnOtherFrame(cfg: Config, s: State, id: nat, op: Op, fate: Fate, t: string, kind: Class)
    requires Enabled(cfg, s, Send(id, op, fate))
    requires s.calls[id].plan.turn != t
             || (if kind == Read then !(op.ReadLock? || op.ReadUnlock?) else !(op.WriteLock? || op.WriteUnlock?))
    ensures TurnUntouched(s, Next(cfg, s, Send(id, op, fate)), TurnKey(t, kind), t, kind)
  {
    var s' := Next(cfg, s, Send(id, op, fate));
    SendShape(cfg, s, id, op, fate);
    InsidersUpdate(s.calls, id, s'.calls[id], t, kind);
    assert TurnKey(t, kind) !in Footprint(op);
    SendFrame(cfg, s, id, op, fate, TurnKey(t, kind));
    var c, c' := s.calls[id], s'.calls[id];
    assert c'.plan == c.plan;
    assert InTurn(c', t, kind) <==> InTurn(c, t, kind);
    assert Insiders(s'.calls, t, kind) == Insiders(s.calls, t, kind);
    assert InTurn(c, t, kind) ==> c'.turnAt == c.turnAt;
  }

  lemma ReadersElapse(cfg: Config, s: State, d: nat, t: string)
    requires CallsOk(cfg, s) && ReadersOk(cfg, s, t) && TurnLeased(cfg, s.(now := s.now + d), t)
    ensures ReadersOk(cfg, s.(now := s.now + d), t)
  {
    var s' := s.(now := s.now + d);
    if Live(s.db, s.now, TurnReaders(t)) && !Live(s'.db, s'.now, TurnReaders(t)) {
      forall id | id in Insiders(s.calls, t, Read) ensures false {
        TurnLeaseOf(cfg, s', id);
      }
    }
  }

  lemma ReadersLock(cfg: Config, s: State, id: nat, op: Op, fate: Fate)
    requires Enabled(cfg, s, Send(id, op, fate)) && op == s.calls[id].plan.Lock() && op.ReadLock?
      && s.calls[id].phase == WantTurn
    requires CallsOk(cfg, s) && ReadersOk(cfg, s, s.calls[id].plan.turn)
    requires TurnLeased(cfg, Next(cfg, s, Send(id, op, fate)), s.calls[id].plan.turn)
    requires CallsOk(cfg, Next(cfg, s, Send(id, op, fate)))
    ensures ReadersOk(cfg, Next(cfg, s, Send(id, op, fate)), s.calls[id].plan.turn)
  {
    var s' := Next(cfg, s, Send(id, op, fate));
    var t := s.calls[id].plan.turn;
    if !TookEffect(s, op, fate) {
      ReadersNotEntered(cfg, s, id, op, fate);
    } else if cfg.turnTtl <= 0 {
      NoInsidersWithoutTtl(cfg, s', t, Read);
      assert !Live(s'.db, s'.now, TurnReaders(t));
    } else {
      ReadParts(cfg, s, id, op, fate);
      ReadersEntered(cfg, s, s', id, s'.calls[id], fate);
    }
  }

  lemma ReadersNotEntered(cfg: Config, s: State, id: nat, op: Op, fate: Fate)
    requires Enabled(cfg, s, Send(id, op, fate)) && op == s.calls[id].plan.Lock() && op.ReadLock?
      && s.calls[id].phase == WantTurn
    requires ReadersOk(cfg, s, s.calls[id].plan.turn) && !TookEffect(s, op, fate)
    ensures ReadersOk(cfg, Next(cfg, s, Send(id, op, fate)), s.calls[id].plan.turn)
  {
    var s' := Next(cfg, s, Send(id, op, fate));
    var c', t := s'.calls[id], s.calls[id].plan.turn;
    assert s'.db == s.db && s'.lostReads == s.lostReads;
    InsidersUpdate(s.calls, id, c', t, Read);
    assert !InTurn(s.calls[id], t, Read) && !InTurn(c', t, Read);
    assert TurnUntouched(s, s', TurnReaders(t), t, Read);
    ReadersUntouchedOk(cfg, s, s', t);
  }

  lemma ReadParts(cfg: Config, s: State, id: nat, op: Op, fate: Fate)
    requires Enabled(cfg, s, Send(id, op, fate)) && op == s.calls[id].plan.Lock() && op.ReadLock?
      && s.calls[id].phase == WantTurn
    requires TookEffect(s, op, fate)
    requires ReadersOk(cfg, s, s.calls[id].plan.turn) && s.calls[id].plan.turnTtl > 0
    ensures var s', c, t := Next(cfg, s, Send(id, op, fate)), s.calls[id], s.calls[id].plan.turn;
            && s'.now == s.now && s'.calls == s.calls[id := s'.calls[id]]
            && TurnReaders(t) in s'.db
            && s'.db[TurnReaders(t)] == Leased(Num(Counter(s.db, s.now, TurnReaders(t)) + 1), s.now, c.plan.turnTtl)
            && s'.calls[id].plan == c.plan && s'.calls[id].turnAt == s.now
            && (s'.calls[id].phase == Running <==> fate == Replied) && fate != NeverSent
            && Lost(s'.lostReads, t) == (if Live(s.db, s.now, TurnReaders(t)) then Lost(s.lostReads, t) else 0)
                                        + (if fate == ReplyLost then 1 else 0)
  {
  }

  lemma ReadersEntered(cfg: Config, s: State, s': State, id: nat, c': Call, fate: Fate)
    requires id in s.calls && s.calls[id].phase == WantTurn && s.calls[id].plan.kind == Read && cfg.turnTtl > 0
    requires ReadersOk(cfg, s, s.calls[id].plan.turn)
    requires forall i | i in Insiders(s.calls, s.calls[id].plan.turn, Read) :: s.calls[i].turnAt <= s.now
    requires var c, t := s.calls[id], s.calls[id].plan.turn;
             && s'.now == s.now && s'.calls == s.calls[id := c']
             && TurnReaders(t) in s'.db
             && s'.db[TurnReaders(t)] == Leased(Num(Counter(s.db, s.now, TurnReaders(t)) + 1), s.now, cfg.turnTtl)
             && c'.plan == c.plan && c'.turnAt == s.now
             && (c'.phase == Running <==> fate == Replied) && fate != NeverSent
             && Lost(s'.lostReads, t) == (if Live(s.db, s.now, TurnReaders(t)) then Lost(s.lostReads, t) else 0)
                                         + (if fate == ReplyLost then 1 else 0)
    ensures ReadersOk(cfg, s', s.calls[id].plan.turn)
  {
    var t := s.calls[id].plan.turn;
    InsidersUpdate(s.calls, id, c', t, Read);
    var inside := Insiders(s.calls, t, Read);
    assert id !in inside;
    var inside' := Insiders(s'.calls, t, Read);
    assert |inside'| == |inside| + (if fate == Replied then 1 else 0) by {
      assert inside' == (if fate == Replied then inside + {id} else inside);
    }
    forall i | i in inside' ensures s'.calls[i].turnAt <= s.now {
      assert i == id || i in inside;
    }
  }

  lemma ReadersUnlock(cfg: Config, s: State, id: nat, op: Op, fate: Fate)
    requires Enabled(cfg, s, Send(id, op, fate)) && op == s.calls[id].plan.Unlock() && op.ReadUnlock?
      && s.calls[id].phase == Running
    requires CallsOk(cfg, s) && ReadersOk(cfg, s, s.calls[id].plan.turn)
    requires TurnLeased(cfg, s, s.calls[id].plan.turn)
    ensures ReadersOk(cfg, Next(cfg, s, Send(id, op, fate)), s.calls[id].plan.turn)
  {
    var s' := Next(cfg, s, Send(id, op, fate));
    var t := s.calls[id].plan.turn;
    InsidersUpdate(s.calls, id, s'.calls[id], t, Read);
    assert id in Insiders(s.calls, t, Read);
    TurnLeaseOf(cfg, s, id);
  }

  lemma WriterKept(cfg: Config, s: State, step: Step, t: string)
    requires Enabled(cfg, s, step)
    requires CallsOk(cfg, s) && TokensDistinct(s) && ReadersOk(cfg, s, t) && WriterOk(cfg, s, t)
    requires TurnLeased(cfg, s, t) && TurnLeased(cfg, Next(cfg, s, step), t)
    ensures WriterOk(cfg, Next(cfg, s, step), t)
  {
    hide Run, Observe, Advance;
    var s' := Next(cfg, s, step);
    CallsKept(cfg, s, step);
    match step {
      case Arrive(id, plan) =>
        InsidersUpdate(s.calls, id, s'.calls[id], t, Write);
        WriterUntouchedOk(cfg, s, s', t);
      case Elapse(d) =>
        WriterElapse(cfg, s, d, t);
      case GiveUp(id) =>
        InsidersUpdate(s.calls, id, s'.calls[id], t, Write);
        assert id !in Insiders(s.calls, t, Write);
        WriterUntouchedOk(cfg, s, s', t);
      case Send(id, op, fate) =>
        SendShape(cfg, s, id, op, fate);
        if s.calls[id].plan.turn == t && op.WriteLock? {
          WriterLock(cfg, s, id, op, fate);
        } else if s.calls[id].plan.turn == t && op.WriteUnlock? {
          WriterUnlock(cfg, s, id, op, fate);
        } else {
          WriterOther(cfg, s, id, op, fate, t);
        }
    }
  }

  lemma WriterUntouchedOk(cfg: Config, s: State, s': State, t: string)
    requires WriterOk(cfg, s, t) && TurnUntouched(s, s', TurnWriter(t), t, Write)
    requires Live(s.db, s.now, TurnWriter(t)) ==> Counter(s'.db, s'.now, TurnReaders(t)) == 0
    ensures WriterOk(cfg, s', t)
  {
  }

  lemma WriterElapse(cfg: Config, s: State, d: nat, t: string)
    requires CallsOk(cfg, s) && WriterOk(cfg, s, t) && TurnLeased(cfg, s.(now := s.now + d), t)
    ensures WriterOk(cfg, s.(now := s.now + d), t)
  {
    var s' := s.(now := s.now + d);
    if Live(s.db, s.now, TurnWriter(t)) && !Live(s'.db, s'.now, TurnWriter(t)) {
      forall id | id in Insiders(s.calls, t, Write) ensures false {
        TurnLeaseOf(cfg, s', id);
      }
    }
  }

  lemma WriterLock(cfg: Config, s: State, id: nat, op: Op, fate: Fate)
    requires Enabled(cfg, s, Send(id, op, fate)) && op == s.calls[id].plan.Lock() && op.WriteLock?
      && s.calls[id].phase == WantTurn
    requires CallsOk(cfg, s) && ReadersOk(cfg, s, s.calls[id].plan.turn) && WriterOk(cfg, s, s.calls[id].plan.turn)
    ensures WriterOk(cfg, Next(cfg, s, Send(id, op, fate)), s.calls[id].plan.turn)
  {
    if TookEffect(s, op, fate) {
      WriteParts(cfg, s, id, op, fate);
      WriterEntered(cfg, s, Next(cfg, s, Send(id, op, fate)), id, fate);
    } else {
      WriterNotEntered(cfg, s, id, op, fate);
    }
  }

  lemma WriterNotEntered(cfg: Config, s: State, id: nat, op: Op, fate: Fate)
    requires Enabled(cfg, s, Send(id, op, fate)) && op == s.calls[id].plan.Lock() && op.WriteLock?
      && s.calls[id].phase == WantTurn
    requires WriterOk(cfg, s, s.calls[id].plan.turn) && !TookEffect(s, op, fate)
    ensures WriterOk(cfg, Next(cfg, s, Send(id, op, fate)), s.calls[id].plan.turn)
  {
    var s' := Next(cfg, s, Send(id, op, fate));
    var c', t := s'.calls[id], s.calls[id].plan.turn;
    assert s'.db == s.db;
    InsidersUpdate(s.calls, id, c', t, Write);
    assert !InTurn(s.calls[id], t, Write) && !InTurn(c', t, Write);
    assert TurnUntouched(s, s', TurnWriter(t), t, Write);
    WriterUntouchedOk(cfg, s, s', t);
  }

  lemma WriterEntered(cfg: Config, s: State, s': State, id: nat, fate: Fate)
    requires id in s.calls && WriterOk(cfg, s, s.calls[id].plan.turn) && s.calls[id].plan.turnTtl == cfg.turnTtl
    requires var c, t := s.calls[id], s.calls[id].plan.turn;
             && s'.now == s.now && !Live(s.db, s.now, TurnWriter(t)) && c.plan.turnTtl > 0
             && id in s'.calls && s'.calls == s.calls[id := s'.calls[id]]
             && TurnWriter(t) in s'.db
             && s'.db[TurnWriter(t)] == Leased(Text(c.plan.token), s.now, c.plan.turnTtl)
             && Counter(s'.db, s'.now, TurnReaders(t)) == 0
             && s'.calls[id].plan == c.plan && s'.calls[id].turnAt == s.now
    ensures WriterOk(cfg, s', s.calls[id].plan.turn)
  {
    var t := s.calls[id].plan.turn;
    InsidersUpdate(s.calls, id, s'.calls[id], t, Write);
    assert Insiders(s.calls, t, Write) == {};
    assert Insiders(s'.calls, t, Write) <= {id};
  }

  lemma WriteParts(cfg: Config, s: State, id: nat, op: Op, fate: Fate)
    requires Enabled(cfg, s, Send(id, op, fate)) && op == s.calls[id].plan.Lock() && op.WriteLock?
      && s.calls[id].phase == WantTurn
    requires TookEffect(s, op, fate)
    ensures var s', c, t := Next(cfg, s, Send(id, op, fate)), s.calls[id], s.calls[id].plan.turn;
            && s'.now == s.now && !Live(s.db, s.now, TurnWriter(t)) && c.plan.turnTtl > 0
            && s'.calls == s.calls[id := s'.calls[id]]
            && TurnWriter(t) in s'.db
            && s'.db[TurnWriter(t)] == Leased(Text(c.plan.token), s.now, c.plan.turnTtl)
            && Counter(s'.db, s'.now, TurnReaders(t)) == 0
            && s'.calls[id].plan == c.plan && s'.calls[id].turnAt == s.now
            && (s'.calls[id].phase == Running <==> fate == Replied)
  {
  }

  lemma WriterUnlock(cfg: Config, s: State, id: nat, op: Op, fate: Fate)
    requires Enabled(cfg, s, Send(id, op, fate)) && op == s.calls[id].plan.Unlock() && op.WriteUnlock?
      && s.calls[id].phase == Running
    requires CallsOk(cfg, s) && TokensDistinct(s) && WriterOk(cfg, s, s.calls[id].plan.turn)
      && TurnLeased(cfg, s, s.calls[id].plan.turn)
    ensures WriterOk(cfg, Next(cfg, s, Send(id, op, fate)), s.calls[id].plan.turn)
  {
    var s' := Next(cfg, s, Send(id, op, fate));
    var t := s.calls[id].plan.turn;
    InsidersUpdate(s.calls, id, s'.calls[id], t, Write);
    assert id in Insiders(s.calls, t, Write);
    TurnLeaseOf(cfg, s, id);
    SendFrame(cfg, s, id, op, fate, TurnReaders(t));
    assert Insiders(s.calls, t, Write) == {id};
  }

  lemma WriterOther(cfg: Config, s: State, id: nat, op: Op, fate: Fate, t: string)
    requires Enabled(cfg, s, Send(id, op, fate))
    requires s.calls[id].plan.turn != t || !(op.WriteLock? || op.WriteUnlock?)
    requires CallsOk(cfg, s) && ReadersOk(cfg, s, t) && WriterOk(cfg, s, t) && TurnLeased(cfg, s, t)
    ensures WriterOk(cfg, Next(cfg, s, Send(id, op, fate)), t)
  {
    var s' := Next(cfg, s, Send(id, op, fate));
    SendShape(cfg, s, id, op, fate);
    TurnOtherFrame(cfg, s, id, op, fate, t, Write);
    if Live(s.db, s.now, TurnWriter(t)) {
      if op == Op.ReadUnlock(t) {
        SomeoneInside(s, id, t, Read);
      } else if op == Op.ReadLock(t, cfg.turnTtl) {
        assert s'.db == s.db;
      } else {
        SendFrame(cfg, s, id, op, fate, TurnReaders(t));
      }
    }
    WriterUntouchedOk(cfg, s, s', t);
  }

  lemma CallsKept(cfg: Config, s: State, step: Step)
    requires Enabled(cfg, s, step) && CallsOk(cfg, s)
    ensures CallsOk(cfg, Next(cfg, s, step))
  {
  }

  lemma TokensKept(cfg: Config, s: State, step: Step)
    requires Enabled(cfg, s, step) && TokensDistinct(s)
    ensures TokensDistinct(Next(cfg, s, step))
  {
  }

  /** Every step keeps the invariant as long as the lease hypothesis holds before and after it. */
  lemma InvKept(cfg: Config, s: State, step: Step)
    requires Enabled(cfg, s, step) && Inv(cfg, s)
    requires LeaseHolds(cfg, s) && LeaseHolds(cfg, Next(cfg, s, step))
    ensures Inv(cfg, Next(cfg, s, step))
  {
    CallsKept(cfg, s, step);
    TokensKept(cfg, s, step);
    forall sid: string ensures SessionOk(cfg, Next(cfg, s, step), sid) {
      SessionKept(cfg, s, step, sid);
    }
    forall t: string ensures ReadersOk(cfg, Next(cfg, s, step), t) {
      ReadersKept(cfg, s, step, t);
    }
    forall t: string ensures WriterOk(cfg, Next(cfg, s, step), t) {
      WriterKept(cfg, s, step, t);
    }
  }

  // ---------- runs ----------

  /** A run: each state follows from the one before by the step between them. */
  predicate IsRun(cfg: Config, run: seq<State>, steps: seq<Step>) {
    && |run| == |steps| + 1
    && Initial(run[0])
    && forall i | 0 <= i < |steps| :: Enabled(cfg, run[i], steps[i]) && run[i + 1] == Next(cfg, run[i], steps[i])
  }

  /** One session is used by one turn at a time. */
  predicate SessionExclusion(s: State) {
    forall i, j | i in s.calls && j in s.calls && HoldsSession(s.calls[i].phase) && HoldsSession(s.calls[j].phase) ::
      s.calls[i].plan.session == s.calls[j].plan.session ==> s.calls[i].plan.turn == s.calls[j].plan.turn
  }

  /** Inside one turn, across all sessions, there is one writer alone or there are only readers. */
  predicate TurnExclusion(s: State) {
    forall i, j | i in s.calls && j in s.calls && i != j && s.calls[i].phase == Running
      && s.calls[j].phase == Running ::
      s.calls[i].plan.turn == s.calls[j].plan.turn ==> s.calls[i].plan.kind == Read && s.calls[j].plan.kind == Read
  }

  /** A session's refcount is the calls inside plus the lost units. */
  ghost predicate RefcountExact(s: State) {
    forall sid: string ::
      Counter(s.db, s.now, SessionCount(sid)) ==
        if Live(s.db, s.now, SessionOwner(sid)) then |Holders(s.calls, sid)| + Lost(s.lostRefs, sid) else 0
  }

  /** A turn's reader counter is never below the readers inside, and exceeds them by the lost units. */
  ghost predicate ReadersExact(s: State) {
    forall t: string ::
      if Live(s.db, s.now, TurnReaders(t))
      then Counter(s.db, s.now, TurnReaders(t)) == |Insiders(s.calls, t, Read)| + Lost(s.lostReads, t)
      else Counter(s.db, s.now, TurnReaders(t)) == 0 && Insiders(s.calls, t, Read) == {}
  }

  /** Owner and refcount expire together, and not before any holder's lease. */
  ghost predicate DeadlinesShared(cfg: Config, s: State) {
    forall id | id in s.calls && HoldsSession(s.calls[id].phase) ::
      var owner, count := SessionOwner(s.calls[id].plan.session), SessionCount(s.calls[id].plan.session);
      && Live(s.db, s.now, owner) && Live(s.db, s.now, count)
      && s.db[owner].deadline == s.db[count].deadline
      && s.db[owner].deadline.At?
      && s.calls[id].sessionAt + cfg.sessionTtl * NANOS_PER_MILLI <= s.db[owner].deadline.ns
  }

  /** The client reads a nonzero reply as "acquired": the script replies nonzero exactly when it
      took the lock, that is when no writer is there (and, for a writer, no reader either). */
  ghost predicate RepliesTruthful(s: State) {
    && (forall t: string, ttl: int ::
          var r := Run(s.db, s.now, Op.ReadLock(t, ttl)).reply;
          r.Some? && (r.value != 0 <==> !Live(s.db, s.now, TurnWriter(t))))
    && (forall t: string, token: string, ttl: int | ttl > 0 ::
          var r := Run(s.db, s.now, Op.WriteLock(t, token, ttl)).reply;
          r.Some? && (r.value != 0 <==> !Live(s.db, s.now, TurnWriter(t)) && Counter(s.db, s.now, TurnReaders(t)) == 0))
  }

  lemma InvSafe(cfg: Config, s: State)
    requires Inv(cfg, s)
    ensures SessionExclusion(s) && TurnExclusion(s)
    ensures RefcountExact(s) && ReadersExact(s) && DeadlinesShared(cfg, s) && RepliesTruthful(s)
  {
    InvSessionExclusion(cfg, s);
    InvTurnExclusion(cfg, s);
    forall sid: string ensures
        Counter(s.db, s.now, SessionCount(sid)) ==
          if Live(s.db, s.now, SessionOwner(sid)) then |Holders(s.calls, sid)| + Lost(s.lostRefs, sid) else 0 {
      assert SessionOk(cfg, s, sid);
    }
    forall t: string ensures
        if Live(s.db, s.now, TurnReaders(t))
        then Counter(s.db, s.now, TurnReaders(t)) == |Insiders(s.calls, t, Read)| + Lost(s.lostReads, t)
        else Counter(s.db, s.now, TurnReaders(t)) == 0 && Insiders(s.calls, t, Read) == {} {
      assert ReadersOk(cfg, s, t);
    }
    forall id | id in s.calls && HoldsSession(s.calls[id].phase) ensures
        var owner, count := SessionOwner(s.calls[id].plan.session), SessionCount(s.calls[id].plan.session);
        && Live(s.db, s.now, owner) && Live(s.db, s.now, count)
        && s.db[owner].deadline == s.db[count].deadline
        && s.db[owner].deadline.At?
        && s.calls[id].sessionAt + cfg.sessionTtl * NANOS_PER_MILLI <= s.db[owner].deadline.ns {
      assert SessionOk(cfg, s, s.calls[id].plan.session);
      assert id in Holders(s.calls, s.calls[id].plan.session);
    }
    InvReplies(cfg, s);
  }

  lemma InvReplies(cfg: Config, s: State)
    requires Inv(cfg, s)
    ensures RepliesTruthful(s)
  {
    forall t: string, ttl: int ensures
        var r := Run(s.db, s.now, Op.ReadLock(t, ttl)).reply;
        r.Some? && (r.value != 0 <==> !Live(s.db, s.now, TurnWriter(t))) {
      assert ReadersOk(cfg, s, t);
    }
    forall t: string, token: string, ttl: int | ttl > 0 ensures
        var r := Run(s.db, s.now, Op.WriteLock(t, token, ttl)).reply;
        r.Some? && (r.value != 0 <==> !Live(s.db, s.now, TurnWriter(t)) && Counter(s.db, s.now, TurnReaders(t)) == 0) {
      assert ReadersOk(cfg, s, t);
    }
  }

  lemma InvSessionExclusion(cfg: Config, s: State)
    requires Inv(cfg, s)
    ensures SessionExclusion(s)
  {
    forall i, j | i in s.calls && j in s.calls && HoldsSession(s.calls[i].phase) && HoldsSession(s.calls[j].phase)
                  && s.calls[i].plan.session == s.calls[j].plan.session
      ensures s.calls[i].plan.turn == s.calls[j].plan.turn
    {
      var sid := s.calls[i].plan.session;
      assert SessionOk(cfg, s, sid);
      assert i in Holders(s.calls, sid) && j in Holders(s.calls, sid);
    }
  }

  lemma InvTurnExclusion(cfg: Config, s: State)
    requires Inv(cfg, s)
    ensures TurnExclusion(s)
  {
    forall i, j | i in s.calls && j in s.calls && i != j && s.calls[i].phase == Running && s.calls[j].phase == Running
                  && s.calls[i].plan.turn == s.calls[j].plan.turn
      ensures s.calls[i].plan.kind == Read && s.calls[j].plan.kind == Read
    {
      var t := s.calls[i].plan.turn;
      assert ReadersOk(cfg, s, t) && WriterOk(cfg, s, t);
      InsideTogether(cfg, s, i, j, t);
      InsideTogether(cfg, s, j, i, t);
    }
  }

  /** A writer inside a turn leaves no room for another call. */
  lemma InsideTogether(cfg: Config, s: State, w: nat, other: nat, t: string)
    requires TokensDistinct(s) && ReadersOk(cfg, s, t) && WriterOk(cfg, s, t)
    requires w in s.calls && other in s.calls && w != other
    requires InTurn(s.calls[w], t, s.calls[w].plan.kind) && InTurn(s.calls[other], t, s.calls[other].plan.kind)
    ensures s.calls[w].plan.kind == Read
  {
    SomeoneInside(s, w, t, s.calls[w].plan.kind);
    SomeoneInside(s, other, t, s.calls[other].plan.kind);
  }

  lemma {:induction false} RunInv(cfg: Config, run: seq<State>, steps: seq<Step>, n: nat)
    requires IsRun(cfg, run, steps) && n <= |steps|
    requires forall i | 0 <= i <= n :: LeaseHolds(cfg, run[i])
    ensures Inv(cfg, run[n])
  {
    if n > 0 {
      RunInv(cfg, run, steps, n - 1);
      InvKept(cfg, run[n - 1], steps[n - 1]);
    }
  }

  /** A session by itself: while the calls inside this session keep to their leases, its lease is exact
      in every interleaving, whatever happens in other sessions and to turn locks: one turn inside, the
      refcount counts, and owner and refcount expire together and not before any holder's lease. */
  lemma {:induction false} SessionSafeByItself(cfg: Config, run: seq<State>, steps: seq<Step>, n: nat, sid: string)
    requires IsRun(cfg, run, steps) && n <= |steps|
    requires forall i | 0 <= i <= n :: SessionLeased(cfg, run[i], sid)
    ensures CallsOk(cfg, run[n]) && SessionOk(cfg, run[n], sid)
    ensures forall i, j | i in Holders(run[n].calls, sid) && j in Holders(run[n].calls, sid) ::
              run[n].calls[i].plan.turn == run[n].calls[j].plan.turn
  {
    if n > 0 {
      SessionSafeByItself(cfg, run, steps, n - 1, sid);
      CallsKept(cfg, run[n - 1], steps[n - 1]);
      SessionKept(cfg, run[n - 1], steps[n - 1], sid);
    }
  }

  /** A turn by itself: while the calls inside this turn keep to their leases, it has one writer alone or
      only readers, and its reader counter counts, whatever happens in other turns and to sessions. */
  lemma {:induction false} TurnSafeByItself(cfg: Config, run: seq<State>, steps: seq<Step>, n: nat, t: string)
    requires IsRun(cfg, run, steps) && n <= |steps|
    requires forall i | 0 <= i <= n :: TurnLeased(cfg, run[i], t)
    ensures CallsOk(cfg, run[n]) && TokensDistinct(run[n])
    ensures ReadersOk(cfg, run[n], t) && WriterOk(cfg, run[n], t)
    ensures forall w, other | w in Insiders(run[n].calls, t, Write)
              && other in Insiders(run[n].calls, t, Write) + Insiders(run[n].calls, t, Read) :: w == other
  {
    if n > 0 {
      var s, step := run[n - 1], steps[n - 1];
      TurnSafeByItself(cfg, run, steps, n - 1, t);
      CallsKept(cfg, s, step);
      TokensKept(cfg, s, step);
      ReadersKept(cfg, s, step, t);
      WriterKept(cfg, s, step, t);
    }
    OneWriterAlone(cfg, run[n], t);
  }

  lemma OneWriterAlone(cfg: Config, s: State, t: string)
    requires TokensDistinct(s) && ReadersOk(cfg, s, t) && WriterOk(cfg, s, t)
    ensures forall w, other | w in Insiders(s.calls, t, Write)
              && other in Insiders(s.calls, t, Write) + Insiders(s.calls, t, Read) :: w == other
  {
    forall w, other | w in Insiders(s.calls, t, Write)
              && other in Insiders(s.calls, t, Write) + Insiders(s.calls, t, Read)
      ensures w == other
    {
      if w != other {
        InsideTogether(cfg, s, w, other, t);
      }
    }
  }

  /** Safety over whole runs: while no call outlives its lease, in every reachable state each session
      serves one turn, each turn has one writer or only readers, the counters count exactly, the
      lease keys expire together and late enough, and script replies mean what clients think. */
  lemma LeasedRunsAreSafe(cfg: Config, run: seq<State>, steps: seq<Step>)
    requires IsRun(cfg, run, steps)
    requires forall i | 0 <= i < |run| :: LeaseHolds(cfg, run[i])
    ensures forall i | 0 <= i < |run| ::
              && SessionExclusion(run[i]) && TurnExclusion(run[i])
              && RefcountExact(run[i]) && ReadersExact(run[i])
              && DeadlinesShared(cfg, run[i]) && RepliesTruthful(run[i])
  {
    forall i | 0 <= i < |run|
      ensures
        && SessionExclusion(run[i]) && TurnExclusion(run[i])
        && RefcountExact(run[i]) && ReadersExact(run[i])
        && DeadlinesShared(cfg, run[i]) && RepliesTruthful(run[i])
    {
      RunInv(cfg, run, steps, i);
      InvSafe(cfg, run[i]);
    }
  }
}
