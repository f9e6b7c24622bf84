/** The part of Redis that the locks use: keys with values and deadlines, the commands
    the Lua scripts issue, and the seven scripts themselves, each one atomic step.
    Time is one clock in nanoseconds; TTL arguments are in milliseconds, as in PEXPIRE. */
module Redis {
  import opened Wrappers

  const NANOS_PER_MILLI: int := 1_000_000

  datatype Key =
    | SessionOwner(id: string)
    | SessionCount(id: string)
    | TurnReaders(id: string)
    | TurnWriter(id: string)

  /** The key text that the four key builders produce. */
  function Render(k: Key): string {
    match k
    case SessionOwner(id) => "session:" + id + ":lock"
    case SessionCount(id) => "session:" + id + ":refcount"
    case TurnReaders(id) => "turn:" + id + ":readers"
    case TurnWriter(id) => "turn:" + id + ":wlock"
  }

  lemma MiddleIsDetermined(pre: string, a: string, b: string, post: string)
    requires pre + a + post == pre + b + post
    ensures a == b
  {
    assert |a| == |b|;
    forall i | 0 <= i < |a| ensures a[i] == b[i] {
      assert (pre + a + post)[|pre| + i] == a[i];
      assert (pre + b + post)[|pre| + i] == b[i];
    }
  }

  /** No two locks share a key, whatever text a client puts into its session or turn ID. */
  lemma RenderInjective(a: Key, b: Key)
    requires Render(a) == Render(b)
    ensures a == b
  {
    var r, s := Render(a), Render(b);
    assert r[0] == s[0] && r[|r| - 1] == s[|s| - 1];
    match a {
      case SessionOwner(x) =>
        assert b.SessionOwner?;
        MiddleIsDetermined("session:", x, b.id, ":lock");
      case SessionCount(x) =>
        assert b.SessionCount?;
        MiddleIsDetermined("session:", x, b.id, ":refcount");
      case TurnReaders(x) =>
        assert b.TurnReaders?;
        MiddleIsDetermined("turn:", x, b.id, ":readers");
      case TurnWriter(x) =>
        assert b.TurnWriter?;
        MiddleIsDetermined("turn:", x, b.id, ":wlock");
    }
  }

  datatype Value = Text(text: string) | Num(num: int)

  datatype Deadline = Never | At(ns: int)

  datatype Entry = Entry(value: Value, deadline: Deadline)

  type Db = map<Key, Entry>

  /** An entry counts until its deadline; expired entries may linger in the map. */
  predicate Live(db: Db, now: int, k: Key) {
    k in db && (db[k].deadline.At? ==> now < db[k].deadline.ns)
  }

  function Get(db: Db, now: int, k: Key): Option<Value> {
    if Live(db, now, k) then Some(db[k].value) else None
  }

  /** GET read as a counter: a missing key is zero. */
  function Counter(db: Db, now: int, k: Key): int {
    match Get(db, now, k)
    case Some(Num(n)) => n
    case _ => 0
  }

  /** What a script leaves behind and replies; None is an error reply. */
  datatype Outcome = Outcome(db: Db, reply: Option<int>)

  /** INCR and DECR: a missing key starts at zero and gets no deadline. */
  function Bump(db: Db, now: int, k: Key, delta: int): Outcome {
    match Get(db, now, k)
    case None => Outcome(db[k := Entry(Num(delta), Never)], Some(delta))
    case Some(Num(n)) => Outcome(db[k := Entry(Num(n + delta), db[k].deadline)], Some(n + delta))
    case Some(Text(_)) => Outcome(db, None)
  }

  /** PEXPIRE: nothing on a missing key, deletion when the TTL is not positive. */
  function Refresh(db: Db, now: int, k: Key, ttlMs: int): Db {
    if !Live(db, now, k) then db
    else if ttlMs <= 0 then db - {k}
    else db[k := Entry(db[k].value, At(now + ttlMs * NANOS_PER_MILLI))]
  }

  function Leased(v: Value, now: int, ttlMs: int): Entry {
    Entry(v, At(now + ttlMs * NANOS_PER_MILLI))
  }

  /** One Eval call: a script with its arguments. */
  datatype Op =
    | AcquireSession(session: string, turn: string, ttlMs: int)
    | ReleaseSession(session: string, turn: string)
    | ExtendSession(session: string, turn: string, ttlMs: int)
    | ReadLock(turn: string, ttlMs: int)
    | ReadUnlock(turn: string)
    | WriteLock(turn: string, token: string, ttlMs: int)
    | WriteUnlock(turn: string, token: string)

  /** The effect of each script as one step on the database. */
  function Run(db: Db, now: int, op: Op): Outcome {
    match op
    case AcquireSession(s, t, ttl) => RunAcquire(db, now, s, t, ttl)
    case ReleaseSession(s, t) => RunRelease(db, now, s, t)
    case ExtendSession(s, t, ttl) =>
      if Get(db, now, SessionOwner(s)) == Some(Text(t))
      then Outcome(Refresh(Refresh(db, now, SessionOwner(s), ttl), now, SessionCount(s), ttl), Some(1))
      else Outcome(db, Some(0))
    case ReadLock(t, ttl) =>
      if Live(db, now, TurnWriter(t)) then Outcome(db, Some(0))
      else
        var up := Bump(db, now, TurnReaders(t), 1);
        if up.reply.None? then up
        else Outcome(Refresh(up.db, now, TurnReaders(t), ttl), up.reply)
    case ReadUnlock(t) => Bump(db, now, TurnReaders(t), -1)
    case WriteLock(t, token, ttl) =>
      if Get(db, now, TurnReaders(t)) !in {None, Some(Num(0))} then Outcome(db, Some(0))
      else if ttl <= 0 then Outcome(db, None)
      else if Live(db, now, TurnWriter(t)) then Outcome(db, Some(0))
      else Outcome(db[TurnWriter(t) := Leased(Text(token), now, ttl)], Some(1))
    case WriteUnlock(t, token) =>
      if Get(db, now, TurnWriter(t)) == Some(Text(token))
      then Outcome(db - {TurnWriter(t)}, Some(1))
      else Outcome(db, Some(0))
  }

  function RunAcquire(db: Db, now: int, s: string, t: string, ttl: int): Outcome {
    match Get(db, now, SessionOwner(s))
    case None =>
      if ttl <= 0 then Outcome(db, None)
      else Outcome(db[SessionOwner(s) := Leased(Text(t), now, ttl)][SessionCount(s) := Leased(Num(1), now, ttl)],
        Some(1))
    case Some(v) =>
      if v != Text(t) then Outcome(db, Some(0))
      else
        var up := Bump(db, now, SessionCount(s), 1);
        if up.reply.None? then up
        else Outcome(Refresh(Refresh(up.db, now, SessionOwner(s), ttl), now, SessionCount(s), ttl), Some(1))
  }

  function RunRelease(db: Db, now: int, s: string, t: string): Outcome {
    if Get(db, now, SessionOwner(s)) != Some(Text(t)) then Outcome(db, Some(-1))
    else
      var down := Bump(db, now, SessionCount(s), -1);
      if down.reply.None? then down
      else if down.reply.value <= 0 then Outcome(db - {SessionOwner(s), SessionCount(s)}, Some(0))
      else down
  }

  /** The keys an operation may touch. */
  function Footprint(op: Op): set<Key> {
    match op
    case AcquireSession(s, _, _) => {SessionOwner(s), SessionCount(s)}
    case ReleaseSession(s, _) => {SessionOwner(s), SessionCount(s)}
    case ExtendSession(s, _, _) => {SessionOwner(s), SessionCount(s)}
    case ReadLock(t, _) => {TurnReaders(t)}
    case ReadUnlock(t) => {TurnReaders(t)}
    case WriteLock(t, _, _) => {TurnWriter(t)}
    case WriteUnlock(t, _) => {TurnWriter(t)}
  }

  /** A script leaves every key outside its own footprint exactly as it was. */
  lemma RunFrame(db: Db, now: int, op: Op, k: Key)
    requires k !in Footprint(op)
    ensures k in Run(db, now, op).db <==> k in db
    ensures k in db ==> Run(db, now, op).db[k] == db[k]
  {
  }

  /** What the scripts that give a lock back reply: a release that is not the owner's is told -1 and the owner
      how many units are left, a write unlock whether the token was its own, and a read unlock the new count. */
  lemma RepliesAre(db: Db, now: int, s: string, t: string, token: string, n: int)
    ensures Get(db, now, SessionOwner(s)) != Some(Text(t)) ==>
              Run(db, now, ReleaseSession(s, t)) == Outcome(db, Some(-1))
    ensures Get(db, now, SessionOwner(s)) == Some(Text(t)) && Get(db, now, SessionCount(s)) == Some(Num(n)) ==>
              var r := Run(db, now, ReleaseSession(s, t));
              && r.reply == Some(if n > 1 then n - 1 else 0)
              && (SessionOwner(s) in r.db <==> n > 1) && (SessionCount(s) in r.db <==> n > 1)
    ensures Run(db, now, WriteUnlock(t, token)).reply
         == Some(if Get(db, now, TurnWriter(t)) == Some(Text(token)) then 1 else 0)
    ensures Get(db, now, TurnReaders(t)) == Some(Num(n)) ==> Run(db, now, ReadUnlock(t)).reply == Some(n - 1)
    ensures Get(db, now, TurnReaders(t)) == None ==> Run(db, now, ReadUnlock(t)).reply == Some(-1)
  {
  }

  /** A TTL below one millisecond grants no session and no write lock: Redis answers a free lock's script with
      an error and keeps the database as it was. */
  lemma NoLeaseNoLock(db: Db, now: int, s: string, t: string, token: string, ttl: int)
    requires ttl <= 0
    ensures !Live(db, now, SessionOwner(s)) ==> Run(db, now, AcquireSession(s, t, ttl)) == Outcome(db, None)
    ensures !Live(db, now, TurnReaders(t)) ==> Run(db, now, WriteLock(t, token, ttl)) == Outcome(db, None)
  {
  }

  /** The scripts command by command, changing the database in place as the Lua text does. */
  class Server {
    var db: Db
    var now: int

    constructor (now: int)
      ensures db == map[] && this.now == now
    {
      db := map[];
      this.now := now;
    }

    method Incr(k: Key, delta: int) returns (reply: Option<int>)
      modifies this`db
      ensures Outcome(db, reply) == Bump(old(db), now, k, delta)
    {
      var current := Get(db, now, k);
      match current {
        case None =>
          db := db[k := Entry(Num(delta), Never)];
          reply := Some(delta);
        case Some(Num(n)) =>
          db := db[k := Entry(Num(n + delta), db[k].deadline)];
          reply := Some(n + delta);
        case Some(Text(_)) =>
          reply := None;
      }
    }

    method PExpire(k: Key, ttlMs: int)
      modifies this`db
      ensures db == Refresh(old(db), now, k, ttlMs)
    {
      if Live(db, now, k) {
        if ttlMs <= 0 {
          db := db - {k};
        } else {
          db := db[k := Entry(db[k].value, At(now + ttlMs * NANOS_PER_MILLI))];
        }
      }
    }

    /** SET with PX: an expire time that is not positive is an error. */
    method SetPx(k: Key, v: Value, ttlMs: int) returns (ok: bool)
      modifies this`db
      ensures ok <==> ttlMs > 0
      ensures db == if ok then old(db)[k := Leased(v, now, ttlMs)] else old(db)
    {
      ok := ttlMs > 0;
      if ok {
        db := db[k := Leased(v, now, ttlMs)];
      }
    }

    method AcquireSessionScript(s: string, t: string, ttl: int) returns (reply: Option<int>)
      modifies this`db
      ensures Outcome(db, reply) == Run(old(db), now, AcquireSession(s, t, ttl))
    {
      var current := Get(db, now, SessionOwner(s));
      if current == None {
        var ok := SetPx(SessionOwner(s), Text(t), ttl);
        if !ok { return None; }
        ok := SetPx(SessionCount(s), Num(1), ttl);
        return Some(1);
      }
      if current == Some(Text(t)) {
        var n := Incr(SessionCount(s), 1);
        if n == None { return None; }
        PExpire(SessionOwner(s), ttl);
        PExpire(SessionCount(s), ttl);
        return Some(1);
      }
      return Some(0);
    }

    method ReleaseSessionScript(s: string, t: string) returns (reply: Option<int>)
      modifies this`db
      ensures Outcome(db, reply) == Run(old(db), now, ReleaseSession(s, t))
    {
      if Get(db, now, SessionOwner(s)) != Some(Text(t)) {
        return Some(-1);
      }
      var remaining := Incr(SessionCount(s), -1);
      if remaining == None { return None; }
      if remaining.value <= 0 {
        db := db - {SessionOwner(s), SessionCount(s)};
        assert db == old(db) - {SessionOwner(s), SessionCount(s)};
        return Some(0);
      }
      return remaining;
    }

    method ExtendSessionScript(s: string, t: string, ttl: int) returns (reply: Option<int>)
      modifies this`db
      ensures Outcome(db, reply) == Run(old(db), now, ExtendSession(s, t, ttl))
    {
      if Get(db, now, SessionOwner(s)) != Some(Text(t)) {
        return Some(0);
      }
      PExpire(SessionOwner(s), ttl);
      PExpire(SessionCount(s), ttl);
      return Some(1);
    }

    method ReadLockScript(t: string, ttl: int) returns (reply: Option<int>)
      modifies this`db
      ensures Outcome(db, reply) == Run(old(db), now, ReadLock(t, ttl))
    {
      if Live(db, now, TurnWriter(t)) {
        return Some(0);
      }
      reply := Incr(TurnReaders(t), 1);
      if reply != None {
        PExpire(TurnReaders(t), ttl);
      }
    }

    method ReadUnlockScript(t: string) returns (reply: Option<int>)
      modifies this`db
      ensures Outcome(db, reply) == Run(old(db), now, ReadUnlock(t))
    {
      reply := Incr(TurnReaders(t), -1);
    }

    method WriteLockScript(t: string, token: string, ttl: int) returns (reply: Option<int>)
      modifies this`db
      ensures Outcome(db, reply) == Run(old(db), now, WriteLock(t, token, ttl))
    {
      var readers := Get(db, now, TurnReaders(t));
      if readers != None && readers != Some(Num(0)) {
        return Some(0);
      }
      if ttl > 0 && Live(db, now, TurnWriter(t)) {
        return Some(0);
      }
      var ok := SetPx(TurnWriter(t), Text(token), ttl);
      return if ok then Some(1) else None;
    }

    method WriteUnlockScript(t: string, token: string) returns (reply: Option<int>)
      modifies this`db
      ensures Outcome(db, reply) == Run(old(db), now, WriteUnlock(t, token))
    {
      if Get(db, now, TurnWriter(t)) != Some(Text(token)) {
        return Some(0);
      }
      db := db - {TurnWriter(t)};
      return Some(1);
    }

    /** EVAL of any of the seven scripts. */
    method Eval(op: Op) returns (reply: Option<int>)
      modifies this`db
      ensures Outcome(db, reply) == Run(old(db), now, op)
    {
      match op {
        case AcquireSession(s, t, ttl) => reply := AcquireSessionScript(s, t, ttl);
        case ReleaseSession(s, t) => reply := ReleaseSessionScript(s, t);
        case ExtendSession(s, t, ttl) => reply := ExtendSessionScript(s, t, ttl);
        case ReadLock(t, ttl) => reply := ReadLockScript(t, ttl);
        case ReadUnlock(t) => reply := ReadUnlockScript(t);
        case WriteLock(t, token, ttl) => reply := WriteLockScript(t, token, ttl);
        case WriteUnlock(t, token) => reply := WriteUnlockScript(t, token);
      }
    }
  }
}
