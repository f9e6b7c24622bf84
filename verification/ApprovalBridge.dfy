/** cmd/gateway/approval_bridge.go: waiting for the verdict on a ticket. */
module ApprovalBridge {
  import opened Wrappers
  import opened Redis
  import opened CallTrace
  import opened RedisLink
  import opened Tickets
  import S = SessionLocker

  /** What the wait loop can be woken by, in the order in which it takes them. */
  datatype Signal =
    | Message(payload: string)
    | Closed                     // a nil message or a closed channel
    | Tick
    | TimerFired
    | ContextDone

  datatype Verdict = Decided(approved: bool, ticket: string) | ApprovalTimeout | Cancelled

  /** A signal that ends the wait. */
  predicate Terminal(s: Signal) {
    match s
    case Message(p) => p == "approved" || p == "denied"
    case Tick => false
    case _ => true
  }

  function VerdictOf(s: Signal, ticket: string): Verdict
    requires Terminal(s)
  {
    match s
    case Message(p) => Decided(p == "approved", ticket)
    case ContextDone => Verdict.Cancelled
    case _ => ApprovalTimeout
  }

  /** The position of the first terminal signal; past the end stands for the timer, which always fires. */
  predicate EndsAt(signals: seq<Signal>, k: nat) {
    && k <= |signals|
    && (forall j | 0 <= j < k :: !Terminal(signals[j]))
    && (k < |signals| ==> Terminal(signals[k]))
  }

  function VerdictAt(signals: seq<Signal>, k: nat, ticket: string): Verdict
    requires EndsAt(signals, k)
  {
    if k < |signals| then VerdictOf(signals[k], ticket) else ApprovalTimeout
  }

  function Ticks(signals: seq<Signal>): nat {
    if signals == [] then 0
    else Ticks(signals[..|signals| - 1]) + if signals[|signals| - 1] == Tick then 1 else 0
  }

  lemma {:induction false} TicksAre(signals: seq<Signal>)
    ensures Ticks(signals) == |set i | 0 <= i < |signals| && signals[i] == Tick|
  {
    if signals != [] {
      var n := |signals| - 1;
      TicksAre(signals[..n]);
      assert (set i | 0 <= i < n && signals[..n][i] == Tick) == set i | 0 <= i < n && signals[i] == Tick;
      TickStep(signals, n);
    }
  }

  lemma TickStep(signals: seq<Signal>, i: nat)
    requires i < |signals|
    ensures var now, before := set j | 0 <= j < i + 1 && signals[j] == Tick, set j | 0 <= j < i && signals[j] == Tick;
            |now| == |before| + if signals[i] == Tick then 1 else 0
  {
    var now, before := set j | 0 <= j < i + 1 && signals[j] == Tick, set j | 0 <= j < i && signals[j] == Tick;
    assert now == if signals[i] == Tick then before + {i} else before;
  }

  /** An approval needs an "approved" message that no other terminal signal precedes. */
  lemma ApprovedIff(signals: seq<Signal>, k: nat, ticket: string)
    requires EndsAt(signals, k)
    ensures VerdictAt(signals, k, ticket) == Decided(true, ticket)
      <==> k < |signals| && signals[k] == Message("approved")
    ensures VerdictAt(signals, k, ticket) == ApprovalTimeout <==> k == |signals| || signals[k] in {Closed, TimerFired}
  {
  }

  /** A wait ends at the first "approved", "denied", nil message or closed channel, timer or ended context,
      and at nothing else, with the verdict that belongs to it. */
  lemma WaitEndsAtFirst(signals: seq<Signal>, k: nat, ticket: string)
    requires EndsAt(signals, k)
    ensures forall j | 0 <= j < k ::
              signals[j] !in {Message("approved"), Message("denied"), Closed, TimerFired, ContextDone}
    ensures k < |signals| ==> signals[k] in {Message("approved"), Message("denied"), Closed, TimerFired, ContextDone}
    ensures VerdictAt(signals, k, ticket) == Decided(true, ticket)
      <==> k < |signals| && signals[k] == Message("approved")
    ensures VerdictAt(signals, k, ticket) == Decided(false, ticket)
      <==> k < |signals| && signals[k] == Message("denied")
    ensures VerdictAt(signals, k, ticket) == Verdict.Cancelled <==> k < |signals| && signals[k] == ContextDone
    ensures VerdictAt(signals, k, ticket) == ApprovalTimeout <==> k == |signals| || signals[k] in {Closed, TimerFired}
  {
  }

  /** The end of a wait does not depend on the ticks and unknown payloads in between. */
  lemma {:induction false} NoiseIsIgnored(signals: seq<Signal>, noise: Signal, at: nat, k: nat, ticket: string)
    requires EndsAt(signals, k) && at <= k && !Terminal(noise)
    ensures EndsAt(signals[..at] + [noise] + signals[at..], k + 1)
    ensures VerdictAt(signals[..at] + [noise] + signals[at..], k + 1, ticket) == VerdictAt(signals, k, ticket)
  {
    var noisy := signals[..at] + [noise] + signals[at..];
    forall j | 0 <= j < k + 1 ensures !Terminal(noisy[j]) {
      assert noisy[j] == if j < at then signals[j] else if j == at then noise else signals[j - 1];
    }
  }

  /** What everybody else (webhooks, other calls) does to the tickets before each signal is taken. */
  type Others = nat -> Table -> Table

  function Meanwhile(others: Others, rows: Table, n: nat): Table {
    if n == 0 then rows else others(n - 1)(Meanwhile(others, rows, n - 1))
  }

  /** Others that only send updates. */
  function Updating(updates: nat -> seq<Update>): Others {
    (i: nat) => (rows: Table) => DecideAll(rows, updates(i))
  }

  function Flat(updates: nat -> seq<Update>, n: nat): seq<Update> {
    if n == 0 then [] else Flat(updates, n - 1) + updates(n - 1)
  }

  lemma {:induction false} DecideAppend(rows: Table, a: seq<Update>, b: seq<Update>)
    ensures DecideAll(rows, a + b) == DecideAll(DecideAll(rows, a), b)
  {
    if b == [] {
      assert a + b == a;
    } else {
      DecideAppend(rows, a, b[..|b| - 1]);
      assert (a + b)[..|a + b| - 1] == a + b[..|b| - 1];
    }
  }

  lemma {:induction false} MeanwhileUpdates(updates: nat -> seq<Update>, rows: Table, n: nat)
    ensures Meanwhile(Updating(updates), rows, n) == DecideAll(rows, Flat(updates, n))
  {
    hide DecideAll;
    if n == 0 {
      NoUpdates(rows);
    } else {
      MeanwhileUpdates(updates, rows, n - 1);
      DecideAppend(rows, Flat(updates, n - 1), updates(n - 1));
    }
  }

  lemma NoUpdates(rows: Table)
    ensures DecideAll(rows, []) == rows
  {
  }

  lemma OneMoreUpdate(rows: Table, updates: seq<Update>, u: Update)
    ensures DecideAll(rows, updates + [u]) == Decide(DecideAll(rows, updates), u.id, u.status, u.decider)
  {
    assert (updates + [u])[..|updates|] == updates;
  }

  /** A wait's own "expired" update comes after everything the others did meanwhile, so that by
      Tickets.FirstDecisionWins a click during the wait stands even when the waiter never hears of it. */
  lemma ExpiryComesLast(updates: nat -> seq<Update>, rows: Table, n: nat, ticket: string)
    ensures Decide(Meanwhile(Updating(updates), rows, n), ticket, Expired, "")
            == DecideAll(rows, Flat(updates, n) + [Update(ticket, Expired, "")])
  {
    hide Decide, Meanwhile;
    MeanwhileUpdates(updates, rows, n);
    OneMoreUpdate(rows, Flat(updates, n), Update(ticket, Expired, ""));
  }

  class ApprovalBridge {
    const tickets: TicketStore
    const locker: S.SessionLocker
    var expiries: seq<string>     // the tickets this bridge tried to mark as expired

    constructor (tickets: TicketStore, locker: S.SessionLocker)
      ensures this.tickets == tickets && this.locker == locker && expiries == []
    {
      this.tickets, this.locker, this.expiries := tickets, locker, [];
    }

    /** The verdict is that of the first terminal signal. Each tick before it extends the lease once;
        the ticket is marked expired, once, exactly when the wait times out or loses its subscription.
        The tickets end as the others left them meanwhile, but for that mark. */
    method WaitForDecision(ticket: string, session: string, turn: string, signals: seq<Signal>, others: Others,
        fate: DbFate)
      returns (v: Verdict, ghost k: nat, ghost evs: seq<Event>)
      modifies this, tickets, locker.link, locker.link.server
      ensures EndsAt(signals, k) && v == VerdictAt(signals, k, ticket)
      ensures locker.link.log == old(locker.link.log) + evs && |evs| == Ticks(signals[..k])
      ensures forall e | e in evs :: e.op == ExtendSession(session, turn, Milliseconds(locker.lockTTL))
      ensures expiries == old(expiries) + if v == ApprovalTimeout then [ticket] else []
      ensures var rows := Meanwhile(others, old(tickets.rows), k + 1);
              tickets.rows ==
                if v == ApprovalTimeout && fate != NotDone then Decide(rows, ticket, Expired, "") else rows
    {
      ghost var before := locker.link.log;
      evs := [];
      for i := 0 to |signals|
        invariant forall j | 0 <= j < i :: !Terminal(signals[j])
        invariant locker.link.log == before + evs && |evs| == Ticks(signals[..i])
        invariant forall e | e in evs :: e.op == ExtendSession(session, turn, Milliseconds(locker.lockTTL))
        invariant expiries == old(expiries) && tickets.rows == Meanwhile(others, old(tickets.rows), i)
      {
        assert signals[..i + 1][..i] == signals[..i];
        tickets.Change(others(i));
        match signals[i] {
          case Closed =>
            v := HandleTimeout(ticket, fate);
            return v, i, evs;
          case Message(payload) =>
            if payload == "approved" {
              return Decided(true, ticket), i, evs;
            } else if payload == "denied" {
              return Decided(false, ticket), i, evs;
            }
          case Tick =>
            var _ := locker.Extend(session, turn);
            evs := evs + [locker.link.log[|before| + |evs|]];
          case TimerFired =>
            v := HandleTimeout(ticket, fate);
            return v, i, evs;
          case ContextDone =>
            return Verdict.Cancelled, i, evs;
        }
      }
      assert signals[..|signals|] == signals;
      tickets.Change(others(|signals|));
      v := HandleTimeout(ticket, fate);
      return v, |signals|, evs;
    }

    method HandleTimeout(ticket: string, fate: DbFate) returns (v: Verdict)
      modifies this, tickets
      ensures v == ApprovalTimeout && expiries == old(expiries) + [ticket]
      ensures tickets.rows ==
                if fate == NotDone then old(tickets.rows) else Decide(old(tickets.rows), ticket, Expired, "")
    {
      expiries := expiries + [ticket];
      var _ := tickets.UpdateStatus(ticket, Expired, "", fate);
      return ApprovalTimeout;
    }
  }

  /** The pump between the Redis channel and the wait loop: payloads in order until a nil message
      or the end of the channel, then one closing signal. */
  method Pump(messages: seq<Option<string>>) returns (out: seq<Signal>)
    ensures |out| >= 1 && out[|out| - 1] == Closed && |out| - 1 <= |messages|
    ensures forall i | 0 <= i < |out| - 1 :: messages[i].Some? && out[i] == Message(messages[i].value)
    ensures |out| - 1 < |messages| ==> messages[|out| - 1] == None
  {
    out := [];
    for i := 0 to |messages|
      invariant |out| == i
      invariant forall j | 0 <= j < i :: messages[j].Some? && out[j] == Message(messages[j].value)
    {
      if messages[i] == None {
        out := out + [Closed];
        return;
      }
      out := out + [Message(messages[i].value)];
    }
    out := out + [Closed];
  }
}
