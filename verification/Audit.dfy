/** cmd/gateway/audit.go: a bounded queue between the request handlers and one consumer. */
module Audit {
  const CAPACITY: nat := 256

  /** Which ready case the consumer's select takes when both are. */
  datatype Choice = TakeRecord | TakeDone

  /** What can happen to the writer, in any order: a handler writes a record, the consumer goes once
      round its loop, or the consumer's context ends. */
  datatype Op<T> = Write(record: T) | Turn(choice: Choice) | Cancel

  /** The queue beside what became of every record, and how far the consumer's end has come. */
  datatype State<T> = State(queue: seq<T>, attempted: seq<T>, dropped: seq<T>, cancelled: bool, returned: bool)

  /** The consumer returns when its context has ended and its select takes that case; when a record is
      ready as well it may take the record instead. */
  predicate Returns<T>(s: State<T>, choice: Choice) {
    s.cancelled && (s.queue == [] || choice == TakeDone)
  }

  function Step<T>(s: State<T>, op: Op<T>): State<T> {
    match op
    case Write(r) =>
      if |s.queue| < CAPACITY then s.(queue := s.queue + [r]) else s.(dropped := s.dropped + [r])
    case Turn(choice) =>
      if s.returned then s
      else if Returns(s, choice) then s.(returned := true)
      else if s.queue != [] then s.(queue := s.queue[1..], attempted := s.attempted + [s.queue[0]])
      else s
    case Cancel => s.(cancelled := true)
  }

  function Run<T>(ops: seq<Op<T>>): State<T> {
    if ops == [] then State([], [], [], false, false) else Step(Run(ops[..|ops| - 1]), ops[|ops| - 1])
  }

  /** The records written, in order. */
  function Written<T>(ops: seq<Op<T>>): seq<T> {
    if ops == [] then []
    else Written(ops[..|ops| - 1]) + if ops[|ops| - 1].Write? then [ops[|ops| - 1].record] else []
  }

  /** The records that found room in the queue when they were written, in order. */
  function Accepted<T>(ops: seq<Op<T>>): seq<T> {
    if ops == [] then []
    else
      var n := |ops| - 1;
      Accepted(ops[..n]) + if ops[n].Write? && |Run(ops[..n]).queue| < CAPACITY then [ops[n].record] else []
  }

  /** The records that met a full queue, in order. */
  function Rejected<T>(ops: seq<Op<T>>): seq<T> {
    if ops == [] then []
    else
      var n := |ops| - 1;
      Rejected(ops[..n]) + if ops[n].Write? && |Run(ops[..n]).queue| >= CAPACITY then [ops[n].record] else []
  }

  /** Conservation, in every interleaving of any number of writers with the consumer: the accepted
      records are the attempted inserts followed by the queue, in the order written; the dropped ones
      are exactly those that met a full queue; the queue never exceeds its capacity; and every record
      written is attempted, queued or dropped, once. */
  lemma {:induction false} Conservation<T>(ops: seq<Op<T>>)
    ensures var s := Run(ops);
            && Accepted(ops) == s.attempted + s.queue
            && Rejected(ops) == s.dropped
            && |s.queue| <= 256
            && multiset(Written(ops)) == multiset(s.attempted) + multiset(s.queue) + multiset(s.dropped)
            && |Written(ops)| == |s.attempted| + |s.queue| + |s.dropped|
  {
    QueueOrder(ops);
    EveryRecordSorted(ops);
    var s := Run(ops);
    assert multiset(s.attempted + s.queue) == multiset(s.attempted) + multiset(s.queue);
  }

  lemma {:induction false} QueueOrder<T>(ops: seq<Op<T>>)
    ensures var s := Run(ops);
            Accepted(ops) == s.attempted + s.queue && Rejected(ops) == s.dropped && |s.queue| <= CAPACITY
  {
    if ops != [] {
      var n := |ops| - 1;
      QueueOrder(ops[..n]);
      var s := Run(ops[..n]);
      match ops[n] {
        case Write(r) =>
          assert s.attempted + (s.queue + [r]) == (s.attempted + s.queue) + [r];
        case Turn(_) =>
          if s.queue != [] {
            assert (s.attempted + [s.queue[0]]) + s.queue[1..] == s.attempted + s.queue;
          }
        case Cancel =>
      }
    }
  }

  lemma {:induction false} EveryRecordSorted<T>(ops: seq<Op<T>>)
    ensures multiset(Written(ops)) == multiset(Accepted(ops)) + multiset(Rejected(ops))
    ensures |Written(ops)| == |Accepted(ops)| + |Rejected(ops)|
  {
    if ops != [] {
      EveryRecordSorted(ops[..|ops| - 1]);
    }
  }

  /** A drop means that the queue was full: 256 records written before it were still waiting. */
  lemma DropMeansFull<T>(ops: seq<Op<T>>, r: T)
    ensures Run(ops + [Write(r)]).dropped != Run(ops).dropped <==> |Run(ops).queue| == 256
    ensures Run(ops + [Write(r)]).dropped == Run(ops).dropped ==>
              Run(ops + [Write(r)]).queue == Run(ops).queue + [r]
  {
    assert (ops + [Write(r)])[..|ops|] == ops;
    Conservation(ops);
    assert |Run(ops).dropped + [r]| != |Run(ops).dropped|;
  }

  /** As long as the consumer does not prefer the end of its context, as many turns as records are waiting
      attempt all of them, in order; the turn after these returns exactly when the context has ended. */
  lemma {:induction false} TurnsDrain<T>(ops: seq<Op<T>>, turns: seq<Op<T>>)
    requires !Run(ops).returned
    requires forall t | t in turns :: t.Turn? && (t.choice == TakeRecord || !Run(ops).cancelled)
    requires |turns| <= |Run(ops).queue|
    ensures var s, k := Run(ops), |turns|;
            Run(ops + turns) == s.(queue := s.queue[k..], attempted := s.attempted + s.queue[..k])
    ensures |turns| == |Run(ops).queue| ==>
              forall choice :: Run(ops + turns + [Turn(choice)]).returned <==> Run(ops).cancelled
  {
    hide Run, Returns;
    var s := Run(ops);
    if turns == [] {
      assert ops + turns == ops;
    } else {
      var n := |turns| - 1;
      TurnsDrain(ops, turns[..n]);
      RunOne(ops + turns[..n], turns[n]);
      assert ops + turns == (ops + turns[..n]) + [turns[n]];
      assert turns[n] in turns;
      TakesOldest(s, n, turns[n]);
    }
    forall choice ensures Run(ops + turns + [Turn(choice)]) == Step(Run(ops + turns), Turn(choice)) {
      RunOne(ops + turns, Turn(choice));
    }
    if |turns| == |s.queue| {
      EmptyReturns(Run(ops + turns));
    }
  }

  lemma TakesOldest<T>(s: State<T>, n: nat, op: Op<T>)
    requires n < |s.queue| && !s.returned && op.Turn? && (op.choice == TakeRecord || !s.cancelled)
    ensures Step(s.(queue := s.queue[n..], attempted := s.attempted + s.queue[..n]), op)
         == s.(queue := s.queue[n + 1..], attempted := s.attempted + s.queue[..n + 1])
  {
    assert s.queue[n..][1..] == s.queue[n + 1..];
    assert s.queue[..n + 1] == s.queue[..n] + [s.queue[n]];
    assert s.attempted + s.queue[..n] + [s.queue[n]] == s.attempted + s.queue[..n + 1];
  }

  lemma EmptyReturns<T>(s: State<T>)
    requires s.queue == [] && !s.returned
    ensures forall choice :: Step(s, Turn(choice)).returned <==> s.cancelled
  {
  }

  /** A consumer whose context has ended may leave the records that are waiting. */
  lemma DoneLeavesQueue<T>(ops: seq<Op<T>>)
    requires Run(ops).cancelled
    ensures Run(ops + [Turn(TakeDone)]) == Run(ops).(returned := true)
  {
    RunOne(ops, Turn(TakeDone));
  }

  /** Once the consumer has returned nothing more is attempted. */
  lemma {:induction false} ReturnedAttemptsNothing<T>(ops: seq<Op<T>>, more: seq<Op<T>>)
    requires Run(ops).returned
    ensures Run(ops + more).attempted == Run(ops).attempted && Run(ops + more).returned
  {
    if more == [] {
      assert ops + more == ops;
    } else {
      var n := |more| - 1;
      ReturnedAttemptsNothing(ops, more[..n]);
      assert (ops + more)[..|ops| + n] == ops + more[..n];
    }
  }

  /** It returns only after its context has ended. */
  lemma {:induction false} ReturnNeedsCancel<T>(ops: seq<Op<T>>)
    ensures Run(ops).returned ==> Run(ops).cancelled
  {
    if ops != [] {
      ReturnNeedsCancel(ops[..|ops| - 1]);
    }
  }

  lemma RunOne<T>(ops: seq<Op<T>>, op: Op<T>)
    ensures Run(ops + [op]) == Step(Run(ops), op)
  {
    assert (ops + [op])[..|ops|] == ops;
  }

  lemma AcceptedOne<T>(ops: seq<Op<T>>, op: Op<T>)
    ensures Accepted(ops + [op]) == Accepted(ops) + if op.Write? && |Run(ops).queue| < CAPACITY then [op.record] else []
  {
    assert (ops + [op])[..|ops|] == ops;
  }

  lemma {:induction false} AttemptsGrow<T>(ops: seq<Op<T>>, more: seq<Op<T>>)
    ensures Run(ops).attempted <= Run(ops + more).attempted
  {
    if more == [] {
      assert ops + more == ops;
    } else {
      var n := |more| - 1;
      AttemptsGrow(ops, more[..n]);
      RunOne(ops + more[..n], more[n]);
      assert ops + more == (ops + more[..n]) + [more[n]];
    }
  }

  /** Operations after which these later records have been accepted, k records have been taken in all, and
      the consumer has returned. */
  ghost predicate Reached<T>(ops: seq<Op<T>>, later: seq<T>, k: nat, all: seq<Op<T>>) {
    && k <= |Run(ops).queue + later|
    && Run(all).returned
    && Run(all).attempted == Run(ops).attempted + (Run(ops).queue + later)[..k]
    && Accepted(all) == Accepted(ops) + later
  }

  lemma FirstOfQueue<T>(attempted: seq<T>, queue: seq<T>, later: seq<T>, k: nat)
    requires queue != [] && 0 < k <= |queue + later|
    ensures (attempted + [queue[0]]) + (queue[1..] + later)[..k - 1] == attempted + (queue + later)[..k]
  {
    assert queue + later == [queue[0]] + (queue[1..] + later);
    assert (queue + later)[..k] == [queue[0]] + (queue[1..] + later)[..k - 1];
  }

  lemma FirstOfLater<T>(before: seq<T>, later: seq<T>)
    requires later != []
    ensures (before + [later[0]]) + later[1..] == before + later
  {
    assert later == [later[0]] + later[1..];
  }

  lemma TakeFirst<T>(ops: seq<Op<T>>, later: seq<T>, k: nat, all: seq<Op<T>>)
    requires 0 < k <= |Run(ops).queue + later| && Run(ops).queue != [] && !Run(ops).returned
    requires Reached(ops + [Turn(TakeRecord)], later, k - 1, all)
    ensures Reached(ops, later, k, all)
  {
    hide Run, Accepted;
    RunOne(ops, Turn(TakeRecord));
    AcceptedOne(ops, Turn(TakeRecord));
    FirstOfQueue(Run(ops).attempted, Run(ops).queue, later, k);
  }

  lemma WriteFirst<T>(ops: seq<Op<T>>, later: seq<T>, k: nat, all: seq<Op<T>>)
    requires later != [] && |Run(ops).queue| < CAPACITY
    requires Reached(ops + [Write(later[0])], later[1..], k, all)
    ensures Reached(ops, later, k, all)
  {
    hide Run, Accepted;
    RunOne(ops, Write(later[0]));
    AcceptedOne(ops, Write(later[0]));
    FirstOfLater(Run(ops).queue, later);
    FirstOfLater(Accepted(ops), later);
  }

  /** A handler writes as soon as there is room, the consumer takes a record only when there is none or
      when all are written. */
  lemma {:induction false} CanReach<T>(ops: seq<Op<T>>, later: seq<T>, k: nat) returns (more: seq<Op<T>>)
    requires Run(ops).cancelled && !Run(ops).returned
    requires k <= |Run(ops).queue + later| <= k + CAPACITY && |Run(ops).queue| <= CAPACITY
    ensures Reached(ops, later, k, ops + more)
    decreases |later|, k
  {
    hide Reached, Run;
    if later == [] && k == 0 {
      more := [Turn(TakeDone)];
      ReturnAtOnce(ops);
    } else if later == [] || |Run(ops).queue| == CAPACITY {
      RunOne(ops, Turn(TakeRecord));
      var rest := CanReach(ops + [Turn(TakeRecord)], later, k - 1);
      more := [Turn(TakeRecord)] + rest;
      assert (ops + [Turn(TakeRecord)]) + rest == ops + more;
      TakeFirst(ops, later, k, ops + more);
    } else {
      RunOne(ops, Write(later[0]));
      var rest := CanReach(ops + [Write(later[0])], later[1..], k);
      more := [Write(later[0])] + rest;
      assert (ops + [Write(later[0])]) + rest == ops + more;
      WriteFirst(ops, later, k, ops + more);
    }
  }

  lemma ReturnAtOnce<T>(ops: seq<Op<T>>)
    requires Run(ops).cancelled && !Run(ops).returned
    ensures Reached(ops, [], 0, ops + [Turn(TakeDone)])
  {
    RunOne(ops, Turn(TakeDone));
    AcceptedOne(ops, Turn(TakeDone));
  }

  /** What a cancelled consumer may still attempt, exactly. Whatever happens until it has returned, with
      these later records accepted meanwhile: it attempts some beginning of the queue followed by them, in
      order, from nothing to all, as long as what it leaves behind fits the queue. */
  lemma CancelledMayAttemptIff<T>(ops: seq<Op<T>>, later: seq<T>, attempted: seq<T>)
    requires Run(ops).cancelled && !Run(ops).returned
    ensures var s := Run(ops);
            (exists more :: && Run(ops + more).returned && Run(ops + more).attempted == attempted
                            && Accepted(ops + more) == Accepted(ops) + later)
            <==> && s.attempted <= attempted <= s.attempted + s.queue + later
                 && |s.attempted + s.queue + later| - |attempted| <= 256
  {
    var s := Run(ops);
    QueueOrder(ops);
    assert (s.attempted + s.queue) + later == s.attempted + (s.queue + later);
    if s.attempted <= attempted <= s.attempted + s.queue + later
       && |s.attempted + s.queue + later| - |attempted| <= CAPACITY {
      var k := |attempted| - |s.attempted|;
      var more := CanReach(ops, later, k);
      assert attempted == s.attempted + (s.queue + later)[..k];
    }
    forall more: seq<Op<T>> | Run(ops + more).attempted == attempted && Accepted(ops + more) == Accepted(ops) + later
      ensures s.attempted <= attempted <= s.attempted + s.queue + later
      ensures |s.attempted + s.queue + later| - |attempted| <= CAPACITY
    {
      QueueOrder(ops + more);
      AttemptsGrow(ops, more);
    }
  }

  class AuditWriter<T> {
    var ch: seq<T>
    var attempted: seq<T>
    var dropped: seq<T>
    var cancelled: bool
    var returned: bool

    constructor ()
      ensures View() == State([], [], [], false, false)
    {
      ch, attempted, dropped, cancelled, returned := [], [], [], false, false;
    }

    ghost function View(): State<T>
      reads this
    {
      State(ch, attempted, dropped, cancelled, returned)
    }

    /** A select with default: never blocks. */
    method Write(record: T)
      modifies this
      ensures View() == Step(old(View()), Op.Write(record))
    {
      if |ch| < CAPACITY {
        ch := ch + [record];
      } else {
        dropped := dropped + [record];
      }
    }

    /** Once round the consumer's loop; a select without a ready case waits. A failed insert is only
        logged. */
    method Turn(choice: Choice, inserted: bool)
      modifies this
      ensures View() == Step(old(View()), Op.Turn(choice))
    {
      if returned {
        return;
      }
      if cancelled && (|ch| == 0 || choice == TakeDone) {
        returned := true;
      } else if |ch| > 0 {
        var record := ch[0];
        ch := ch[1..];
        attempted := attempted + [record];
      }
    }

    method Cancel()
      modifies this
      ensures View() == Step(old(View()), Op.Cancel)
    {
      cancelled := true;
    }
  }
}
