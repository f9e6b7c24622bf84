/** core/mcp/pipeline.go: handlers in registration order before a terminal handler. A handler is a
    function of the shared state and the request, either of which it may change. */
module Pipeline {
  import opened Wrappers

  datatype Turn<+S, +Q, +R, +E> = Turn(state: S, req: Q, resp: Option<R>, err: Option<E>)

  type Handler<!S, !Q, R, E> = (S, Q) -> Turn<S, Q, R, E>

  /** Neither a response nor an error: go on to the next handler. */
  predicate Passes<S, Q, R, E>(t: Turn<S, Q, R, E>) {
    t.resp.None? && t.err.None?
  }

  function RunAll<S, Q, R, E>(handlers: seq<Handler<S, Q, R, E>>, terminal: Handler<S, Q, R, E>, s: S,
      q: Q): Turn<S, Q, R, E> {
    if handlers == [] then terminal(s, q)
    else
      var t := handlers[0](s, q);
      if Passes(t) then RunAll(handlers[1..], terminal, t.state, t.req) else t
  }

  /** The turn of handler k when it is reached; its state and request are those left by the ones before. */
  function Input<S, Q, R, E>(handlers: seq<Handler<S, Q, R, E>>, s: S, q: Q, k: nat): (S, Q)
    requires k <= |handlers|
  {
    if k == 0 then (s, q)
    else
      var before := Input(handlers, s, q, k - 1);
      var t := handlers[k - 1](before.0, before.1);
      (t.state, t.req)
  }

  function TurnOf<S, Q, R, E>(handlers: seq<Handler<S, Q, R, E>>, s: S, q: Q, k: nat): Turn<S, Q, R, E>
    requires k < |handlers|
  {
    handlers[k](Input(handlers, s, q, k).0, Input(handlers, s, q, k).1)
  }

  ghost predicate AllPass<S, Q, R, E>(handlers: seq<Handler<S, Q, R, E>>, s: S, q: Q, k: nat)
    requires k <= |handlers|
  {
    forall j | 0 <= j < k :: TurnOf(handlers, s, q, j).resp.None? && TurnOf(handlers, s, q, j).err.None?
  }

  lemma {:induction false} InputShift<S, Q, R, E>(handlers: seq<Handler<S, Q, R, E>>, s: S, q: Q, k: nat)
    requires handlers != [] && k < |handlers|
    ensures var t := handlers[0](s, q); Input(handlers, s, q, k + 1) == Input(handlers[1..], t.state, t.req, k)
  {
    if k > 0 {
      InputShift(handlers, s, q, k - 1);
    }
  }

  /** The outcome of a run is that of the first handler that does not pass, and of the terminal
      handler, on what all the others left, exactly when every handler passes. */
  lemma {:induction false} RunStopsAtFirst<S, Q, R, E>(
    handlers: seq<Handler<S, Q, R, E>>, terminal: Handler<S, Q, R, E>, s: S, q: Q, k: nat)
    requires k <= |handlers| && AllPass(handlers, s, q, k)
    requires k < |handlers| ==> TurnOf(handlers, s, q, k).resp.Some? || TurnOf(handlers, s, q, k).err.Some?
    ensures RunAll(handlers, terminal, s, q) ==
            if k < |handlers| then TurnOf(handlers, s, q, k)
            else terminal(Input(handlers, s, q, k).0, Input(handlers, s, q, k).1)
    decreases |handlers|
  {
    if handlers != [] && k > 0 {
      assert Passes(TurnOf(handlers, s, q, 0));
      var t := handlers[0](s, q);
      forall j | 0 <= j < |handlers| - 1
        ensures TurnOf(handlers[1..], t.state, t.req, j) == TurnOf(handlers, s, q, j + 1)
      {
        InputShift(handlers, s, q, j);
      }
      InputShift(handlers, s, q, k - 1);
      forall j | 0 <= j < k - 1
        ensures var turn := TurnOf(handlers[1..], t.state, t.req, j); turn.resp.None? && turn.err.None?
      {
        assert Passes(TurnOf(handlers, s, q, j + 1));
      }
      RunStopsAtFirst(handlers[1..], terminal, t.state, t.req, k - 1);
    }
  }

  class Pipeline<S, Q, R, E> {
    var handlers: seq<Handler<S, Q, R, E>>
    const terminal: Handler<S, Q, R, E>

    constructor (terminal: Handler<S, Q, R, E>)
      ensures this.terminal == terminal && handlers == []
    {
      this.terminal, this.handlers := terminal, [];
    }

    method Use(h: Handler<S, Q, R, E>)
      modifies this
      ensures handlers == old(handlers) + [h]
    {
      handlers := handlers + [h];
    }

    method Run(s: S, q: Q) returns (t: Turn<S, Q, R, E>)
      ensures t == RunAll(handlers, terminal, s, q)
    {
      var state, req := s, q;
      for i := 0 to |handlers|
        invariant RunAll(handlers, terminal, s, q) == RunAll(handlers[i..], terminal, state, req)
      {
        t := handlers[i](state, req);
        assert handlers[i..][1..] == handlers[i + 1..];
        if t.resp.Some? || t.err.Some? {
          return t;
        }
        state, req := t.state, t.req;
      }
      assert handlers[|handlers|..] == [];
      t := terminal(state, req);
    }
  }
}
