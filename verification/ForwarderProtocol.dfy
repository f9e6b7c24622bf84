/** Any number of calls sharing one forwarder: each reads the cached session, posts, and updates the
    cache when its reply lands; between the two the other calls go on. */
module ForwarderProtocol {
  import opened Wrappers
  import opened Forwarder

  datatype Call = Call(request: Request, log: seq<Attempt>, flying: Option<string>)

  /** The cache, the sessions initialize replies have given, those turned away, and the calls. */
  datatype State = State(cached: string, issued: set<string>, refused: set<string>, calls: map<nat, Call>)

  datatype Step = Begin(id: nat, request: Request) | Depart(id: nat) | Land(id: nat, reply: Reply)

  const START := State("", {}, {}, map[])

  predicate Due(json: Json, c: Call) {
    c.flying.None? && Next(json, c.request, c.log).Send?
  }

  predicate Flying(json: Json, c: Call) {
    c.flying.Some? && Next(json, c.request, c.log).Send?
  }

  function LandedAttempt(json: Json, c: Call, reply: Reply): Attempt
    requires Flying(json, c)
  {
    Attempt(Next(json, c.request, c.log).request, c.flying.value, reply)
  }

  function Landed(json: Json, s: State, id: nat, reply: Reply): State
    requires id in s.calls && Flying(json, s.calls[id])
  {
    var c := s.calls[id];
    var a := LandedAttempt(json, c, reply);
    State(CacheAfter(s.cached, a),
          s.issued + (if Initializes(a.request) && reply.Http? && reply.session != "" then {reply.session} else {}),
          s.refused + (if Stale(a) then {a.session} else {}),
          s.calls[id := Call(c.request, c.log + [a], None)])
  }

  /** A step that is not possible changes nothing. */
  function Apply(json: Json, s: State, step: Step): State {
    match step
    case Begin(id, request) => if id in s.calls then s else s.(calls := s.calls[id := Call(request, [], None)])
    case Depart(id) =>
      if id in s.calls && Due(json, s.calls[id])
        then s.(calls := s.calls[id := s.calls[id].(flying := Some(s.cached))]) else s
    case Land(id, reply) =>
      if id in s.calls && Flying(json, s.calls[id]) then Landed(json, s, id, reply) else s
  }

  function Run(json: Json, steps: seq<Step>): State {
    if steps == [] then START else Apply(json, Run(json, steps[..|steps| - 1]), steps[|steps| - 1])
  }

  predicate Known(s: State, session: string) {
    session == "" || session in s.issued
  }

  predicate LogKnown(s: State, log: seq<Attempt>) {
    forall a | a in log :: Known(s, a.session)
  }

  ghost predicate CallKept(json: Json, s: State, c: Call) {
    && Legal(json, c.request, c.log)
    && LogKnown(s, c.log)
    && (c.flying.Some? ==> Known(s, c.flying.value) && Next(json, c.request, c.log).Send?)
  }

  ghost predicate Inv(json: Json, s: State) {
    && Known(s, s.cached)
    && s.refused <= s.issued
    && "" !in s.issued
    && forall id | id in s.calls :: CallKept(json, s, s.calls[id])
  }

  lemma LandKeeps(json: Json, s: State, id: nat, reply: Reply)
    requires Inv(json, s) && id in s.calls && Flying(json, s.calls[id])
    ensures Inv(json, Landed(json, s, id, reply))
  {
    var c, t := s.calls[id], Landed(json, s, id, reply);
    var a := LandedAttempt(json, c, reply);
    assert CallKept(json, s, c);
    assert (c.log + [a])[..|c.log|] == c.log;
    forall k | k in t.calls ensures CallKept(json, t, t.calls[k]) {
      if k != id {
        assert CallKept(json, s, s.calls[k]);
      }
    }
  }

  lemma ApplyKeeps(json: Json, s: State, step: Step)
    requires Inv(json, s)
    ensures Inv(json, Apply(json, s, step))
  {
    var t := Apply(json, s, step);
    if step.Land? {
      if step.id in s.calls && Flying(json, s.calls[step.id]) {
        LandKeeps(json, s, step.id, step.reply);
      }
    } else {
      forall k | k in t.calls ensures CallKept(json, t, t.calls[k]) {
        if k in s.calls {
          assert CallKept(json, s, s.calls[k]);
        }
      }
    }
  }

  lemma {:induction false} RunKeeps(json: Json, steps: seq<Step>)
    ensures Inv(json, Run(json, steps))
  {
    if steps != [] {
      RunKeeps(json, steps[..|steps| - 1]);
      ApplyKeeps(json, Run(json, steps[..|steps| - 1]), steps[|steps| - 1]);
    }
  }

  /** Over every interleaving of any number of calls: the cached session, and the session of every
      post, is empty or was given by an initialize reply; and every call makes at most three posts, of
      which at most one post of its own request may have been carried out. */
  lemma SharedForwarderIsSafe(json: Json, steps: seq<Step>)
    ensures var s := Run(json, steps);
            && Known(s, s.cached)
            && (forall id | id in s.calls :: LogKnown(s, s.calls[id].log) && |s.calls[id].log| <= 3)
            && (forall id, i, j | id in s.calls && 0 <= i < j < |s.calls[id].log| ::
                  s.calls[id].log[i].request == s.calls[id].request == s.calls[id].log[j].request
                  ==> !MaybeCarriedOut(s.calls[id].log[i]))
  {
    var s := Run(json, steps);
    RunKeeps(json, steps);
    forall id | id in s.calls
      ensures LogKnown(s, s.calls[id].log) && |s.calls[id].log| <= 3
    {
      assert CallKept(json, s, s.calls[id]);
      LegalShape(json, s.calls[id].request, s.calls[id].log);
    }
    forall id, i, j | id in s.calls && 0 <= i < j < |s.calls[id].log|
                      && s.calls[id].log[i].request == s.calls[id].request == s.calls[id].log[j].request
      ensures !MaybeCarriedOut(s.calls[id].log[i])
    {
      assert CallKept(json, s, s.calls[id]);
      AtMostOnce(json, s.calls[id].request, s.calls[id].log, i, j);
    }
  }

  /** A landing reply loses a session that upstream never turned away exactly when it is a stale
      rejection of another session than the cached one, or an initialize replaces it. */
  lemma FreshSessionLostIff(json: Json, s: State, id: nat, reply: Reply)
    requires Inv(json, s) && id in s.calls && Flying(json, s.calls[id])
    requires s.cached != "" && s.cached !in s.refused
    ensures var a, t := LandedAttempt(json, s.calls[id], reply), Landed(json, s, id, reply);
            && (t.cached == "" && s.cached !in t.refused <==> Stale(a) && a.session != s.cached)
            && (t.cached != s.cached && t.cached != "" ==> Initializes(a.request) && t.cached == reply.session)
  {
  }

  // ---------- a fresh session thrown away ----------

  /** An initialize reply that gives a session. */
  function Issue(session: string, text: string): Reply {
    Http(200, session, false, text, true)
  }

  function Gone(): Reply {
    Http(404, "", false, "", true)
  }

  lemma ReinitializeInitializes(r: Request)
    ensures Initializes(Reinitialize(r))
  {
  }

  lemma RunOne(json: Json, steps: seq<Step>, step: Step)
    ensures Run(json, steps + [step]) == Apply(json, Run(json, steps), step)
  {
    assert (steps + [step])[..|steps|] == steps;
  }

  /** Two calls fly under the cached session. */
  predicate TwoUnderOneSession(json: Json, s: State, i: nat, j: nat) {
    && i != j && i in s.calls && j in s.calls && s.cached != ""
    && s.calls[i] == Call(s.calls[i].request, [], Some(s.cached)) && !Initializes(s.calls[i].request)
    && s.calls[j] == Call(s.calls[j].request, [], Some(s.cached)) && !Initializes(s.calls[j].request)
  }

  lemma OpenSession(json: Json, hello: Request, session: string, text: string)
    requires Initializes(hello) && session != ""
    ensures var s := Run(json, [Begin(0, hello), Depart(0), Land(0, Issue(session, text))]);
            s.cached == session && s.calls.Keys == {0}
  {
    hide Initializes;
    var p := [Begin(0, hello)];
    RunOne(json, [], Begin(0, hello));
    assert [] + [Begin(0, hello)] == p;
    assert Run(json, p).calls == map[0 := Call(hello, [], None)];
    RunOne(json, p, Depart(0));
    assert Run(json, p + [Depart(0)]).calls == map[0 := Call(hello, [], Some(""))];
    RunOne(json, p + [Depart(0)], Land(0, Issue(session, text)));
    assert p + [Depart(0)] + [Land(0, Issue(session, text))]
      == [Begin(0, hello), Depart(0), Land(0, Issue(session, text))];
  }

  lemma BothDepart(json: Json, s: State, first: Request, second: Request)
    requires s.cached != "" && s.calls.Keys == {0}
    requires !Initializes(first) && !Initializes(second)
    ensures TwoUnderOneSession(json,
      Apply(json, Apply(json, Apply(json, Apply(json, s, Begin(1, first)), Begin(2, second)), Depart(1)), Depart(2)),
      1, 2)
  {
    hide Initializes;
  }

  /** Such a state is reached from the start, whatever the requests and the session. */
  lemma TwoCanShareASession(json: Json, hello: Request, first: Request, second: Request, session: string, text: string)
    requires Initializes(hello) && !Initializes(first) && !Initializes(second) && session != ""
    ensures exists steps :: TwoUnderOneSession(json, Run(json, steps), 1, 2) && Run(json, steps).cached == session
  {
    hide Initializes, TwoUnderOneSession;
    var p := [Begin(0, hello), Depart(0), Land(0, Issue(session, text))];
    OpenSession(json, hello, session, text);
    BothDepart(json, Run(json, p), first, second);
    RunOne(json, p, Begin(1, first));
    RunOne(json, p + [Begin(1, first)], Begin(2, second));
    RunOne(json, p + [Begin(1, first)] + [Begin(2, second)], Depart(1));
    RunOne(json, p + [Begin(1, first)] + [Begin(2, second)] + [Depart(1)], Depart(2));
    var steps := p + [Begin(1, first)] + [Begin(2, second)] + [Depart(1)] + [Depart(2)];
    assert TwoUnderOneSession(json, Run(json, steps), 1, 2);
  }

  /** Upstream forgets their session, and the second rejection lands after the first call has been
      given a new one: the cache is emptied of the new session, which upstream has not turned away. */
  lemma LateRejectionDropsFreshSession(json: Json, s: State, i: nat, j: nat, renewed: string, text: string)
    requires TwoUnderOneSession(json, s, i, j)
    requires renewed != "" && renewed != s.cached && renewed !in s.refused && json(text).Some?
    ensures var given := Apply(json, Apply(json, Apply(json, s, Land(i, Gone())), Depart(i)),
      Land(i, Issue(renewed, text)));
            var late := Apply(json, given, Land(j, Gone()));
            && given.cached == renewed && renewed !in given.refused
            && late.cached == "" && renewed !in late.refused
  {
    hide Initializes, Reinitialize;
    ReinitializeInitializes(s.calls[i].request);
    var away := Apply(json, s, Land(i, Gone()));
    var again := Apply(json, away, Depart(i));
    assert again.calls[i].flying == Some("") && again.calls[j] == s.calls[j];
    var given := Apply(json, again, Land(i, Issue(renewed, text)));
    assert given.calls[j] == s.calls[j] && given.cached == renewed;
  }
}
