/** cmd/eval-runner/stream.go and execution.go: an evaluation suite run case by case, each event
    written to the response as it happens. */
module Stream {
  import opened Wrappers
  import opened Sse
  import opened TraceChecks
  import R = Report

  datatype Payload =
    | CaseStart(name: string, index: nat, total: nat)
    | CaseFinish(index: nat, total: nat, result: CaseResult)
    | Summary(passed: bool, passCount: nat, totalCount: nat, cases: seq<CaseResult>, report: string)

  /** What a run of the agent gives: the case's audit trace, or an error. */
  datatype Outcome = Traced(trace: seq<TraceRow>) | Failed(error: string)

  // ---------- results ----------

  /** A result that reports its case faithfully. */
  ghost predicate Judges(c: EvalCase, o: Outcome, r: CaseResult) {
    match o
    case Traced(trace) => Reports(c, trace, r) && (r.passed <==> Meets(c, trace))
    case Failed(error) =>
      r == CaseResult(c.name, false, [CheckFailure("run", "case completes successfully", error)], [])
  }

  method RunEvalCase(c: EvalCase, o: Outcome) returns (r: CaseResult)
    ensures Judges(c, o, r)
  {
    if o.Failed? {
      return CaseResult(c.name, false, [CheckFailure("run", "case completes successfully", o.error)], []);
    }
    r := Evaluate(c, o.trace);
  }

  /** The summary of finished results. */
  ghost predicate Summarizes(p: Payload, results: seq<CaseResult>) {
    && p.Summary?
    && p.cases == results
    && p.totalCount == |results|
    && p.passCount == |set i | 0 <= i < |results| && results[i].passed|
    && (p.passed <==> forall r | r in results :: r.passed)
    && p.report == R.ReportOf(results)
  }

  method SummarizeResults(results: seq<CaseResult>) returns (p: Payload)
    ensures Summarizes(p, results)
  {
    var passCount := 0;
    for i := 0 to |results|
      invariant passCount == R.PassedCount(results[..i])
    {
      assert results[..i + 1][..i] == results[..i];
      if results[i].passed {
        passCount := passCount + 1;
      }
    }
    assert results[..|results|] == results;
    R.PassedCountIs(results);
    R.CountsAddUp(results);
    var report := R.GenerateReport(results);
    return Summary(passCount == |results|, passCount, |results|, results, report);
  }

  /** The summary's verdict, the report's last line and the exit code agree. */
  lemma SummaryAgreesWithReport(p: Payload, results: seq<CaseResult>)
    requires Summarizes(p, results)
    ensures var lines := SplitLines(p.report); p.passed <==> lines[|lines| - 1] == "PASS"
    ensures p.passed <==> p.passCount == p.totalCount
  {
    R.VerdictMatchesExitCode(results);
    R.CountsAddUp(results);
    R.PassedCountIs(results);
  }

  // ---------- the response ----------

  /** The connection: each write is taken whole or breaks off after some characters. */
  class ResponseWriter {
    const flushes: bool
    const breaks: map<nat, nat>
    var writes: nat
    var body: string

    constructor (flushes: bool, breaks: map<nat, nat>)
      ensures this.flushes == flushes && this.breaks == breaks && writes == 0 && body == ""
    {
      this.flushes, this.breaks, writes, body := flushes, breaks, 0, "";
    }

    method Write(text: string) returns (ok: bool)
      modifies this
      ensures writes == old(writes) + 1 && (ok <==> old(writes) !in breaks)
      ensures ok ==> body == old(body) + text
      ensures !ok ==> exists k :: 0 <= k <= |text| && body == old(body) + text[..k]
    {
      ok := writes !in breaks;
      if ok {
        body := body + text;
      } else {
        var k := if breaks[writes] <= |text| then breaks[writes] else |text|;
        body := body + text[..k];
      }
      writes := writes + 1;
    }
  }

  type Marshal = Payload -> Option<string>

  function NameOf(p: Payload): string {
    match p
    case CaseStart(_, _, _) => "case_start"
    case CaseFinish(_, _, _) => "case_result"
    case Summary(_, _, _, _, _) => "summary"
  }

  /** The event a payload becomes; a payload that cannot be encoded becomes none. */
  function EventOf(json: Marshal, p: Payload): Option<Event> {
    match json(p)
    case None => None
    case Some(data) => Some(Event(NameOf(p), data))
  }

  /** Each kind of payload goes out under its own event name, with the text that encodes it. */
  lemma EventsAre(json: Marshal, p: Payload, data: string)
    ensures json(p) == None <==> EventOf(json, p) == None
    ensures EventOf(json, p) == Some(Event("case_start", data)) <==> json(p) == Some(data) && p.CaseStart?
    ensures EventOf(json, p) == Some(Event("case_result", data)) <==> json(p) == Some(data) && p.CaseFinish?
    ensures EventOf(json, p) == Some(Event("summary", data)) <==> json(p) == Some(data) && p.Summary?
  {
    assert "summary"[0] != "case_start"[0] && "summary"[0] != "case_result"[0];
    assert "case_start"[5] != "case_result"[5];
  }

  /** A failed write leaves a beginning of the event, or all of it when only the flush is missing. */
  method WriteSSE(w: ResponseWriter, json: Marshal, p: Payload) returns (ok: bool, ghost cut: string)
    modifies w
    ensures var e := EventOf(json, p);
            && (ok ==> e.Some? && w.flushes && cut == "" && w.body == old(w.body) + Printed(e.value))
            && (!ok ==> w.body == old(w.body) + cut && cut <= (if e.Some? then Printed(e.value) else ""))
            && (ok <==> e.Some? && w.flushes && old(w.writes) !in w.breaks)
            && w.writes == old(w.writes) + if e.Some? then 1 else 0
  {
    var data := json(p);
    if data.None? {
      return false, "";
    }
    var e := Event(NameOf(p), data.value);
    var sent := w.Write(Printed(e));
    if !sent {
      ghost var k :| 0 <= k <= |Printed(e)| && w.body == old(w.body) + Printed(e)[..k];
      return false, Printed(e)[..k];
    }
    if !w.flushes {
      return false, Printed(e);
    }
    return true, "";
  }

  // ---------- the suite ----------

  /** The payloads of finished cases, in order. */
  function Played(cases: seq<EvalCase>, results: seq<CaseResult>): seq<Payload>
    requires |results| <= |cases|
  {
    if results == [] then []
    else
      var n := |results| - 1;
      Played(cases, results[..n]) + [CaseStart(cases[n].name, n, |cases|), CaseFinish(n, |cases|, results[n])]
  }

  /** Case i is announced in place 2i, with its name, and reported in the next place, with its result. */
  lemma {:induction false} PlayedAt(cases: seq<EvalCase>, results: seq<CaseResult>, i: nat)
    requires i < |results| <= |cases|
    ensures var played := Played(cases, results);
            && |played| == 2 * |results|
            && played[2 * i] == CaseStart(cases[i].name, i, |cases|)
            && played[2 * i + 1] == CaseFinish(i, |cases|, results[i])
  {
    var n := |results| - 1;
    if n > 0 {
      PlayedAt(cases, results[..n], if i < n then i else 0);
    }
  }

  function EventsOf(json: Marshal, ps: seq<Payload>): seq<Event>
    requires forall p | p in ps :: EventOf(json, p).Some?
  {
    if ps == [] then [] else EventsOf(json, ps[..|ps| - 1]) + [EventOf(json, ps[|ps| - 1]).value]
  }

  lemma {:induction false} PrintedAppend(events: seq<Event>, e: Event)
    ensures PrintedAll(events + [e]) == PrintedAll(events) + Printed(e)
  {
    if events == [] {
      assert events + [e] == [e] && [e][1..] == [];
    } else {
      assert (events + [e])[1..] == events[1..] + [e];
      PrintedAppend(events[1..], e);
    }
  }

  lemma SentStep(json: Marshal, ps: seq<Payload>, p: Payload)
    requires forall q | q in ps + [p] :: EventOf(json, q).Some?
    ensures forall q | q in ps :: EventOf(json, q).Some?
    ensures EventsOf(json, ps + [p]) == EventsOf(json, ps) + [EventOf(json, p).value]
    ensures PrintedAll(EventsOf(json, ps + [p])) == PrintedAll(EventsOf(json, ps)) + Printed(EventOf(json, p).value)
  {
    assert (ps + [p])[..|ps|] == ps;
    forall q | q in ps ensures EventOf(json, q).Some? {
      assert q in ps + [p];
    }
    assert p in ps + [p];
    PrintedAppend(EventsOf(json, ps), EventOf(json, p).value);
  }

  /** How a stream stands: these payloads were sent whole, in this order, then perhaps a beginning of
      the one that follows. */
  ghost predicate Streamed(json: Marshal, before: string, body: string, sent: seq<Payload>, next: Payload,
      cut: string) {
    && (forall p | p in sent :: EventOf(json, p).Some?)
    && body == before + PrintedAll(EventsOf(json, sent)) + cut
    && cut <= (if EventOf(json, next).Some? then Printed(EventOf(json, next).value) else "")
  }

  lemma StreamedOne(json: Marshal, before: string, was: string, sent: seq<Payload>, p: Payload, next: Payload,
      cut: string)
    requires Streamed(json, before, was, sent, p, "") && EventOf(json, p).Some?
    requires cut <= if EventOf(json, next).Some? then Printed(EventOf(json, next).value) else ""
    ensures Streamed(json, before, was + Printed(EventOf(json, p).value) + cut, sent + [p], next, cut)
  {
    hide Printed;
    SentStep(json, sent, p);
    var text := PrintedAll(EventsOf(json, sent));
    assert before + text + "" == before + text;
    assert before + text + Printed(EventOf(json, p).value) == before + (text + Printed(EventOf(json, p).value));
  }

  ghost predicate AllJudged(cases: seq<EvalCase>, outcomes: seq<Outcome>, results: seq<CaseResult>) {
    && |results| <= |cases| == |outcomes|
    && forall i | 0 <= i < |results| :: Judges(cases[i], outcomes[i], results[i])
  }

  /** The state between two cases. */
  ghost predicate Sofar(json: Marshal, cases: seq<EvalCase>, outcomes: seq<Outcome>, before: string, body: string,
      results: seq<CaseResult>, sent: seq<Payload>) {
    && AllJudged(cases, outcomes, results)
    && sent == Played(cases, results) && |sent| == 2 * |results|
    && forall next :: Streamed(json, before, body, sent, next, "")
  }

  function StartOf(cases: seq<EvalCase>, i: nat): Payload
    requires i < |cases|
  {
    CaseStart(cases[i].name, i, |cases|)
  }

  lemma NothingYet(json: Marshal, cases: seq<EvalCase>, outcomes: seq<Outcome>, before: string)
    requires |outcomes| == |cases|
    ensures Sofar(json, cases, outcomes, before, before, [], [])
  {
    assert before + PrintedAll(EventsOf(json, [])) + "" == before;
  }

  lemma JudgedOne(cases: seq<EvalCase>, outcomes: seq<Outcome>, results: seq<CaseResult>, r: CaseResult)
    requires AllJudged(cases, outcomes, results) && |results| < |cases|
    requires Judges(cases[|results|], outcomes[|results|], r)
    ensures AllJudged(cases, outcomes, results + [r])
  {
  }

  /** Both of a case's events went out. */
  lemma WholeCase(json: Marshal, cases: seq<EvalCase>, outcomes: seq<Outcome>, before: string, was: string,
                  results: seq<CaseResult>, sent: seq<Payload>, r: CaseResult)
    requires Sofar(json, cases, outcomes, before, was, results, sent) && |results| < |cases|
    requires Judges(cases[|results|], outcomes[|results|], r)
    requires EventOf(json, StartOf(cases, |results|)).Some? && EventOf(json, CaseFinish(|results|, |cases|, r)).Some?
    ensures var start, finish := StartOf(cases, |results|), CaseFinish(|results|, |cases|, r);
            Sofar(json, cases, outcomes, before,
                  was + Printed(EventOf(json, start).value) + Printed(EventOf(json, finish).value),
                  results + [r], sent + [start] + [finish])
  {
    hide Printed;
    var start, finish := StartOf(cases, |results|), CaseFinish(|results|, |cases|, r);
    JudgedOne(cases, outcomes, results, r);
    PlayedOne(cases, results, r);
    StreamedOne(json, before, was, sent, start, finish, "");
    var half := was + Printed(EventOf(json, start).value);
    assert half + "" == half;
    forall next
      ensures Streamed(json, before, half + Printed(EventOf(json, finish).value), sent + [start] + [finish], next, "")
    {
      StreamedOne(json, before, half, sent + [start], finish, next, "");
      assert half + Printed(EventOf(json, finish).value) + "" == half + Printed(EventOf(json, finish).value);
    }
  }

  predicate Unbroken(breaks: map<nat, nat>, from: nat, count: nat) {
    forall j | from <= j < from + count :: j !in breaks
  }

  /** One case: announced, run, reported. How many of the two events went out whole is the second result. */
  method StreamCase(w: ResponseWriter, json: Marshal, start: Payload, i: nat, total: nat, c: EvalCase, o: Outcome)
    returns (result: CaseResult, whole: nat, ghost cut: string)
    modifies w
    ensures whole <= 2 && w.writes >= old(w.writes) + whole && Unbroken(w.breaks, old(w.writes), whole)
    ensures whole > 0 ==> w.flushes && EventOf(json, start).Some? && Judges(c, o, result)
    ensures whole == 0 ==> w.body == old(w.body) + cut && Cut(w, json, start, cut, old(w.writes))
    ensures whole == 1 ==> && w.body == old(w.body) + Printed(EventOf(json, start).value) + cut
                           && Cut(w, json, CaseFinish(i, total, result), cut, old(w.writes) + 1)
    ensures whole == 2 ==> && EventOf(json, CaseFinish(i, total, result)).Some? && w.writes == old(w.writes) + 2
                           && w.body == old(w.body) + Printed(EventOf(json, start).value)
                                        + Printed(EventOf(json, CaseFinish(i, total, result)).value)
  {
    result, whole := CaseResult("", false, [], []), 0;
    var ok;
    ok, cut := WriteSSE(w, json, start);
    if !ok {
      return;
    }
    result := RunEvalCase(c, o);
    whole := 1;
    ok, cut := WriteSSE(w, json, CaseFinish(i, total, result));
    if ok {
      whole := 2;
    }
  }

  /** What a failed write leaves behind, and why it failed. */
  ghost predicate Cut(w: ResponseWriter, json: Marshal, p: Payload, cut: string, write: nat) {
    var e := EventOf(json, p);
    && cut <= (if e.Some? then Printed(e.value) else "")
    && (e.None? || !w.flushes || write in w.breaks)
  }

  /** Where a stream can end: before a case's announcement, between it and the result, or at the
      summary. */
  ghost predicate EndsAt(cases: seq<EvalCase>, results: seq<CaseResult>, sent: seq<Payload>, next: Payload)
    requires |results| <= |cases|
  {
    || (|results| < |cases| && sent == Played(cases, results)
      && next == CaseStart(cases[|results|].name, |results|, |cases|))
    || (|results| > 0 && sent + [next] == Played(cases, results))
    || (|results| == |cases| && sent == Played(cases, results) && Summarizes(next, results))
  }

  lemma PlayedOne(cases: seq<EvalCase>, results: seq<CaseResult>, r: CaseResult)
    requires |results| < |cases|
    ensures var i := |results|;
            Played(cases, results + [r])
                == Played(cases, results) + [CaseStart(cases[i].name, i, |cases|)] + [CaseFinish(i, |cases|, r)]
  {
    assert (results + [r])[..|results|] == results;
  }

  /** What went out in order, and where it ended. */
  ghost predicate Ended(json: Marshal, cases: seq<EvalCase>, outcomes: seq<Outcome>, before: string, body: string,
                        results: seq<CaseResult>, sent: seq<Payload>, next: Payload, cut: string) {
    && AllJudged(cases, outcomes, results)
    && Streamed(json, before, body, sent, next, cut)
    && EndsAt(cases, results, sent, next)
  }

  lemma StoppedBefore(json: Marshal, cases: seq<EvalCase>, outcomes: seq<Outcome>, before: string, was: string,
                      results: seq<CaseResult>, sent: seq<Payload>, next: Payload, cut: string)
    requires Sofar(json, cases, outcomes, before, was, results, sent)
    requires cut <= if EventOf(json, next).Some? then Printed(EventOf(json, next).value) else ""
    requires if |results| < |cases| then next == StartOf(cases, |results|) else Summarizes(next, results)
    ensures Ended(json, cases, outcomes, before, was + cut, results, sent, next, cut)
  {
    hide Printed;
    assert Streamed(json, before, was, sent, next, "");
    assert before + PrintedAll(EventsOf(json, sent)) + "" == before + PrintedAll(EventsOf(json, sent));
  }

  lemma StoppedHalfway(json: Marshal, cases: seq<EvalCase>, outcomes: seq<Outcome>, before: string, was: string,
                       results: seq<CaseResult>, sent: seq<Payload>, r: CaseResult, cut: string)
    requires Sofar(json, cases, outcomes, before, was, results, sent) && |results| < |cases|
    requires Judges(cases[|results|], outcomes[|results|], r)
    requires var e := EventOf(json, CaseFinish(|results|, |cases|, r)); cut <= if e.Some? then Printed(e.value) else ""
    requires EventOf(json, StartOf(cases, |results|)).Some?
    ensures var start, finish := StartOf(cases, |results|), CaseFinish(|results|, |cases|, r);
            Ended(json, cases, outcomes, before, was + Printed(EventOf(json, start).value) + cut,
                  results + [r], sent + [start], finish, cut)
  {
    hide Printed;
    JudgedOne(cases, outcomes, results, r);
    PlayedOne(cases, results, r);
    StreamedOne(json, before, was, sent, StartOf(cases, |results|), CaseFinish(|results|, |cases|, r), cut);
  }

  /** Every case is announced, run and reported in order, and the summary comes last. The first write
      that fails ends the run, and a case whose announcement failed is not run. */
  method StreamEvalSuite(w: ResponseWriter, json: Marshal, cases: seq<EvalCase>, outcomes: seq<Outcome>)
    returns (ghost results: seq<CaseResult>, ghost sent: seq<Payload>, ghost next: Payload, ghost cut: string,
        complete: bool)
    requires |outcomes| == |cases|
    modifies w
    ensures Ended(json, cases, outcomes, old(w.body), w.body, results, sent, next, cut)
    ensures Unbroken(w.breaks, old(w.writes), |sent|)
    ensures complete ==> && |results| == |cases| && Summarizes(next, results)
                         && EventOf(json, next).Some? && cut == Printed(EventOf(json, next).value)
                         && w.flushes && Unbroken(w.breaks, old(w.writes), |sent| + 1)
    ensures !complete ==> Cut(w, json, next, cut, old(w.writes) + |sent|)
  {
    hide Printed, Ended, Judges, Summarizes;
    var kept := [];
    complete := false;
    results, sent, next, cut := [], [], Summary(true, 0, 0, [], ""), "";
    NothingYet(json, cases, outcomes, w.body);
    for i := 0 to |cases|
      invariant |kept| == i && results == kept && |sent| == 2 * i
      invariant Sofar(json, cases, outcomes, old(w.body), w.body, kept, sent)
      invariant w.writes == old(w.writes) + |sent| && Unbroken(w.breaks, old(w.writes), |sent|)
    {
      ghost var was := w.body;
      var start := StartOf(cases, i);
      var result, whole;
      result, whole, cut := StreamCase(w, json, start, i, |cases|, cases[i], outcomes[i]);
      if whole == 0 {
        next := start;
        StoppedBefore(json, cases, outcomes, old(w.body), was, results, sent, next, cut);
        return;
      }
      if whole == 1 {
        StoppedHalfway(json, cases, outcomes, old(w.body), was, results, sent, result, cut);
        results, sent, next := kept + [result], sent + [start], CaseFinish(i, |cases|, result);
        return;
      }
      WholeCase(json, cases, outcomes, old(w.body), was, results, sent, result);
      kept := kept + [result];
      results, sent := kept, sent + [start] + [CaseFinish(i, |cases|, result)];
    }
    var summary := SummarizeResults(kept);
    next := summary;
    ghost var was := w.body;
    complete, cut := WriteSSE(w, json, summary);
    if complete {
      cut := Printed(EventOf(json, summary).value);
    }
    StoppedBefore(json, cases, outcomes, old(w.body), was, results, sent, next, cut);
  }

  // ---------- what the page sees ----------

  /** An encoder whose texts have no line break and no outer white space, as compact JSON objects do. */
  ghost predicate Compact(json: Marshal) {
    forall p :: json(p).Some? ==> '\n' !in json(p).value && Tight(json(p).value, JsSpace)
  }

  predicate Clean(e: Event) {
    OneLine(e) && e.name != "" && Tight(e.name, JsSpace) && Tight(e.data, JsSpace)
  }

  lemma NamesAreClean(p: Payload)
    ensures '\n' !in NameOf(p) && NameOf(p) != "" && Tight(NameOf(p), JsSpace)
  {
  }

  lemma {:induction false} EventsAreClean(json: Marshal, ps: seq<Payload>)
    requires Compact(json)
    requires forall p | p in ps :: EventOf(json, p).Some?
    ensures |EventsOf(json, ps)| == |ps|
    ensures forall e | e in EventsOf(json, ps) :: Clean(e)
  {
    if ps != [] {
      var p := ps[|ps| - 1];
      EventsAreClean(json, ps[..|ps| - 1]);
      NamesAreClean(p);
    }
  }

  /** Half a frame is no frame. */
  lemma CutHasNoFrame(e: Event, cut: string)
    requires OneLine(e) && cut <= Printed(e) && cut != Printed(e)
    ensures Drain(cut) == Drained([], cut)
  {
    PrintedBreak(e, "");
    assert Printed(e) + "" == Printed(e);
    forall j | 0 <= j ensures !BreakAt(cut, j) {
      if j + 1 < |cut| {
        assert cut[j] == Printed(e)[j] && cut[j + 1] == Printed(e)[j + 1];
        assert !BreakAt(Printed(e), j);
      }
    }
  }

  /** However the connection breaks and however the network cuts what arrived, the page handles
      exactly the events that arrived whole, each once and in order. */
  lemma PageSeesWhatWasSent(json: Marshal, body: string, sent: seq<Payload>, next: Payload, cut: string,
      chunks: seq<string>)
    requires Compact(json)
    requires Streamed(json, "", body, sent, next, cut)
    requires Joined(chunks) == body
    ensures ParsedFrames(Drain(Joined(chunks)).frames)
            == EventsOf(json, sent) +
                 if EventOf(json, next).Some? && cut == Printed(EventOf(json, next).value)
                 then [EventOf(json, next).value] else []
  {
    hide Printed;
    var events, e := EventsOf(json, sent), EventOf(json, next);
    EventsAreClean(json, sent);
    assert body == PrintedAll(events) + cut;
    if e.Some? && cut == Printed(e.value) {
      NamesAreClean(next);
      PrintedAppend(events, e.value);
      RoundTrip(events + [e.value], chunks);
    } else {
      if e.Some? {
        NamesAreClean(next);
        CutHasNoFrame(e.value, cut);
      }
      CutLeavesEvents(events, cut);
    }
  }

  lemma CutLeavesEvents(events: seq<Event>, cut: string)
    requires forall e | e in events :: Clean(e)
    requires Drain(cut) == Drained([], cut)
    ensures ParsedFrames(Drain(PrintedAll(events) + cut).frames) == events
  {
    var text := PrintedAll(events);
    assert Joined([text]) == text by {
      assert [text][..0] == [];
    }
    RoundTrip(events, [text]);
    DrainAppend(text, cut);
    assert "" + cut == cut;
    assert Drain(text).frames + [] == Drain(text).frames;
  }
}
