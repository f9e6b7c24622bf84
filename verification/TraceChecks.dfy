/** cmd/eval-runner/evaluator.go: the four checks of an evaluation case against an audit trace. */
module TraceChecks {
  import opened Wrappers

  datatype TraceRow = TraceRow(toolName: string, decision: string, arguments: string)

  datatype EvalCase = EvalCase(name: string, mustInclude: seq<string>, mustNotInclude: seq<string>,
                               policyOutcome: string, mustNotContainInArgs: seq<string>)

  datatype CheckFailure = CheckFailure(check: string, wanted: string, observed: string)

  datatype CaseResult = CaseResult(name: string, passed: bool, failures: seq<CheckFailure>, trace: seq<TraceRow>)

  // ---------- mustInclude ----------

  function Names(trace: seq<TraceRow>): (names: seq<string>)
    ensures |names| == |trace| && forall i | 0 <= i < |trace| :: names[i] == trace[i].toolName
  {
    seq(|trace|, i requires 0 <= i < |trace| => trace[i].toolName)
  }

  /** Increasing positions at which the wanted names occur. */
  predicate Embeds(wanted: seq<string>, names: seq<string>, at: seq<nat>) {
    && |at| == |wanted|
    && (forall i | 0 <= i < |at| :: at[i] < |names| && names[at[i]] == wanted[i])
    && (forall i, j | 0 <= i < j < |at| :: at[i] < at[j])
  }

  ghost predicate Subsequence(wanted: seq<string>, names: seq<string>) {
    exists at :: Embeds(wanted, names, at)
  }

  /** m is the shortest prefix of the names that holds the wanted ones. */
  ghost predicate Shortest(wanted: seq<string>, names: seq<string>, m: nat) {
    && m <= |names|
    && Subsequence(wanted, names[..m])
    && forall m' | 0 <= m' < m :: !Subsequence(wanted, names[..m'])
  }

  lemma PrefixEmbeds(wanted: seq<string>, names: seq<string>, at: seq<nat>)
    requires wanted != [] && Embeds(wanted, names, at)
    ensures var k := |wanted| - 1; Embeds(wanted[..k], names[..at[k]], at[..k])
  {
  }

  lemma SubsequencePrefix(wanted: seq<string>, names: seq<string>, j: nat)
    requires j <= |wanted| && Subsequence(wanted, names)
    ensures Subsequence(wanted[..j], names)
  {
    var at :| Embeds(wanted, names, at);
    assert Embeds(wanted[..j], names, at[..j]);
  }

  /** Any embedding of one more name places it beyond the shortest prefix for the others. */
  lemma NextBeyond(wanted: seq<string>, names: seq<string>, k: nat, m: nat, at: seq<nat>)
    requires k < |wanted| && Shortest(wanted[..k], names, m)
    requires Embeds(wanted[..k + 1], names, at)
    ensures m <= at[k]
  {
    PrefixEmbeds(wanted[..k + 1], names, at);
    assert wanted[..k + 1][..k] == wanted[..k];
    assert Subsequence(wanted[..k], names[..at[k]]);
  }

  /** The greedy step: the first occurrence at or after the shortest prefix ends the next one. */
  lemma GreedyStep(wanted: seq<string>, names: seq<string>, k: nat, m: nat, p: nat)
    requires k < |wanted| && Shortest(wanted[..k], names, m)
    requires m <= p < |names| && names[p] == wanted[k]
    requires forall i | m <= i < p :: names[i] != wanted[k]
    ensures Shortest(wanted[..k + 1], names, p + 1)
  {
    var at :| Embeds(wanted[..k], names[..m], at);
    assert Embeds(wanted[..k + 1], names[..p + 1], at + [p]);
    forall m' | 0 <= m' < p + 1 ensures !Subsequence(wanted[..k + 1], names[..m']) {
      if Subsequence(wanted[..k + 1], names[..m']) {
        var other :| Embeds(wanted[..k + 1], names[..m'], other);
        assert Embeds(wanted[..k + 1], names, other);
        NextBeyond(wanted, names, k, m, other);
      }
    }
  }

  lemma GreedyStuck(wanted: seq<string>, names: seq<string>, k: nat, m: nat)
    requires k < |wanted| && Shortest(wanted[..k], names, m)
    requires forall i | m <= i < |names| :: names[i] != wanted[k]
    ensures forall j | k < j <= |wanted| :: !Subsequence(wanted[..j], names)
  {
    forall j | k < j <= |wanted| ensures !Subsequence(wanted[..j], names) {
      if Subsequence(wanted[..j], names) {
        SubsequencePrefix(wanted[..j], names, k + 1);
        assert wanted[..j][..k + 1] == wanted[..k + 1];
        var at :| Embeds(wanted[..k + 1], names, at);
        NextBeyond(wanted, names, k, m, at);
      }
    }
  }

  lemma NothingWanted(names: seq<string>)
    ensures Shortest([], names, 0)
  {
    assert Embeds([], names[..0], []);
  }

  /** The longest prefix of the wanted names that occurs in order has length k. */
  ghost predicate LongestPrefix(wanted: seq<string>, names: seq<string>, k: nat) {
    && k <= |wanted|
    && Subsequence(wanted[..k], names)
    && forall j | k < j <= |wanted| :: !Subsequence(wanted[..j], names)
  }

  /** No failure when the wanted tools occur in this order in the trace; otherwise one failure, naming
      the tool just after the longest prefix that does. */
  ghost predicate MissedTools(wanted: seq<string>, trace: seq<TraceRow>, failures: seq<CheckFailure>) {
    && (failures == [] <==> Subsequence(wanted, Names(trace)))
    && (failures != [] ==> exists k: nat ::
          LongestPrefix(wanted, Names(trace), k) && k < |wanted| &&
          failures == [CheckFailure("mustInclude", wanted[k],
                                    if trace == [] then "(empty trace)" else trace[|trace| - 1].toolName)])
  }

  /** Greedy matching is exact. */
  method EvaluateMustInclude(wanted: seq<string>, trace: seq<TraceRow>) returns (failures: seq<CheckFailure>)
    ensures MissedTools(wanted, trace, failures)
  {
    ghost var names := Names(trace);
    NothingWanted(names);
    assert wanted[..0] == [] && wanted[..|wanted|] == wanted;
    if |wanted| == 0 {
      assert Embeds(wanted, names, []);
      return [];
    }
    if |trace| == 0 {
      GreedyStuck(wanted, names, 0, 0);
      assert Embeds(wanted[..0], names, []);
      assert LongestPrefix(wanted, names, 0);
      return [CheckFailure("mustInclude", wanted[0], "(empty trace)")];
    }
    var traceIndex := 0;
    for k := 0 to |wanted|
      invariant Shortest(wanted[..k], names, traceIndex)
    {
      var toolName := wanted[k];
      var found := false;
      ghost var m := traceIndex;
      while traceIndex < |trace|
        invariant m <= traceIndex <= |trace| && !found
        invariant forall i | m <= i < traceIndex :: names[i] != toolName
      {
        if trace[traceIndex].toolName == toolName {
          GreedyStep(wanted, names, k, m, traceIndex);
          traceIndex := traceIndex + 1;
          found := true;
          break;
        }
        traceIndex := traceIndex + 1;
      }
      if !found {
        GreedyStuck(wanted, names, k, m);
        ghost var at :| Embeds(wanted[..k], names[..m], at);
        assert Embeds(wanted[..k], names, at);
        assert LongestPrefix(wanted, names, k);
        return [CheckFailure("mustInclude", toolName, trace[|trace| - 1].toolName)];
      }
    }
    ghost var at :| Embeds(wanted, names[..traceIndex], at);
    assert Embeds(wanted, names, at);
    return [];
  }

  // ---------- mustNotInclude ----------

  /** One failure per row with a forbidden tool, in trace order. */
  function ForbiddenRows(forbidden: seq<string>, trace: seq<TraceRow>): seq<CheckFailure> {
    if trace == [] then []
    else
      var row := trace[|trace| - 1];
      ForbiddenRows(forbidden, trace[..|trace| - 1]) +
      if row.toolName in forbidden then [CheckFailure("mustNotInclude", row.toolName, row.toolName)] else []
  }

  /** The failures name, in trace order, the tools of exactly the rows that are forbidden. */
  lemma {:induction false} ForbiddenRowsAre(forbidden: seq<string>, trace: seq<TraceRow>) returns (at: seq<nat>)
    ensures forall i | 0 <= i < |at| :: at[i] < |trace| && trace[at[i]].toolName in forbidden
    ensures forall i | 0 <= i < |trace| && trace[i].toolName in forbidden :: i in at
    ensures forall i, j | 0 <= i < j < |at| :: at[i] < at[j]
    ensures |ForbiddenRows(forbidden, trace)| == |at|
    ensures forall i | 0 <= i < |at| ::
              var tool := trace[at[i]].toolName;
              ForbiddenRows(forbidden, trace)[i] == CheckFailure("mustNotInclude", tool, tool)
  {
    if trace == [] {
      return [];
    }
    var n := |trace| - 1;
    at := ForbiddenRowsAre(forbidden, trace[..n]);
    assert forall i | 0 <= i < n :: trace[..n][i] == trace[i];
    if trace[n].toolName in forbidden {
      at := at + [n];
    }
  }

  lemma {:induction false} NoForbiddenRowsIff(forbidden: seq<string>, trace: seq<TraceRow>)
    ensures ForbiddenRows(forbidden, trace) == [] <==> forall i | 0 <= i < |trace| :: trace[i].toolName !in forbidden
  {
    if trace != [] {
      NoForbiddenRowsIff(forbidden, trace[..|trace| - 1]);
    }
  }

  method EvaluateMustNotInclude(forbiddenTools: seq<string>, trace: seq<TraceRow>) returns (failures: seq<CheckFailure>)
    ensures failures == ForbiddenRows(forbiddenTools, trace)
  {
    if |forbiddenTools| == 0 || |trace| == 0 {
      NoForbiddenRowsIff(forbiddenTools, trace);
      return [];
    }
    var forbidden := set t | t in forbiddenTools;
    failures := [];
    for i := 0 to |trace|
      invariant failures == ForbiddenRows(forbiddenTools, trace[..i])
    {
      assert trace[..i + 1][..i] == trace[..i];
      if trace[i].toolName in forbidden {
        failures := failures + [CheckFailure("mustNotInclude", trace[i].toolName, trace[i].toolName)];
      }
    }
    assert trace[..|trace|] == trace;
  }

  // ---------- policyOutcome ----------

  function EvaluatePolicyOutcome(wanted: string, trace: seq<TraceRow>): seq<CheckFailure> {
    if wanted == "" then []
    else if trace == [] then [CheckFailure("policyOutcome", wanted, "(empty trace)")]
    else if trace[|trace| - 1].decision == wanted then []
    else [CheckFailure("policyOutcome", wanted, trace[|trace| - 1].decision)]
  }

  /** One failure, with what was observed, exactly when an outcome is asked for and the last row's is another
      or missing. */
  lemma OutcomeFailureIff(wanted: string, trace: seq<TraceRow>)
    ensures EvaluatePolicyOutcome(wanted, trace) == [] <==>
              wanted == "" || (trace != [] && trace[|trace| - 1].decision == wanted)
    ensures forall f | f in EvaluatePolicyOutcome(wanted, trace) ::
              f == CheckFailure("policyOutcome", wanted,
                                if trace == [] then "(empty trace)" else trace[|trace| - 1].decision)
    ensures |EvaluatePolicyOutcome(wanted, trace)| <= 1
  {
  }

  // ---------- mustNotContainInArgs ----------

  /** strings.Contains. */
  predicate Contains(s: string, sub: string) {
    exists i | 0 <= i <= |s| :: OccursAt(s, sub, i)
  }

  predicate OccursAt(s: string, sub: string, i: nat) {
    i + |sub| <= |s| && s[i..i + |sub|] == sub
  }

  lemma ContainsIff(s: string, sub: string)
    ensures Contains(s, sub) <==> exists a, b :: s == a + sub + b
  {
    if Contains(s, sub) {
      var i :| 0 <= i <= |s| && OccursAt(s, sub, i);
      assert s == s[..i] + sub + s[i + |sub|..];
    }
    forall a, b | s == a + sub + b ensures Contains(s, sub) {
      assert OccursAt(s, sub, |a|);
    }
  }

  /** The arguments of the first row that contain the text. */
  function FirstContaining(trace: seq<TraceRow>, sub: string): Option<string> {
    if trace == [] then None
    else if Contains(trace[0].arguments, sub) then Some(trace[0].arguments)
    else FirstContaining(trace[1..], sub)
  }

  /** One failure per forbidden text that occurs, in the order of the texts. */
  function ArgFailures(subs: seq<string>, trace: seq<TraceRow>): seq<CheckFailure> {
    if subs == [] then []
    else
      var n := |subs| - 1;
      var hit := FirstContaining(trace, subs[n]);
      ArgFailures(subs[..n], trace) +
      if hit.Some? then [CheckFailure("mustNotContainInArgs", subs[n], hit.value)] else []
  }

  lemma {:induction false} FirstContainingIff(trace: seq<TraceRow>, sub: string)
    ensures FirstContaining(trace, sub) == None <==> forall i | 0 <= i < |trace| :: !Contains(trace[i].arguments, sub)
  {
    if trace != [] {
      FirstContainingIff(trace[1..], sub);
      assert forall i | 0 < i < |trace| :: trace[i] == trace[1..][i - 1];
    }
  }

  lemma {:induction false} FirstContainingIs(trace: seq<TraceRow>, sub: string, k: nat)
    requires k < |trace| && Contains(trace[k].arguments, sub)
    requires forall i | 0 <= i < k :: !Contains(trace[i].arguments, sub)
    ensures FirstContaining(trace, sub) == Some(trace[k].arguments)
  {
    if k > 0 {
      FirstContainingIs(trace[1..], sub, k - 1);
    }
  }

  /** The failures name, in their order, exactly the forbidden texts that occur, each with the arguments of
      the first row that contain it. */
  lemma {:induction false} ArgFailuresAre(subs: seq<string>, trace: seq<TraceRow>) returns (at: seq<nat>)
    ensures forall i | 0 <= i < |at| :: at[i] < |subs|
    ensures forall j | 0 <= j < |subs| ::
              j in at <==> exists k :: 0 <= k < |trace| && Contains(trace[k].arguments, subs[j])
    ensures forall i, j | 0 <= i < j < |at| :: at[i] < at[j]
    ensures |ArgFailures(subs, trace)| == |at|
    ensures forall i, k | 0 <= i < |at| && 0 <= k < |trace| && Contains(trace[k].arguments, subs[at[i]])
                          && (forall j | 0 <= j < k :: !Contains(trace[j].arguments, subs[at[i]])) ::
              ArgFailures(subs, trace)[i]
              == CheckFailure("mustNotContainInArgs", subs[at[i]], trace[k].arguments)
  {
    hide Contains, FirstContaining;
    if subs == [] {
      return [];
    }
    var n := |subs| - 1;
    var before := ArgFailuresAre(subs[..n], trace);
    ArgFailuresStep(subs, trace);
    hide ArgFailures;
    assert forall j | 0 <= j < n :: subs[..n][j] == subs[j];
    at := if exists k :: 0 <= k < |trace| && Contains(trace[k].arguments, subs[n]) then before + [n] else before;
  }

  lemma ArgFailuresStep(subs: seq<string>, trace: seq<TraceRow>)
    requires subs != []
    ensures var n := |subs| - 1;
            var before, now := ArgFailures(subs[..n], trace), ArgFailures(subs, trace);
            && before <= now
            && |now| == |before| + (if exists k :: 0 <= k < |trace| && Contains(trace[k].arguments, subs[n])
                                    then 1 else 0)
            && forall k | 0 <= k < |trace| && Contains(trace[k].arguments, subs[n])
                          && (forall j | 0 <= j < k :: !Contains(trace[j].arguments, subs[n])) ::
                 now == before + [CheckFailure("mustNotContainInArgs", subs[n], trace[k].arguments)]
  {
    hide Contains;
    var n := |subs| - 1;
    FirstContainingIff(trace, subs[n]);
    forall k | 0 <= k < |trace| && Contains(trace[k].arguments, subs[n])
               && (forall j | 0 <= j < k :: !Contains(trace[j].arguments, subs[n]))
      ensures FirstContaining(trace, subs[n]) == Some(trace[k].arguments)
    {
      FirstContainingIs(trace, subs[n], k);
    }
  }

  lemma {:induction false} NoArgFailuresIff(subs: seq<string>, trace: seq<TraceRow>)
    ensures ArgFailures(subs, trace) == [] <==>
            forall j, i | 0 <= j < |subs| && 0 <= i < |trace| :: !Contains(trace[i].arguments, subs[j])
  {
    if subs != [] {
      var n := |subs| - 1;
      NoArgFailuresIff(subs[..n], trace);
      FirstContainingIff(trace, subs[n]);
    }
  }

  method EvaluateMustNotContainInArgs(forbidden: seq<string>, trace: seq<TraceRow>)
      returns (failures: seq<CheckFailure>)
    ensures failures == ArgFailures(forbidden, trace)
  {
    if |forbidden| == 0 || |trace| == 0 {
      NoArgFailuresIff(forbidden, trace);
      return [];
    }
    failures := [];
    for j := 0 to |forbidden|
      invariant failures == ArgFailures(forbidden[..j], trace)
    {
      assert forbidden[..j + 1][..j] == forbidden[..j];
      var i := 0;
      while i < |trace|
        invariant 0 <= i <= |trace|
        invariant FirstContaining(trace, forbidden[j]) == FirstContaining(trace[i..], forbidden[j])
        invariant failures == ArgFailures(forbidden[..j], trace)
      {
        var args := trace[i].arguments;
        assert trace[i..][0] == trace[i] && trace[i..][1..] == trace[i + 1..];
        if Contains(args, forbidden[j]) {
          failures := failures + [CheckFailure("mustNotContainInArgs", forbidden[j], args)];
          break;
        }
        i := i + 1;
      }
    }
    assert forbidden[..|forbidden|] == forbidden;
  }

  // ---------- the whole case ----------

  /** What a case asks of a trace. */
  ghost predicate Meets(c: EvalCase, trace: seq<TraceRow>) {
    && Subsequence(c.mustInclude, Names(trace))
    && (forall i | 0 <= i < |trace| :: trace[i].toolName !in c.mustNotInclude)
    && (c.policyOutcome != "" ==> trace != [] && trace[|trace| - 1].decision == c.policyOutcome)
    && (forall j, i | 0 <= j < |c.mustNotContainInArgs| && 0 <= i < |trace| ::
          !Contains(trace[i].arguments, c.mustNotContainInArgs[j]))
  }

  /** A result that reports a case and its trace: every failure of the four checks, in their order. */
  ghost predicate Reports(c: EvalCase, trace: seq<TraceRow>, r: CaseResult) {
    && r.name == c.name && r.trace == trace
    && (r.passed <==> r.failures == [])
    && exists missed ::
         && MissedTools(c.mustInclude, trace, missed)
         && r.failures == missed + ForbiddenRows(c.mustNotInclude, trace)
                          + EvaluatePolicyOutcome(c.policyOutcome, trace) + ArgFailures(c.mustNotContainInArgs, trace)
  }

  /** A case passes exactly when the trace meets it. */
  lemma PassesIffMeets(c: EvalCase, trace: seq<TraceRow>, r: CaseResult)
    requires Reports(c, trace, r)
    ensures r.passed <==> Meets(c, trace)
  {
    NoForbiddenRowsIff(c.mustNotInclude, trace);
    NoArgFailuresIff(c.mustNotContainInArgs, trace);
    var a :| && MissedTools(c.mustInclude, trace, a)
             && r.failures == a + ForbiddenRows(c.mustNotInclude, trace)
                              + EvaluatePolicyOutcome(c.policyOutcome, trace)
                              + ArgFailures(c.mustNotContainInArgs, trace);
    assert r.failures == [] <==> a == [] && ForbiddenRows(c.mustNotInclude, trace) == []
                                 && EvaluatePolicyOutcome(c.policyOutcome, trace) == []
                                 && ArgFailures(c.mustNotContainInArgs, trace) == [];
  }

  method Evaluate(c: EvalCase, trace: seq<TraceRow>) returns (r: CaseResult)
    ensures Reports(c, trace, r)
    ensures r.passed <==> Meets(c, trace)
  {
    var a := EvaluateMustInclude(c.mustInclude, trace);
    var b := EvaluateMustNotInclude(c.mustNotInclude, trace);
    var d := EvaluatePolicyOutcome(c.policyOutcome, trace);
    var e := EvaluateMustNotContainInArgs(c.mustNotContainInArgs, trace);
    var failures := a + b + d + e;
    if |failures| == 0 {
      r := CaseResult(c.name, true, [], trace);
    } else {
      r := CaseResult(c.name, false, failures, trace);
    }
    PassesIffMeets(c, trace, r);
  }
}
