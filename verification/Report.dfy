/** cmd/eval-runner/reporter.go: the markdown report and the exit code. */
module Report {
  import opened TraceChecks
  import T = Sse

  // ---------- cells ----------

  /** strings.NewReplacer: at each position the pairs are tried in order. */
  function Sanitize(s: string): string {
    if s == "" then ""
    else if |s| >= 2 && s[0] == '\r' && s[1] == '\n' then "<br>" + Sanitize(s[2..])
    else if s[0] == '\r' || s[0] == '\n' then "<br>" + Sanitize(s[1..])
    else if s[0] == '|' then "\\|" + Sanitize(s[1..])
    else [s[0]] + Sanitize(s[1..])
  }

  predicate SafeCell(s: string) {
    && '\n' !in s && '\r' !in s
    && forall i | 0 <= i < |s| && s[i] == '|' :: i > 0 && s[i - 1] == '\\'
  }

  lemma SafeConcat(a: string, b: string)
    requires SafeCell(a) && SafeCell(b)
    ensures SafeCell(a + b)
  {
    forall i | 0 <= i < |a + b| && (a + b)[i] == '|' ensures i > 0 && (a + b)[i - 1] == '\\' {
      if i < |a| {
        assert a[i] == '|';
      } else {
        assert b[i - |a|] == '|';
      }
    }
  }

  /** Whatever the text, its cell has no line break and no pipe without a backslash before it. */
  lemma {:induction false} SanitizedIsSafe(s: string)
    ensures SafeCell(Sanitize(s))
  {
    if s != "" {
      var cut := if |s| >= 2 && s[0] == '\r' && s[1] == '\n' then 2 else 1;
      SanitizedIsSafe(s[cut..]);
      var head := if s[0] == '\r' || s[0] == '\n' then "<br>" else if s[0] == '|' then "\\|" else [s[0]];
      assert Sanitize(s) == head + Sanitize(s[cut..]);
      SafeConcat(head, Sanitize(s[cut..]));
    }
  }

  /** Text without breaks and pipes, and only such text, is left as it is. */
  lemma {:induction false} SanitizeKeepsIff(s: string)
    ensures |Sanitize(s)| >= |s|
    ensures Sanitize(s) == s <==> '\n' !in s && '\r' !in s && '|' !in s
  {
    if s != "" {
      SanitizeKeepsIff(s[1..]);
      assert s == [s[0]] + s[1..];
      if |s| >= 2 {
        SanitizeKeepsIff(s[2..]);
      }
      if s[0] !in "\r\n|" {
        assert Sanitize(s)[1..] == Sanitize(s[1..]);
      }
    }
  }

  /** Cells are made piece by piece: only a line break of two characters is not cut in two. */
  lemma {:induction false} SanitizeConcat(a: string, b: string)
    requires a == "" || b == "" || a[|a| - 1] != '\r' || b[0] != '\n'
    ensures Sanitize(a + b) == Sanitize(a) + Sanitize(b)
    decreases |a|
  {
    if a == "" {
      assert a + b == b;
    } else {
      var cut := HeadLength(a);
      HeadLengthKept(a, b);
      SanitizeHead(a);
      SanitizeHead(a + b);
      hide Sanitize, HeadLength;
      assert (a + b)[..cut] == a[..cut] && (a + b)[cut..] == a[cut..] + b;
      SanitizeConcat(a[cut..], b);
    }
  }

  function HeadLength(s: string): nat {
    if |s| >= 2 && s[0] == '\r' && s[1] == '\n' then 2 else 1
  }

  lemma HeadLengthKept(a: string, b: string)
    requires a != "" && (b == "" || a[|a| - 1] != '\r' || b[0] != '\n')
    ensures HeadLength(a + b) == HeadLength(a) <= |a|
  {
  }

  lemma SanitizeHead(s: string)
    requires s != ""
    ensures var cut := HeadLength(s); Sanitize(s) == Sanitize(s[..cut]) + Sanitize(s[cut..])
  {
    if HeadLength(s) == 2 {
      assert s[..2] == "\r\n";
      SanitizePieces('\n');
    } else {
      assert s[..1] == [s[0]];
      SanitizePieces(s[0]);
    }
  }

  /** Each line break becomes one tag, a pipe gets a backslash, and any other character stays. */
  lemma SanitizePieces(c: char)
    ensures Sanitize([c]) == if c == '\r' || c == '\n' then "<br>" else if c == '|' then "\\|" else [c]
    ensures Sanitize("\r\n") == "<br>"
  {
    assert [c][1..] == "" && "\r\n"[2..] == "";
  }

  // ---------- the report ----------

  datatype ReportRow = ReportRow(name: string, status: string)

  datatype FailureRow = FailureRow(check: string, wanted: string, observed: string)

  datatype FailureCase = FailureCase(name: string, failures: seq<FailureRow>)

  datatype ReportData = ReportData(rows: seq<ReportRow>, passedCount: nat, totalCount: nat,
      failedCases: seq<FailureCase>, verdict: string)

  function Itoa(n: nat): string {
    if n < 10 then ["0123456789"[n]] else Itoa(n / 10) + ["0123456789"[n % 10]]
  }

  function FinalVerdict(failedCount: nat): string {
    if failedCount == 0 then "PASS" else "FAIL: " + Itoa(failedCount) + " case(s) failed"
  }

  /** One line of the report, with the break before it. */
  function Line(text: string): string {
    "\n" + text
  }

  function RowText(r: ReportRow): string {
    "| " + r.name + " | " + r.status + " |"
  }

  function FailureRowText(r: FailureRow): string {
    "| " + r.check + " | " + r.wanted + " | " + r.observed + " |"
  }

  function RowsText(rows: seq<ReportRow>): string {
    if rows == [] then "" else RowsText(rows[..|rows| - 1]) + Line(RowText(rows[|rows| - 1]))
  }

  function FailureRowsText(rows: seq<FailureRow>): string {
    if rows == [] then "" else FailureRowsText(rows[..|rows| - 1]) + Line(FailureRowText(rows[|rows| - 1]))
  }

  function CaseText(c: FailureCase): string {
    Line("") + Line("## " + c.name) + Line(FAILURE_TITLE) + Line(FAILURE_RULE) + FailureRowsText(c.failures)
  }

  function CasesText(cases: seq<FailureCase>): string {
    if cases == [] then "" else CasesText(cases[..|cases| - 1]) + CaseText(cases[|cases| - 1])
  }

  function CountText(passed: nat, total: nat): string {
    Itoa(passed) + "/" + Itoa(total) + " cases passed"
  }

  const CASE_TITLE := "| Case | Status |"
  const CASE_RULE := "| --- | --- |"
  const FAILURE_TITLE := "| Check | Expected | Observed |"
  const FAILURE_RULE := "| --- | --- | --- |"

  function Opening(d: ReportData): string {
    CASE_TITLE + Line(CASE_RULE) + RowsText(d.rows)
  }

  function Middle(d: ReportData): string {
    Line("") + Line(CountText(d.passedCount, d.totalCount)) + CasesText(d.failedCases)
  }

  /** The report template. */
  function Execute(d: ReportData): string {
    Opening(d) + Middle(d) + Line("") + Line(d.verdict)
  }

  function RowOf(r: CaseResult): ReportRow {
    ReportRow(Sanitize(r.name), if r.passed then "PASS" else "FAIL")
  }

  function FailureRowOf(f: CheckFailure): FailureRow {
    FailureRow(Sanitize(f.check), Sanitize(f.wanted), Sanitize(f.observed))
  }

  function RowsOf(results: seq<CaseResult>): seq<ReportRow> {
    if results == [] then [] else RowsOf(results[..|results| - 1]) + [RowOf(results[|results| - 1])]
  }

  function FailureRowsOf(failures: seq<CheckFailure>): seq<FailureRow> {
    if failures == [] then [] else FailureRowsOf(failures[..|failures| - 1]) + [FailureRowOf(failures[|failures| - 1])]
  }

  function FailureCaseOf(r: CaseResult): FailureCase {
    FailureCase(Sanitize(r.name), FailureRowsOf(r.failures))
  }

  function FailedOf(results: seq<CaseResult>): seq<FailureCase> {
    if results == [] then []
    else
      var r := results[|results| - 1];
      FailedOf(results[..|results| - 1]) + if r.passed then [] else [FailureCaseOf(r)]
  }

  function PassedCount(results: seq<CaseResult>): nat {
    if results == [] then 0 else PassedCount(results[..|results| - 1]) + if results[|results| - 1].passed then 1 else 0
  }

  function DataOf(results: seq<CaseResult>): ReportData {
    ReportData(RowsOf(results), PassedCount(results), |results|, FailedOf(results), FinalVerdict(|FailedOf(results)|))
  }

  function ReportOf(results: seq<CaseResult>): string {
    Execute(DataOf(results))
  }

  method SanitizeFailureCase(result: CaseResult) returns (c: FailureCase)
    ensures c == FailureCaseOf(result)
  {
    var failures := [];
    for i := 0 to |result.failures|
      invariant failures == FailureRowsOf(result.failures[..i])
    {
      assert result.failures[..i + 1][..i] == result.failures[..i];
      failures := failures + [FailureRowOf(result.failures[i])];
    }
    assert result.failures[..|result.failures|] == result.failures;
    return FailureCase(Sanitize(result.name), failures);
  }

  method GenerateReport(results: seq<CaseResult>) returns (report: string)
    ensures report == ReportOf(results)
  {
    var passedCount, failedCases, rows := 0, [], [];
    for i := 0 to |results|
      invariant passedCount == PassedCount(results[..i])
      invariant failedCases == FailedOf(results[..i])
      invariant rows == RowsOf(results[..i])
    {
      assert results[..i + 1][..i] == results[..i];
      var status := "FAIL";
      if results[i].passed {
        status := "PASS";
        passedCount := passedCount + 1;
      } else {
        var failed := SanitizeFailureCase(results[i]);
        failedCases := failedCases + [failed];
      }
      rows := rows + [ReportRow(Sanitize(results[i].name), status)];
    }
    assert results[..|results|] == results;
    return Execute(ReportData(rows, passedCount, |results|, failedCases, FinalVerdict(|failedCases|)));
  }

  method ExitCode(results: seq<CaseResult>) returns (code: int)
    ensures code == if (forall r | r in results :: r.passed) then 0 else 1
  {
    for i := 0 to |results|
      invariant forall j | 0 <= j < i :: results[j].passed
    {
      if !results[i].passed {
        return 1;
      }
    }
    return 0;
  }

  // ---------- layout ----------

  /** Lines one after the other, each with the break before it. */
  function Lay(lines: seq<string>): string {
    if lines == [] then "" else Line(lines[0]) + Lay(lines[1..])
  }

  predicate Plain(lines: seq<string>) {
    forall line | line in lines :: '\n' !in line
  }

  lemma {:induction false} LayConcat(a: seq<string>, b: seq<string>)
    ensures Lay(a + b) == Lay(a) + Lay(b)
  {
    if a == [] {
      assert a + b == b;
    } else {
      assert (a + b)[1..] == a[1..] + b;
      LayConcat(a[1..], b);
    }
  }

  lemma LayOne(text: string)
    ensures Lay([text]) == Line(text)
  {
    assert [text][1..] == [];
  }

  lemma {:induction false} LaidLines(first: string, lines: seq<string>)
    requires '\n' !in first && Plain(lines)
    ensures T.SplitLines(first + Lay(lines)) == [first] + lines
    decreases |lines|
  {
    if lines == [] {
      assert first + Lay(lines) == first;
      T.SplitLinesPlain(first);
    } else {
      LaidLines(lines[0], lines[1..]);
      assert first + Lay(lines) == first + "\n" + (lines[0] + Lay(lines[1..]));
      T.SplitLinesFirst(first, lines[0] + Lay(lines[1..]));
      assert [lines[0]] + lines[1..] == lines;
    }
  }

  lemma {:induction false} ItoaIsPlain(n: nat)
    ensures '\n' !in Itoa(n)
  {
    if n >= 10 {
      ItoaIsPlain(n / 10);
    }
  }

  lemma VerdictIsPlain(n: nat)
    ensures '\n' !in FinalVerdict(n) && (FinalVerdict(n) == "PASS" <==> n == 0)
  {
    ItoaIsPlain(n);
    if n > 0 {
      assert FinalVerdict(n)[0] == 'F';
    }
  }

  /** One table line for every case, in order. */
  function RowLines(results: seq<CaseResult>): seq<string> {
    if results == [] then [] else RowLines(results[..|results| - 1]) + [RowText(RowOf(results[|results| - 1]))]
  }

  function FailureRowLines(failures: seq<CheckFailure>): seq<string> {
    if failures == [] then []
    else FailureRowLines(failures[..|failures| - 1]) + [FailureRowText(FailureRowOf(failures[|failures| - 1]))]
  }

  /** A failed case's section: a blank line, its name, the table's two lines, and its failures. */
  function CaseLines(r: CaseResult): seq<string> {
    ["", "## " + Sanitize(r.name), FAILURE_TITLE, FAILURE_RULE] + FailureRowLines(r.failures)
  }

  function FailedLines(results: seq<CaseResult>): seq<string> {
    if results == [] then []
    else
      var r := results[|results| - 1];
      FailedLines(results[..|results| - 1]) + if r.passed then [] else CaseLines(r)
  }

  function LinesBelowTitle(results: seq<CaseResult>): seq<string> {
    [CASE_RULE] + RowLines(results) + ["", CountText(PassedCount(results), |results|)]
    + FailedLines(results) + ["", FinalVerdict(|FailedOf(results)|)]
  }

  function ReportLines(results: seq<CaseResult>): seq<string> {
    [CASE_TITLE] + LinesBelowTitle(results)
  }

  /** Four lines for every failed case, and one for each of its failures. */
  function FailureLineCount(results: seq<CaseResult>): nat {
    if results == [] then 0
    else
      var r := results[|results| - 1];
      FailureLineCount(results[..|results| - 1]) + if r.passed then 0 else 4 + |r.failures|
  }

  lemma RowIsPlain(r: CaseResult)
    ensures '\n' !in RowText(RowOf(r))
  {
    SanitizedIsSafe(r.name);
  }

  lemma {:induction false} RowsLaid(results: seq<CaseResult>)
    ensures |RowsOf(results)| == |RowLines(results)| == |results| && Plain(RowLines(results))
    ensures RowsText(RowsOf(results)) == Lay(RowLines(results))
  {
    if results != [] {
      var n := |results| - 1;
      RowsLaid(results[..n]);
      var rows, text := RowsOf(results), RowText(RowOf(results[n]));
      RowIsPlain(results[n]);
      assert rows[..n] == RowsOf(results[..n]);
      LayConcat(RowLines(results[..n]), [text]);
      LayOne(text);
    }
  }

  lemma FailureRowIsPlain(f: CheckFailure)
    ensures '\n' !in FailureRowText(FailureRowOf(f))
  {
    SanitizedIsSafe(f.check);
    SanitizedIsSafe(f.wanted);
    SanitizedIsSafe(f.observed);
  }

  lemma {:induction false} FailureRowsLaid(failures: seq<CheckFailure>)
    ensures |FailureRowsOf(failures)| == |FailureRowLines(failures)| == |failures| && Plain(FailureRowLines(failures))
    ensures FailureRowsText(FailureRowsOf(failures)) == Lay(FailureRowLines(failures))
  {
    if failures != [] {
      var n := |failures| - 1;
      FailureRowsLaid(failures[..n]);
      var rows, text := FailureRowsOf(failures), FailureRowText(FailureRowOf(failures[n]));
      FailureRowIsPlain(failures[n]);
      assert rows[..n] == FailureRowsOf(failures[..n]);
      LayConcat(FailureRowLines(failures[..n]), [text]);
      LayOne(text);
    }
  }

  lemma LayFour(a: string, b: string, c: string, d: string)
    ensures Lay([a, b, c, d]) == Line(a) + Line(b) + Line(c) + Line(d)
  {
    LayOne(d);
    assert [a, b, c, d][1..] == [b, c, d] && [b, c, d][1..] == [c, d] && [c, d][1..] == [d];
    assert Lay([c, d]) == Line(c) + Line(d);
    assert Lay([b, c, d]) == Line(b) + Lay([c, d]);
  }

  lemma FailureTitlePlain()
    ensures '\n' !in FAILURE_TITLE
  {
  }

  lemma FailureRulePlain()
    ensures '\n' !in FAILURE_RULE
  {
  }

  lemma CaseLaid(r: CaseResult)
    ensures CaseText(FailureCaseOf(r)) == Lay(CaseLines(r)) && |CaseLines(r)| == 4 + |r.failures|
    ensures Plain(CaseLines(r))
  {
    var name := "## " + Sanitize(r.name);
    SanitizedIsSafe(r.name);
    FailureTitlePlain();
    FailureRulePlain();
    FailureRowsLaid(r.failures);
    LayFour("", name, FAILURE_TITLE, FAILURE_RULE);
    LayConcat(["", name, FAILURE_TITLE, FAILURE_RULE], FailureRowLines(r.failures));
  }

  lemma {:induction false} CasesLaid(results: seq<CaseResult>)
    ensures CasesText(FailedOf(results)) == Lay(FailedLines(results))
      && |FailedLines(results)| == FailureLineCount(results)
    ensures Plain(FailedLines(results))
  {
    if results != [] {
      var n := |results| - 1;
      CasesLaid(results[..n]);
      var front, cases := FailedOf(results[..n]), FailedOf(results);
      if results[n].passed {
        assert cases == front && FailedLines(results) == FailedLines(results[..n]);
      } else {
        assert cases == front + [FailureCaseOf(results[n])] && cases[..|cases| - 1] == front;
        CaseLaid(results[n]);
        LayConcat(FailedLines(results[..n]), CaseLines(results[n]));
      }
    }
  }

  lemma LayTwo(a: string, b: string)
    ensures Lay([a, b]) == Line(a) + Line(b)
  {
    LayOne(b);
    assert [a, b][1..] == [b];
  }

  lemma LayParts(a: seq<string>, b: seq<string>, c: seq<string>, d: seq<string>, e: seq<string>)
    ensures Lay(a + b + c + d + e) == Lay(a) + Lay(b) + Lay(c) + Lay(d) + Lay(e)
  {
    LayConcat(a, b);
    LayConcat(a + b, c);
    LayConcat(a + b + c, d);
    LayConcat(a + b + c + d, e);
  }

  lemma CaseTitlePlain()
    ensures '\n' !in CASE_TITLE
  {
  }

  lemma CaseRulePlain()
    ensures '\n' !in CASE_RULE
  {
  }

  lemma CountPlain(passed: nat, total: nat)
    ensures '\n' !in CountText(passed, total)
  {
    ItoaIsPlain(passed);
    ItoaIsPlain(total);
  }

  lemma ReportIsLaid(results: seq<CaseResult>)
    ensures ReportOf(results) == CASE_TITLE + Lay(LinesBelowTitle(results))
  {
    var d, count, v := DataOf(results), CountText(PassedCount(results), |results|), FinalVerdict(|FailedOf(results)|);
    RowsLaid(results);
    CasesLaid(results);
    LayOne(CASE_RULE);
    LayTwo("", count);
    LayTwo("", v);
    LayParts([CASE_RULE], RowLines(results), ["", count], FailedLines(results), ["", v]);
    Regroup(CASE_TITLE, Line(CASE_RULE), Lay(RowLines(results)), Line("") + Line(count),
            Lay(FailedLines(results)), Line(""), Line(v));
  }

  lemma Regroup(a: string, b: string, c: string, d: string, e: string, f: string, g: string)
    ensures (a + b + c) + (d + e) + f + g == a + (b + c + d + e + (f + g))
  {
  }

  lemma LinesArePlain(results: seq<CaseResult>)
    ensures Plain(LinesBelowTitle(results)) && |LinesBelowTitle(results)| == 5 + |results| + FailureLineCount(results)
  {
    hide Lay, RowsText, CasesText, RowLines, FailedLines, FailureLineCount, FailedOf, CountText, FinalVerdict;
    RowsLaid(results);
    CasesLaid(results);
    CaseRulePlain();
    CountPlain(PassedCount(results), |results|);
    VerdictIsPlain(|FailedOf(results)|);
  }

  /** Whatever the names and messages contain, the report's lines are these: six, one more for every
      case, and four plus its failures for every failed case. */
  lemma ReportLayout(results: seq<CaseResult>)
    ensures T.SplitLines(ReportOf(results)) == ReportLines(results)
    ensures |ReportLines(results)| == 6 + |results| + FailureLineCount(results)
  {
    ReportIsLaid(results);
    LinesArePlain(results);
    CaseTitlePlain();
    LaidLines(CASE_TITLE, LinesBelowTitle(results));
  }

  lemma {:induction false} CountsAddUp(results: seq<CaseResult>)
    ensures PassedCount(results) + |FailedOf(results)| == |results|
    ensures |FailedOf(results)| == 0 <==> forall r | r in results :: r.passed
  {
    if results != [] {
      var n := |results| - 1;
      CountsAddUp(results[..n]);
      assert results == results[..n] + [results[n]];
    }
  }

  lemma PassingStep(results: seq<CaseResult>, i: nat)
    requires i < |results|
    ensures var now, before := set j | 0 <= j < i + 1 && results[j].passed, set j | 0 <= j < i && results[j].passed;
            |now| == |before| + if results[i].passed then 1 else 0
  {
    var now, before := set j | 0 <= j < i + 1 && results[j].passed, set j | 0 <= j < i && results[j].passed;
    assert now == if results[i].passed then before + {i} else before;
  }

  lemma {:induction false} PassedCountIs(results: seq<CaseResult>)
    ensures PassedCount(results) == |set i | 0 <= i < |results| && results[i].passed|
  {
    if results != [] {
      var n := |results| - 1;
      PassedCountIs(results[..n]);
      assert (set i | 0 <= i < n && results[..n][i].passed) == set i | 0 <= i < n && results[i].passed;
      PassingStep(results, n);
    }
  }

  /** The number that decimal digits stand for. */
  function Reads(digits: string): int {
    if digits == "" then 0
    else Reads(digits[..|digits| - 1]) * 10 + (digits[|digits| - 1] as int - '0' as int)
  }

  lemma {:induction false} ItoaReads(n: nat)
    ensures Itoa(n) != "" && forall i | 0 <= i < |Itoa(n)| :: '0' <= Itoa(n)[i] <= '9'
    ensures Reads(Itoa(n)) == n
    ensures n > 0 ==> Itoa(n)[0] != '0'
  {
    if n >= 10 {
      ItoaReads(n / 10);
      assert Itoa(n)[..|Itoa(n)| - 1] == Itoa(n / 10);
    } else {
      assert Itoa(n)[..0] == "";
    }
  }

  lemma {:induction false} RowLineAt(results: seq<CaseResult>, i: nat)
    requires i < |results|
    ensures |RowLines(results)| == |results|
    ensures RowLines(results)[i]
         == "| " + Sanitize(results[i].name) + " | " + (if results[i].passed then "PASS" else "FAIL") + " |"
  {
    var n := |results| - 1;
    if n > 0 {
      RowLineAt(results[..n], if i < n then i else 0);
    }
  }

  /** The table's line for case i names it and ends with its status. */
  lemma CaseLineIs(results: seq<CaseResult>, i: nat)
    requires i < |results|
    ensures i + 2 < |ReportLines(results)|
    ensures ReportLines(results)[i + 2]
         == "| " + Sanitize(results[i].name) + " | " + (if results[i].passed then "PASS" else "FAIL") + " |"
  {
    RowLineAt(results, i);
    var rest := ["", CountText(PassedCount(results), |results|)]
      + FailedLines(results) + ["", FinalVerdict(|FailedOf(results)|)];
    assert LinesBelowTitle(results) == [CASE_RULE] + RowLines(results) + rest;
  }

  /** The lines around the cases: the table's two lines before them, then how many of all passed, and the
      verdict last. */
  lemma FixedLinesAre(results: seq<CaseResult>)
    ensures var lines, n := ReportLines(results), |results|;
            var passed := |set i | 0 <= i < n && results[i].passed|;
            && |lines| >= n + 6 && passed <= n
            && lines[0] == "| Case | Status |" && lines[1] == "| --- | --- |"
            && lines[n + 2] == "" && lines[n + 3] == Itoa(passed) + "/" + Itoa(n) + " cases passed"
            && lines[|lines| - 2] == ""
            && lines[|lines| - 1] == if passed == n then "PASS" else "FAIL: " + Itoa(n - passed) + " case(s) failed"
  {
    hide RowLines, FailedLines, Itoa;
    PassedCountIs(results);
    CountsAddUp(results);
    LinesArePlain(results);
    RowsLaid(results);
  }

  /** A failed case's section follows those of the failed cases before it: a blank line, its name, the
      table's two lines, and a line for each failure. */
  lemma FailureSectionIs(results: seq<CaseResult>, i: nat) returns (above: seq<string>, below: seq<string>)
    requires i < |results| && !results[i].passed
    ensures |above| == |results| + 4 + FailureLineCount(results[..i])
    ensures var r := results[i];
            ReportLines(results)
            == above
               + (["", "## " + Sanitize(r.name), "| Check | Expected | Observed |", "| --- | --- | --- |"]
                  + seq(|r.failures|, j requires 0 <= j < |r.failures| =>
                      var f := r.failures[j];
                      "| " + Sanitize(f.check) + " | " + Sanitize(f.wanted) + " | " + Sanitize(f.observed) + " |"))
               + below
  {
    var a, b := SectionAt(results, i);
    FailureRowsAre(results[i].failures);
    var before := BelowCountIs(results);
    above, below := before + a, b + ["", FinalVerdict(|FailedOf(results)|)];
    Around(before, a, CaseLines(results[i]), b, ["", FinalVerdict(|FailedOf(results)|)]);
    hide ReportLines, FailedLines, FailureLineCount, Sanitize, FailureRowLines;
  }

  lemma Around(a: seq<string>, b: seq<string>, c: seq<string>, d: seq<string>, e: seq<string>)
    ensures a + (b + c + d) + e == (a + b) + c + (d + e)
  {
  }

  lemma BelowCountIs(results: seq<CaseResult>) returns (before: seq<string>)
    ensures |before| == |results| + 4
    ensures ReportLines(results) == before + FailedLines(results) + ["", FinalVerdict(|FailedOf(results)|)]
  {
    RowsLaid(results);
    hide FailedLines, RowLines, CountText, FailedOf, FinalVerdict, Plain, RowsOf, RowsText, Lay;
    before := [CASE_TITLE, CASE_RULE] + RowLines(results) + ["", CountText(PassedCount(results), |results|)];
    Retitle(CASE_TITLE, CASE_RULE, RowLines(results), ["", CountText(PassedCount(results), |results|)],
            FailedLines(results), ["", FinalVerdict(|FailedOf(results)|)]);
  }

  lemma Retitle(a: string, b: string, c: seq<string>, d: seq<string>, e: seq<string>, f: seq<string>)
    ensures [a] + ([b] + c + d + e + f) == ([a, b] + c + d) + e + f
  {
  }

  lemma {:induction false} SectionAt(results: seq<CaseResult>, i: nat) returns (a: seq<string>, b: seq<string>)
    requires i < |results| && !results[i].passed
    ensures |a| == FailureLineCount(results[..i])
    ensures FailedLines(results) == a + CaseLines(results[i]) + b
  {
    hide CaseLines, FailureLineCount, Plain, Lay, CasesText, FailedOf;
    var n := |results| - 1;
    var last := if results[n].passed then [] else CaseLines(results[n]);
    assert FailedLines(results) == FailedLines(results[..n]) + last;
    hide FailedLines;
    CasesLaid(results[..n]);
    if i < n {
      assert results[..n][..i] == results[..i];
      a, b := SectionAt(results[..n], i);
      Prefixed(a, CaseLines(results[i]), b, last);
      b := b + last;
    } else {
      a, b := FailedLines(results[..n]), [];
    }
  }

  lemma Prefixed(a: seq<string>, c: seq<string>, b: seq<string>, last: seq<string>)
    ensures (a + c + b) + last == a + c + (b + last)
  {
  }

  lemma {:induction false} FailureRowsAre(failures: seq<CheckFailure>)
    ensures FailureRowLines(failures) == seq(|failures|, j requires 0 <= j < |failures| =>
              var f := failures[j];
              "| " + Sanitize(f.check) + " | " + Sanitize(f.wanted) + " | " + Sanitize(f.observed) + " |")
  {
    hide Sanitize;
    if failures != [] {
      FailureRowsAre(failures[..|failures| - 1]);
    }
  }

  /** The report ends in PASS exactly when the exit code is 0, and exactly when as many cases passed
      as there are. */
  lemma VerdictMatchesExitCode(results: seq<CaseResult>)
    ensures var lines := T.SplitLines(ReportOf(results));
            && (lines[|lines| - 1] == "PASS" <==> forall r | r in results :: r.passed)
            && (lines[|lines| - 1] == "PASS" <==> PassedCount(results) == |results|)
  {
    ReportLayout(results);
    CountsAddUp(results);
    VerdictIsPlain(|FailedOf(results)|);
  }
}
