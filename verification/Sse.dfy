/** Server-sent events: the printer writeSSE (cmd/eval-runner/stream.go) against the chunked reader
    readSSE and parseSSEFrame (cmd/eval-runner/ui.html) and the forwarder's single-event reader
    readFirstSSEData (core/mcp/forwarder.go). */
module Sse {
  import opened Wrappers

  datatype Event = Event(name: string, data: string)

  // ---------- text ----------

  /** White space for String.prototype.trim. */
  predicate JsSpace(c: char) {
    c in "\t\n\U{0B}\U{0C}\r \U{A0}\U{1680}\U{2028}\U{2029}\U{202F}\U{205F}\U{3000}\U{FEFF}"
        || '\U{2000}' <= c <= '\U{200A}'
  }

  /** White space for strings.TrimSpace. */
  predicate GoSpace(c: char) {
    c in "\t\n\U{0B}\U{0C}\r \U{85}\U{A0}\U{1680}\U{2028}\U{2029}\U{202F}\U{205F}\U{3000}"
        || '\U{2000}' <= c <= '\U{200A}'
  }

  /** The browser and the gateway disagree about two characters only, and no visible character of ASCII is
      white space for either. */
  lemma SpacesDiffer(c: char)
    ensures (JsSpace(c) <==> GoSpace(c)) <==> c != '\U{85}' && c != '\U{FEFF}'
    ensures c <= '\U{7F}' ==> (JsSpace(c) <==> c == ' ' || '\t' <= c <= '\r')
  {
  }

  function TrimLeft(s: string, space: char -> bool): string {
    if s != "" && space(s[0]) then TrimLeft(s[1..], space) else s
  }

  function TrimRight(s: string, space: char -> bool): string {
    if s != "" && space(s[|s| - 1]) then TrimRight(s[..|s| - 1], space) else s
  }

  function Trim(s: string, space: char -> bool): string {
    TrimRight(TrimLeft(s, space), space)
  }

  /** Neither end is white space. */
  predicate Tight(s: string, space: char -> bool) {
    s == "" || (!space(s[0]) && !space(s[|s| - 1]))
  }

  lemma {:induction false} TrimRightTight(s: string, space: char -> bool)
    ensures var r := TrimRight(s, space);
            && r <= s
            && (r != "" ==> !space(r[|r| - 1]))
            && (s != "" && !space(s[0]) ==> r != "" && r[0] == s[0])
            && (r == s <==> s == "" || !space(s[|s| - 1]))
  {
    if s != "" && space(s[|s| - 1]) {
      TrimRightTight(s[..|s| - 1], space);
    }
  }

  lemma {:induction false} TrimLeftTight(s: string, space: char -> bool)
    ensures var r := TrimLeft(s, space);
            && |r| <= |s| && (r != "" ==> !space(r[0]))
            && (r == s <==> s == "" || !space(s[0]))
  {
    if s != "" && space(s[0]) {
      TrimLeftTight(s[1..], space);
    }
  }

  /** One leading space is trimmed away and the rest survives exactly when it is tight. */
  lemma TrimSpaced(s: string, space: char -> bool)
    requires space(' ')
    ensures Trim(" " + s, space) == s <==> Tight(s, space)
  {
    assert (" " + s)[1..] == s;
    TrimLeftTight(s, space);
    TrimRightTight(TrimLeft(s, space), space);
    TrimRightTight(s, space);
  }

  /** split('\n'). */
  function SplitLines(s: string): seq<string>
    ensures SplitLines(s) != []
  {
    if s == "" then [""]
    else if s[0] == '\n' then [""] + SplitLines(s[1..])
    else
      var rest := SplitLines(s[1..]);
      [[s[0]] + rest[0]] + rest[1..]
  }

  lemma {:induction false} SplitLinesPlain(s: string)
    requires '\n' !in s
    ensures SplitLines(s) == [s]
  {
    if s != "" {
      SplitLinesPlain(s[1..]);
      assert [s[0]] + s[1..] == s;
    }
  }

  lemma {:induction false} SplitLinesFirst(a: string, b: string)
    requires '\n' !in a
    ensures SplitLines(a + "\n" + b) == [a] + SplitLines(b)
  {
    var s := a + "\n" + b;
    if a == "" {
      assert s[1..] == b;
    } else {
      assert s[1..] == a[1..] + "\n" + b;
      SplitLinesFirst(a[1..], b);
      assert [s[0]] + a[1..] == a;
    }
  }

  // ---------- the printer ----------

  function Frame(e: Event): string {
    "event: " + e.name + "\n" + "data: " + e.data
  }

  /** What writeSSE sends for one event. */
  function Printed(e: Event): string {
    Frame(e) + "\n\n"
  }

  lemma PrintedIs(e: Event)
    ensures Printed(e) == "event: " + e.name + "\ndata: " + e.data + "\n\n"
  {
    assert "\n" + "data: " == "\ndata: ";
    Regroup("event: " + e.name, "\n", "data: ", e.data, "\n\n");
  }

  lemma Regroup(a: string, b: string, c: string, d: string, e: string)
    ensures (a + b + c + d) + e == a + (b + c) + d + e
  {
  }

  function PrintedAll(events: seq<Event>): string {
    if events == [] then "" else Printed(events[0]) + PrintedAll(events[1..])
  }

  // ---------- frames ----------

  predicate BreakAt(s: string, j: nat) {
    j + 1 < |s| && s[j] == '\n' && s[j + 1] == '\n'
  }

  /** indexOf('\n\n') from a position on; the length when there is none. */
  function BreakFrom(s: string, from: nat): (i: nat)
    requires from <= |s|
    ensures from <= i <= |s|
    ensures i < |s| ==> BreakAt(s, i)
    ensures forall j | from <= j < i :: !BreakAt(s, j)
    decreases |s| - from
  {
    if from == |s| then from
    else if BreakAt(s, from) then from
    else BreakFrom(s, from + 1)
  }

  datatype Drained = Drained(frames: seq<string>, rest: string)

  /** All complete frames of a buffer, and what remains. */
  function Drain(buffer: string): Drained
    decreases |buffer|
  {
    var i := BreakFrom(buffer, 0);
    if i == |buffer| then Drained([], buffer)
    else
      var more := Drain(buffer[i + 2..]);
      Drained([buffer[..i]] + more.frames, more.rest)
  }

  /** The first break of a buffer stays the first break when text is appended. */
  lemma BreakStable(s: string, more: string)
    requires BreakFrom(s, 0) < |s|
    ensures BreakFrom(s + more, 0) == BreakFrom(s, 0)
  {
    var i, j := BreakFrom(s, 0), BreakFrom(s + more, 0);
    assert BreakAt(s + more, i);
    assert j <= i;
    assert BreakAt(s, j);
  }

  /** Draining is incremental: what was left over, with more text, continues where it stopped. */
  lemma {:induction false} DrainAppend(buffer: string, more: string)
    ensures var first := Drain(buffer);
            var second := Drain(first.rest + more);
            Drain(buffer + more) == Drained(first.frames + second.frames, second.rest)
    decreases |buffer|
  {
    var i := BreakFrom(buffer, 0);
    if i < |buffer| {
      var head, tail := buffer[..i], buffer[i + 2..];
      DrainStep(buffer);
      DrainStepAppend(buffer, more);
      DrainAppend(tail, more);
      FramesAssociate(head, Drain(tail).frames, Drain(Drain(tail).rest + more).frames);
    } else {
      NoFrames(Drain(buffer + more).frames);
    }
  }

  lemma FramesAssociate(head: string, a: seq<string>, b: seq<string>)
    ensures [head] + (a + b) == ([head] + a) + b
  {
  }

  lemma NoFrames(a: seq<string>)
    ensures [] + a == a
  {
  }

  lemma DrainStepAppend(buffer: string, more: string)
    requires BreakFrom(buffer, 0) < |buffer|
    ensures var i := BreakFrom(buffer, 0);
            var after := Drain(buffer[i + 2..] + more);
            Drain(buffer + more) == Drained([buffer[..i]] + after.frames, after.rest)
  {
    var i := BreakFrom(buffer, 0);
    BreakStable(buffer, more);
    DrainStep(buffer + more);
    assert (buffer + more)[i + 2..] == buffer[i + 2..] + more;
    assert (buffer + more)[..i] == buffer[..i];
  }

  lemma DrainStep(buffer: string)
    requires BreakFrom(buffer, 0) < |buffer|
    ensures var i := BreakFrom(buffer, 0);
            var more := Drain(buffer[i + 2..]);
            Drain(buffer) == Drained([buffer[..i]] + more.frames, more.rest)
  {
  }

  // ---------- parsing a frame ----------

  predicate HasPrefix(s: string, p: string) {
    p <= s
  }

  datatype Fields = Fields(event: string, data: seq<string>)

  /** The last event name and all data lines. */
  function FieldsOf(lines: seq<string>): Fields {
    if lines == [] then Fields("", [])
    else
      var n := |lines| - 1;
      var before := FieldsOf(lines[..n]);
      if HasPrefix(lines[n], "event:") then before.(event := Trim(lines[n][6..], JsSpace))
      else if HasPrefix(lines[n], "data:") then before.(data := before.data + [Trim(lines[n][5..], JsSpace)])
      else before
  }

  function JoinLines(lines: seq<string>): string {
    if lines == [] then ""
    else if |lines| == 1 then lines[0]
    else lines[0] + "\n" + JoinLines(lines[1..])
  }

  /** The event name is that of the last line that starts with "event:". */
  lemma {:induction false} EventNameIs(lines: seq<string>, last: nat)
    requires last <= |lines| && (last < |lines| ==> "event:" <= lines[last])
    requires forall i | 0 <= i < |lines| && "event:" <= lines[i] :: i <= last < |lines|
    ensures FieldsOf(lines).event == if last < |lines| then Trim(lines[last][6..], JsSpace) else ""
  {
    hide Trim;
    if lines != [] {
      var n := |lines| - 1;
      if last != n {
        EventNameIs(lines[..n], if last < n then last else n);
      }
    }
  }

  /** The data are all lines that start with "data:", in order. */
  lemma {:induction false} DataLinesAre(lines: seq<string>) returns (at: seq<nat>)
    ensures forall i | 0 <= i < |at| :: at[i] < |lines| && 5 <= |lines[at[i]]| && HasPrefix(lines[at[i]], "data:")
    ensures forall i | 0 <= i < |lines| && HasPrefix(lines[i], "data:") :: i in at
    ensures forall i, j | 0 <= i < j < |at| :: at[i] < at[j]
    ensures |FieldsOf(lines).data| == |at|
    ensures forall i | 0 <= i < |at| :: FieldsOf(lines).data[i] == Trim(lines[at[i]][5..], JsSpace)
  {
    hide Trim, FieldsOf;
    if lines == [] {
      NoLines();
      return [];
    }
    var n := |lines| - 1;
    var before := DataLinesAre(lines[..n]);
    DataStep(lines);
    hide HasPrefix;
    if HasPrefix(lines[n], "data:") {
      at := before + [n];
      forall i | 0 <= i < n && HasPrefix(lines[i], "data:") ensures i in at {
        assert lines[..n][i] == lines[i];
      }
    } else {
      at := before;
      forall i | 0 <= i < |lines| && HasPrefix(lines[i], "data:") ensures i in at {
        assert lines[..n][i] == lines[i];
      }
    }
  }

  lemma NoLines()
    ensures FieldsOf([]) == Fields("", [])
  {
  }

  lemma DataStep(lines: seq<string>)
    requires lines != []
    ensures var n := |lines| - 1;
            FieldsOf(lines).data == FieldsOf(lines[..n]).data
              + if "data:" <= lines[n] then [Trim(lines[n][5..], JsSpace)] else []
  {
    hide Trim;
    var line := lines[|lines| - 1];
    assert "event:" <= line ==> line[0] == 'e';
    assert "data:" <= line ==> line[0] == 'd';
  }

  /** Joining puts one line break between the lines. */
  lemma {:induction false} JoinThenSplit(lines: seq<string>)
    requires lines != [] && forall line | line in lines :: '\n' !in line
    ensures SplitLines(JoinLines(lines)) == lines
  {
    if |lines| == 1 {
      SplitLinesPlain(lines[0]);
    } else {
      JoinThenSplit(lines[1..]);
      SplitLinesFirst(lines[0], JoinLines(lines[1..]));
    }
  }

  /** A frame makes an event exactly when its last name is not empty and it has data; the data lines
      stay apart. */
  lemma ParsedFrameIff(frame: string)
    ensures var f := FieldsOf(SplitLines(frame));
            match ParsedFrame(frame)
            case None => f.event == "" || f.data == []
            case Some(e) =>
              f.event != "" && f.data != [] && e.name == f.event
              && ((forall line | line in f.data :: '\n' !in line) ==> SplitLines(e.data) == f.data)
  {
    var f := FieldsOf(SplitLines(frame));
    if f.data != [] && forall line | line in f.data :: '\n' !in line {
      JoinThenSplit(f.data);
    }
  }

  function ParsedFrame(frame: string): Option<Event> {
    var f := FieldsOf(SplitLines(frame));
    if f.event == "" || f.data == [] then None else Some(Event(f.event, JoinLines(f.data)))
  }

  function ParsedFrames(frames: seq<string>): seq<Event> {
    if frames == [] then []
    else
      var e := ParsedFrame(frames[|frames| - 1]);
      ParsedFrames(frames[..|frames| - 1]) + if e.Some? then [e.value] else []
  }

  lemma {:induction false} ParsedFramesAppend(a: seq<string>, b: seq<string>)
    ensures ParsedFrames(a + b) == ParsedFrames(a) + ParsedFrames(b)
  {
    hide ParsedFrame;
    if b == [] {
      assert a + b == a;
    } else {
      var n := |b| - 1;
      ParsedFramesAppend(a, b[..n]);
      assert (a + b)[..|a| + n] == a + b[..n];
    }
  }

  method ParseSSEFrame(frame: string) returns (r: Option<Event>)
    ensures r == ParsedFrame(frame)
  {
    var lines := SplitLines(frame);
    var event, dataLines := "", [];
    for i := 0 to |lines|
      invariant Fields(event, dataLines) == FieldsOf(lines[..i])
    {
      assert lines[..i + 1][..i] == lines[..i];
      var line := lines[i];
      if HasPrefix(line, "event:") {
        event := Trim(line[6..], JsSpace);
      } else if HasPrefix(line, "data:") {
        dataLines := dataLines + [Trim(line[5..], JsSpace)];
      }
    }
    assert lines[..|lines|] == lines;
    if event == "" || |dataLines| == 0 {
      return None;
    }
    return Some(Event(event, JoinLines(dataLines)));
  }

  // ---------- the chunked reader ----------

  function Joined(chunks: seq<string>): string {
    if chunks == [] then "" else Joined(chunks[..|chunks| - 1]) + chunks[|chunks| - 1]
  }

  /** A text is drained up to a buffer. */
  predicate Left(text: string, done: seq<string>, buffer: string) {
    Drain(text) == Drained(done + Drain(buffer).frames, Drain(buffer).rest)
  }

  lemma OneFrameLess(text: string, done: seq<string>, buffer: string)
    requires Left(text, done, buffer) && BreakFrom(buffer, 0) < |buffer|
    ensures var i := BreakFrom(buffer, 0); Left(text, done + [buffer[..i]], buffer[i + 2..])
  {
    var i := BreakFrom(buffer, 0);
    DrainStep(buffer);
    FramesAppend(done, buffer[..i], Drain(buffer[i + 2..]).frames);
  }

  lemma FramesAppend(a: seq<string>, frame: string, b: seq<string>)
    ensures a + ([frame] + b) == (a + [frame]) + b
  {
  }

  lemma ParsedOneMore(done: seq<string>, frame: string)
    ensures ParsedFrames(done + [frame]) == ParsedFrames(done) +
              if ParsedFrame(frame).Some? then [ParsedFrame(frame).value] else []
  {
    hide ParsedFrame;
    assert (done + [frame])[..|done|] == done;
  }

  lemma LeftAtStart(text: string)
    ensures Left(text, [], text)
  {
    NoFrames(Drain(text).frames);
  }

  lemma NothingLeft(text: string, done: seq<string>, buffer: string)
    requires Left(text, done, buffer) && BreakFrom(buffer, 0) == |buffer|
    ensures Drain(text) == Drained(done, buffer)
  {
    assert done + [] == done;
  }

  /** The inner loop: hand over every complete frame of the buffer. */
  method TakeFrames(sofar: seq<Event>, text: string) returns (events: seq<Event>, buffer: string)
    ensures events == sofar + ParsedFrames(Drain(text).frames)
    ensures buffer == Drain(text).rest
  {
    hide ParsedFrame, Drain, Left;
    events, buffer := sofar, text;
    ghost var done: seq<string> := [];
    LeftAtStart(text);
    var boundary := BreakFrom(buffer, 0);
    while boundary < |buffer|
      invariant boundary == BreakFrom(buffer, 0)
      invariant Left(text, done, buffer)
      invariant events == sofar + ParsedFrames(done)
      decreases |buffer|
    {
      var frame := buffer[..boundary];
      OneFrameLess(text, done, buffer);
      ParsedOneMore(done, frame);
      buffer := buffer[boundary + 2..];
      var parsed := ParseSSEFrame(frame);
      if parsed.Some? {
        events := events + [parsed.value];
      }
      done := done + [frame];
      boundary := BreakFrom(buffer, 0);
    }
    NothingLeft(text, done, buffer);
  }

  /** The incremental reader: however the text is cut into chunks, the events are those of the frames
      of the whole text, in order, and the buffer ends as what follows its last complete frame. */
  method ReadSSE(chunks: seq<string>) returns (events: seq<Event>, buffer: string)
    ensures events == ParsedFrames(Drain(Joined(chunks)).frames)
    ensures buffer == Drain(Joined(chunks)).rest
  {
    events, buffer := [], "";
    for i := 0 to |chunks|
      invariant events == ParsedFrames(Drain(Joined(chunks[..i])).frames)
      invariant buffer == Drain(Joined(chunks[..i])).rest
    {
      ghost var seen := Drain(Joined(chunks[..i]));
      assert chunks[..i + 1][..i] == chunks[..i];
      DrainAppend(Joined(chunks[..i]), chunks[i]);
      ParsedFramesAppend(seen.frames, Drain(buffer + chunks[i]).frames);
      events, buffer := TakeFrames(events, buffer + chunks[i]);
    }
    assert chunks[..|chunks|] == chunks;
  }

  // ---------- round trip ----------

  predicate OneLine(e: Event) {
    '\n' !in e.name && '\n' !in e.data
  }

  lemma FieldsOfFrame(e: Event)
    requires OneLine(e)
    ensures FieldsOf(SplitLines(Frame(e))) == Fields(Trim(" " + e.name, JsSpace), [Trim(" " + e.data, JsSpace)])
  {
    var a, b := "event: " + e.name, "data: " + e.data;
    assert '\n' !in a && '\n' !in b;
    assert Frame(e) == a + "\n" + b;
    SplitLinesFirst(a, b);
    SplitLinesPlain(b);
    assert SplitLines(Frame(e)) == [a, b];
    assert a[..6] == "event:" && a[6..] == " " + e.name;
    assert b[..5] == "data:" && b[5..] == " " + e.data;
    assert b[0] == 'd';
    FieldsOfTwo(a, b);
  }

  lemma FieldsOfTwo(a: string, b: string)
    requires HasPrefix(a, "event:") && HasPrefix(b, "data:") && !HasPrefix(b, "event:")
    ensures FieldsOf([a, b]) == Fields(Trim(a[6..], JsSpace), [Trim(b[5..], JsSpace)])
  {
    assert [a, b][..1] == [a] && [a][..0] == [];
    assert FieldsOf([a]) == Fields(Trim(a[6..], JsSpace), []);
  }

  /** A printed frame parses back to its event exactly when the name is there and neither field has
      outer white space. */
  lemma FrameSurvivesIff(e: Event)
    requires OneLine(e)
    ensures ParsedFrame(Frame(e)) == Some(e) <==> e.name != "" && Tight(e.name, JsSpace) && Tight(e.data, JsSpace)
  {
    FieldsOfFrame(e);
    TrimSpaced(e.name, JsSpace);
    TrimSpaced(e.data, JsSpace);
  }

  lemma PrintedBreak(e: Event, more: string)
    requires OneLine(e)
    ensures BreakFrom(Printed(e) + more, 0) == |Frame(e)|
  {
    var s, n := Printed(e) + more, |Frame(e)|;
    assert BreakAt(s, n);
    forall j | 0 <= j < n ensures !BreakAt(s, j) {
      var k := |"event: " + e.name|;
      assert s[..n] == "event: " + e.name + "\n" + "data: " + e.data;
      if j < 7 {
        assert s[j] == "event: "[j];
      } else if j < k {
        assert s[j] == e.name[j - 7];
      } else if j == k {
        assert s[j + 1] == 'd';
      } else if j < k + 7 {
        assert s[j] == "data: "[j - k - 1];
      } else {
        assert s[j] == e.data[j - k - 7];
      }
    }
  }

  lemma DrainOne(frame: string, rest: string)
    requires BreakFrom(frame + "\n\n" + rest, 0) == |frame|
    ensures Drain(frame + "\n\n" + rest) == Drained([frame] + Drain(rest).frames, Drain(rest).rest)
  {
    var s := frame + "\n\n" + rest;
    assert s[..|frame|] == frame && s[|frame| + 2..] == rest;
    DrainStep(s);
  }

  lemma {:induction false} DrainPrinted(events: seq<Event>)
    requires forall e | e in events :: OneLine(e)
    ensures Drain(PrintedAll(events)).rest == ""
    ensures |Drain(PrintedAll(events)).frames| == |events|
    ensures forall i | 0 <= i < |events| :: Drain(PrintedAll(events)).frames[i] == Frame(events[i])
  {
    hide Frame, Drain, OneLine;
    if events == [] {
      DrainNothing();
    } else {
      var rest := PrintedAll(events[1..]);
      PrintedBreak(events[0], rest);
      DrainPrinted(events[1..]);
      DrainOne(Frame(events[0]), rest);
      forall i | 0 <= i < |events| ensures Drain(PrintedAll(events)).frames[i] == Frame(events[i]) {
        if i > 0 {
          assert events[1..][i - 1] == events[i];
        }
      }
    }
  }

  lemma DrainNothing()
    ensures Drain("") == Drained([], "")
  {
  }

  lemma {:induction false} ParsedFramesExact(frames: seq<string>, events: seq<Event>)
    requires |frames| == |events|
    requires forall i | 0 <= i < |events| :: ParsedFrame(frames[i]) == Some(events[i])
    ensures ParsedFrames(frames) == events
  {
    if frames != [] {
      var n := |frames| - 1;
      ParsedFramesExact(frames[..n], events[..n]);
      assert events[..n] + [events[n]] == events;
    }
  }

  /** Round trip: events whose fields have no line break and no outer white space and whose names are
      not empty are read back exactly, with nothing left in the buffer, for every way of cutting the
      printed text into chunks. */
  lemma RoundTrip(events: seq<Event>, chunks: seq<string>)
    requires forall e | e in events :: OneLine(e) && e.name != "" && Tight(e.name, JsSpace) && Tight(e.data, JsSpace)
    requires Joined(chunks) == PrintedAll(events)
    ensures ParsedFrames(Drain(Joined(chunks)).frames) == events
    ensures Drain(Joined(chunks)).rest == ""
  {
    DrainPrinted(events);
    forall i | 0 <= i < |events| ensures ParsedFrame(Drain(PrintedAll(events)).frames[i]) == Some(events[i]) {
      FrameSurvivesIff(events[i]);
    }
    ParsedFramesExact(Drain(PrintedAll(events)).frames, events);
  }

  // ---------- the forwarder's reader ----------

  /** A scanner line: without its line break and a carriage return before it. */
  function DropCr(line: string): string {
    if line != "" && line[|line| - 1] == '\r' then line[..|line| - 1] else line
  }

  /** The trimmed rest of the first line that starts with "data:". */
  function FirstData(lines: seq<string>): Option<string> {
    if lines == [] then None
    else
      var line := DropCr(lines[0]);
      if HasPrefix(line, "data:") then Some(Trim(line[5..], GoSpace)) else FirstData(lines[1..])
  }

  method ReadFirstSSEData(body: string) returns (data: Option<string>)
    ensures data == FirstData(SplitLines(body))
  {
    var lines := SplitLines(body);
    for i := 0 to |lines|
      invariant FirstData(lines) == FirstData(lines[i..])
    {
      var line := DropCr(lines[i]);
      assert lines[i..][0] == lines[i] && lines[i..][1..] == lines[i + 1..];
      if HasPrefix(line, "data:") {
        return Some(Trim(line[5..], GoSpace));
      }
    }
    assert lines[|lines|..] == [];
    return None;
  }

  lemma {:induction false} TrimLeftMore(s: string, c: char, space: char -> bool)
    requires space(c)
    ensures TrimLeft(s + [c], space) == if TrimLeft(s, space) == "" then "" else TrimLeft(s, space) + [c]
  {
    if s == "" {
      assert (s + [c])[1..] == "";
    } else if space(s[0]) {
      assert (s + [c])[1..] == s[1..] + [c];
      TrimLeftMore(s[1..], c, space);
    }
  }

  lemma TrimMore(s: string, c: char, space: char -> bool)
    requires space(c)
    ensures Trim(s + [c], space) == Trim(s, space)
  {
    TrimLeftMore(s, c, space);
    var left := TrimLeft(s, space);
    assert (left + [c])[..|left|] == left;
  }

  /** It finds the first line that starts with "data:" and no other; a carriage return before the line break
      does not matter. */
  lemma {:induction false} FirstDataIs(lines: seq<string>, k: nat)
    requires k <= |lines| && forall i | 0 <= i < k :: !("data:" <= lines[i])
    requires k < |lines| ==> "data:" <= lines[k]
    ensures FirstData(lines) == if k < |lines| then Some(Trim(lines[k][5..], GoSpace)) else None
  {
    if lines != [] {
      var line := lines[0];
      if k > 0 {
        FirstDataIs(lines[1..], k - 1);
      } else if DropCr(line) != line {
        var n := |line| - 1;
        assert line[4] == "data:"[4] == ':' && n > 4;
        assert "data:" <= line[..n] && line[5..] == line[..n][5..] + ['\r'];
        TrimMore(line[..n][5..], '\r', GoSpace);
      }
    }
  }

  /** The forwarder's reader agrees with the printer: it finds the data of the first printed event. */
  lemma FirstDataOfPrinted(e: Event, more: string)
    requires OneLine(e) && Tight(e.data, GoSpace)
    ensures FirstData(SplitLines(Printed(e) + more)) == Some(e.data)
  {
    var a, b := "event: " + e.name, "data: " + e.data;
    assert '\n' !in a && '\n' !in b;
    assert Printed(e) + more == a + "\n" + (b + "\n" + ("\n" + more));
    SplitLinesFirst(a, b + "\n" + ("\n" + more));
    SplitLinesFirst(b, "\n" + more);
    var lines := SplitLines(Printed(e) + more);
    assert lines == [a] + ([b] + SplitLines("\n" + more));
    assert a[0] == 'e' && lines[0] == a && lines[1..][0] == b;
    assert DropCr(a) == "" || DropCr(a)[0] == 'e';
    assert DropCr(b) == b by {
      assert e.data == "" || e.data[|e.data| - 1] == b[|b| - 1];
    }
    assert b[..5] == "data:" && b[5..] == " " + e.data;
    TrimSpaced(e.data, GoSpace);
  }
}
