/** Generated session IDs (cmd/gateway/session.go) and the tool-call budget that is counted under
    them (cmd/gateway/policy_gate.go). */
module Budget {

  // ---------- session IDs ----------

  newtype byte = n: int | 0 <= n < 256

  function HexDigit(n: int): char
    requires 0 <= n < 16
  {
    "0123456789abcdef"[n]
  }

  /** %x of a byte slice. */
  function Hex(bytes: seq<byte>): (s: string)
    ensures |s| == 2 * |bytes|
    ensures forall i | 0 <= i < |bytes| ::
              s[2 * i] == HexDigit(bytes[i] as int / 16) && s[2 * i + 1] == HexDigit(bytes[i] as int % 16)
  {
    if bytes == [] then ""
    else
      var n := |bytes| - 1;
      Hex(bytes[..n]) + [HexDigit(bytes[n] as int / 16), HexDigit(bytes[n] as int % 16)]
  }

  /** The version and variant bits set. */
  function Marked(random: seq<byte>): seq<byte>
    requires |random| == 16
  {
    random[6 := ((random[6] as int) % 16 + 0x40) as byte][8 := ((random[8] as int) % 64 + 0x80) as byte]
  }

  /** Sixteen bytes in five groups. */
  function Grouped(b: seq<byte>): string
    requires |b| == 16
  {
    Hex(b[0..4]) + "-" + Hex(b[4..6]) + "-" + Hex(b[6..8]) + "-" + Hex(b[8..10]) + "-" + Hex(b[10..16])
  }

  function NewSessionId(random: seq<byte>): string
    requires |random| == 16
  {
    Grouped(Marked(random))
  }

  /** Version 4 of section 5.4 of RFC 9562: 36 characters, four dashes, version digit 4, variant
      digit 8, 9, a or b. */
  lemma SessionIdShape(random: seq<byte>)
    requires |random| == 16
    ensures var id := NewSessionId(random);
            && |id| == 36
            && id[8] == id[13] == id[18] == id[23] == '-'
            && id[14] == '4' && id[19] in "89ab"
  {
    var b := Marked(random);
    var third, fourth := Hex(b[6..8]), Hex(b[8..10]);
    assert b[6..8][0] == b[6] && b[8..10][0] == b[8];
    assert third[2 * 0] == HexDigit(4);
    assert fourth[2 * 0] == HexDigit(b[8] as int / 16);
  }

  lemma HexDigitInjective(a: int, b: int)
    requires 0 <= a < 16 && 0 <= b < 16 && HexDigit(a) == HexDigit(b)
    ensures a == b
  {
  }

  lemma HexInjective(a: seq<byte>, b: seq<byte>)
    requires |a| == |b| && Hex(a) == Hex(b)
    ensures a == b
  {
    hide HexDigit;
    forall i | 0 <= i < |a| ensures a[i] == b[i] {
      var x, y := a[i] as int, b[i] as int;
      assert HexDigit(x / 16) == Hex(a)[2 * i] == Hex(b)[2 * i] == HexDigit(y / 16);
      assert HexDigit(x % 16) == Hex(a)[2 * i + 1] == Hex(b)[2 * i + 1] == HexDigit(y % 16);
      HexDigitInjective(x / 16, y / 16);
      HexDigitInjective(x % 16, y % 16);
    }
  }

  /** Two generated IDs are equal exactly when the random bytes agree in the 122 bits that are kept. */
  lemma SessionIdsEqualIff(a: seq<byte>, b: seq<byte>)
    requires |a| == |b| == 16
    ensures NewSessionId(a) == NewSessionId(b) <==>
              && (forall i | 0 <= i < 16 && i != 6 && i != 8 :: a[i] == b[i])
              && a[6] as int % 16 == b[6] as int % 16 && a[8] as int % 64 == b[8] as int % 64
  {
    hide Grouped;
    if NewSessionId(a) == NewSessionId(b) {
      GroupsAgree(Marked(a), Marked(b));
    }
    MarkedEqualIff(a, b);
  }

  lemma MarkedEqualIff(a: seq<byte>, b: seq<byte>)
    requires |a| == |b| == 16
    ensures Marked(a) == Marked(b) <==>
              && (forall i | 0 <= i < 16 && i != 6 && i != 8 :: a[i] == b[i])
              && a[6] as int % 16 == b[6] as int % 16 && a[8] as int % 64 == b[8] as int % 64
  {
    var x, y := Marked(a), Marked(b);
    assert x[6] as int == a[6] as int % 16 + 64 && x[8] as int == a[8] as int % 64 + 128;
    assert y[6] as int == b[6] as int % 16 + 64 && y[8] as int == b[8] as int % 64 + 128;
    assert forall i | 0 <= i < 16 && i != 6 && i != 8 :: x[i] == a[i] && y[i] == b[i];
  }

  lemma GroupsAgree(x: seq<byte>, y: seq<byte>)
    requires |x| == |y| == 16 && Grouped(x) == Grouped(y)
    ensures x == y
  {
    hide Hex, Grouped;
    GroupsAre(x);
    GroupsAre(y);
    HexInjective(x[0..4], y[0..4]);
    HexInjective(x[4..6], y[4..6]);
    HexInjective(x[6..8], y[6..8]);
    HexInjective(x[8..10], y[8..10]);
    HexInjective(x[10..16], y[10..16]);
    Regrouped(x);
    Regrouped(y);
  }

  lemma Regrouped(b: seq<byte>)
    requires |b| == 16
    ensures b == b[0..4] + b[4..6] + b[6..8] + b[8..10] + b[10..16]
  {
  }

  lemma GroupsAre(b: seq<byte>)
    requires |b| == 16
    ensures var s := Grouped(b);
            && |s| == 36
            && Hex(b[0..4]) == s[0..8] && Hex(b[4..6]) == s[9..13] && Hex(b[6..8]) == s[14..18]
            && Hex(b[8..10]) == s[19..23] && Hex(b[10..16]) == s[24..36]
  {
    var p := Hex(b[0..4]);
    var q := p + "-" + Hex(b[4..6]);
    var r := q + "-" + Hex(b[6..8]);
    var s := r + "-" + Hex(b[8..10]);
    Dashed(s, Hex(b[10..16]));
    Dashed(r, Hex(b[8..10]));
    Dashed(q, Hex(b[6..8]));
    Dashed(p, Hex(b[4..6]));
    hide Hex;
    var id := Grouped(b);
    assert id[0..23] == s && s[0..18] == r && r[0..13] == q && q[0..8] == p;
    assert id[19..23] == s[19..23] && id[14..18] == s[14..18] == r[14..18];
    assert id[9..13] == s[9..13] == r[9..13] == q[9..13];
  }

  lemma Dashed(a: string, b: string)
    ensures var s := a + "-" + b; |s| == |a| + 1 + |b| && s[0..|a|] == a && s[|a| + 1..|s|] == b
  {
  }

  // ---------- counter keys ----------

  function BudgetKey(session: string, turn: string): string {
    session + ":" + turn
  }

  /** Keys of sessions of one length collide only when session and turn agree; the turn is any text. */
  lemma BudgetKeyInjective(s1: string, t1: string, s2: string, t2: string)
    requires |s1| == |s2|
    ensures BudgetKey(s1, t1) == BudgetKey(s2, t2) <==> s1 == s2 && t1 == t2
  {
    if BudgetKey(s1, t1) == BudgetKey(s2, t2) {
      assert s1 == BudgetKey(s1, t1)[..|s1|] == s2;
      assert t1 == BudgetKey(s1, t1)[|s1| + 1..] == t2;
    }
  }

  /** Without a fixed length they would collide. */
  lemma BudgetKeyCollides()
    ensures BudgetKey("a", "b:c") == BudgetKey("a:b", "c")
  {
  }

  // ---------- counting ----------

  type Counts = map<string, int>

  function CountOf(counts: Counts, key: string): int {
    if key in counts then counts[key] else 0
  }

  function Increment(counts: Counts, key: string): Counts {
    counts[key := CountOf(counts, key) + 1]
  }

  class BudgetTracker {
    var counts: Counts

    constructor ()
      ensures counts == map[]
    {
      counts := map[];
    }

    /** Runs under the tracker's mutex, so concurrent calls take effect one after the other. */
    method IncrementAndGet(session: string, turn: string) returns (n: int)
      modifies this
      ensures counts == Increment(old(counts), BudgetKey(session, turn))
      ensures n == CountOf(old(counts), BudgetKey(session, turn)) + 1
    {
      var key := BudgetKey(session, turn);
      counts := counts[key := CountOf(counts, key) + 1];
      n := counts[key];
    }
  }

  datatype Caller = Caller(session: string, turn: string)

  function CountsAfter(calls: seq<Caller>): Counts {
    if calls == [] then map[]
    else
      var c := calls[|calls| - 1];
      Increment(CountsAfter(calls[..|calls| - 1]), BudgetKey(c.session, c.turn))
  }

  /** How many of the calls were made by a caller. */
  function CallsOf(calls: seq<Caller>, who: Caller): nat {
    if calls == [] then 0
    else CallsOf(calls[..|calls| - 1], who) + if calls[|calls| - 1] == who then 1 else 0
  }

  /** How many of a caller's calls found the incremented count within the limit. */
  function Admitted(calls: seq<Caller>, limit: int, who: Caller): nat {
    if calls == [] then 0
    else
      var n := |calls| - 1;
      Admitted(calls[..n], limit, who) +
      if calls[n] == who && CountOf(CountsAfter(calls), BudgetKey(who.session, who.turn)) <= limit then 1 else 0
  }

  lemma {:induction false} CountIsCallsOf(calls: seq<Caller>, who: Caller)
    requires forall c | c in calls :: |c.session| == |who.session|
    ensures CountOf(CountsAfter(calls), BudgetKey(who.session, who.turn)) == CallsOf(calls, who)
  {
    if calls != [] {
      var c := calls[|calls| - 1];
      assert c in calls;
      CountIsCallsOf(calls[..|calls| - 1], who);
      BudgetKeyInjective(c.session, c.turn, who.session, who.turn);
    }
  }

  /** The budget is exact for every session and turn, in every order in which the increments of any
      number of callers take effect: of a caller's n calls, min(n, limit) get through, none when the
      limit is negative, and other callers do not matter. */
  lemma {:induction false} BudgetExact(calls: seq<Caller>, limit: int, who: Caller)
    requires forall c | c in calls :: |c.session| == |who.session|
    ensures var n, cap := CallsOf(calls, who), if limit < 0 then 0 else limit;
            Admitted(calls, limit, who) == if n < cap then n else cap
  {
    if calls != [] {
      assert calls[|calls| - 1] in calls;
      BudgetExact(calls[..|calls| - 1], limit, who);
      CountIsCallsOf(calls, who);
    }
  }

  /** The sessions a gateway has issued all have one length, so the budget is exact among them. */
  lemma IssuedSessionsHaveOneLength(a: seq<byte>, b: seq<byte>)
    requires |a| == |b| == 16
    ensures |NewSessionId(a)| == |NewSessionId(b)| == 36
  {
    SessionIdShape(a);
    SessionIdShape(b);
  }
}
