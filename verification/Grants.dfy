/** The text of the approval_grant column, and that approving works on it: step names may hold
    any characters, colons included. */
module Grants {
  import opened Models
  import opened Records
  import opened StateMachine
  import opened Worker

  // -- decimal numbers ---------------------------------------------------------------------

  function Digits(n: nat): string {
    if n < 10 then [('0' as int + n) as char] else Digits(n / 10) + [('0' as int + n % 10) as char]
  }

  predicate IsDigit(c: char) {
    '0' <= c <= '9'
  }

  /** int() on a string of digits; anything else raises. */
  function ParseInt(s: string): Option<nat> {
    if s == "" || !IsDigit(s[|s| - 1]) then None
    else
      var d := s[|s| - 1] as int - '0' as int;
      if |s| == 1 then Some(d)
      else
        var rest := ParseInt(s[..|s| - 1]);
        if rest.None? then None else Some(10 * rest.value + d)
  }

  lemma {:induction false} DigitsParse(n: nat)
    ensures ParseInt(Digits(n)) == Some(n)
    ensures ':' !in Digits(n)
  {
    if n >= 10 {
      DigitsParse(n / 10);
      assert Digits(n)[..|Digits(n)| - 1] == Digits(n / 10);
    }
  }

  // -- partition ---------------------------------------------------------------------------

  datatype Parts = Parts(before: string, after: string)

  /** str.partition(":"): split at the first colon. */
  function Partition(s: string): Parts {
    if s == "" then Parts("", "")
    else if s[0] == ':' then Parts("", s[1..])
    else var p := Partition(s[1..]); Parts([s[0]] + p.before, p.after)
  }

  /** str.rpartition(":"): split at the last colon; all of it comes after when there is none. */
  function RPartition(s: string): Parts {
    if s == "" then Parts("", "")
    else
      var n := |s| - 1;
      if s[n] == ':' then Parts(s[..n], "")
      else if ':' !in s[..n] then Parts("", s)
      else var p := RPartition(s[..n]); Parts(p.before, p.after + [s[n]])
  }

  lemma {:induction false} PartitionJoined(a: string, b: string)
    requires ':' !in a
    ensures Partition(a + ":" + b) == Parts(a, b)
  {
    var s := a + ":" + b;
    if a == "" { assert s[1..] == b; }
    else {
      assert s[1..] == a[1..] + ":" + b;
      PartitionJoined(a[1..], b);
      assert [a[0]] + a[1..] == a;
    }
  }

  lemma {:induction false} RPartitionJoined(a: string, b: string)
    requires ':' !in b
    ensures RPartition(a + ":" + b) == Parts(a, b)
  {
    var s := a + ":" + b;
    if b == "" { assert s[..|s| - 1] == a; }
    else {
      var n := |b| - 1;
      assert s[..|s| - 1] == a + ":" + b[..n];
      assert s[..|s| - 1][|a|] == ':';
      RPartitionJoined(a, b[..n]);
      assert b[..n] + [b[n]] == b;
    }
  }

  // -- the column --------------------------------------------------------------------------

  function AskedValue(step: string, attempt: nat): string {
    "asked" + ":" + (step + ":" + Digits(attempt))
  }

  function GrantValue(step: string, attempt: nat): string {
    "granted" + ":" + (step + ":" + Digits(attempt))
  }

  function Text(g: Grant): Option<string> {
    match g
    case NoGrant => None
    case Asked(step, attempt) => Some(AskedValue(step, attempt))
    case Granted(step, attempt) => Some(GrantValue(step, attempt))
  }

  datatype Fields = Fields(kind: string, step: string, attempt: string)

  /** How approve takes the column apart. */
  function Split(column: Option<string>): Fields {
    var p := Partition(if column.Some? then column.value else "");
    var r := RPartition(p.after);
    Fields(p.before, r.before, r.after)
  }

  lemma SplitText(g: Grant)
    ensures match g
            case NoGrant => Split(Text(g)) == Fields("", "", "")
            case Asked(step, attempt) => Split(Text(g)) == Fields("asked", step, Digits(attempt))
            case Granted(step, attempt) => Split(Text(g)) == Fields("granted", step, Digits(attempt))
  {
    if !g.NoGrant? {
      DigitsParse(g.attempt);
      PartitionJoined(if g.Asked? then "asked" else "granted", g.step + ":" + Digits(g.attempt));
      RPartitionJoined(g.step, Digits(g.attempt));
    }
  }

  /** No two grants are written alike: what is asked is never mistaken for what is granted, and
      no step name makes one attempt's grant pass for another's. */
  lemma TextInjective(a: Grant, b: Grant)
    requires Text(a) == Text(b)
    ensures a == b
  {
    SplitText(a);
    SplitText(b);
    if !a.NoGrant? { DigitsParse(a.attempt); }
    if !b.NoGrant? { DigitsParse(b.attempt); }
  }

  /** GateRequest.granted, on the column's text. */
  lemma GrantedMeansThisAttempt(row: Task, step: string, attempt: nat)
    ensures Text(row.grant) == Some(GrantValue(step, attempt)) <==> row.grant == Granted(step, attempt)
  {
    if Text(row.grant) == Some(GrantValue(step, attempt)) { TextInjective(row.grant, Granted(step, attempt)); }
  }

  /** approve, on the column's text: the new text, or None when it is refused. */
  function ApproveText(status: Status, current: string, column: Option<string>): Option<string> {
    var f := Split(column);
    if !status.AwaitingApproval? || f.kind != "asked" || f.step != current then None
    else
      var n := ParseInt(f.attempt);
      if n.None? then None else Some(GrantValue(f.step, n.value))
  }

  /** Approving by text is the approval the state machine models: accepted for exactly the same
      rows, and writing exactly the grant of the attempt that was asked for. */
  lemma ApproveByText(steps: seq<string>, row: Task)
    ensures var u := Decide(steps, row, Approve, None);
            match ApproveText(row.status, row.step, Text(row.grant))
            case None => u.Illegal?
            case Some(text) => u.Do? && u.decision.patch.grant.Set? && Text(u.decision.patch.grant.value) == Some(text)
  {
    SplitText(row.grant);
    if row.grant.Asked? { DigitsParse(row.grant.attempt); }
  }
}
