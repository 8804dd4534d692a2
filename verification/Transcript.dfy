/** The wire view of a log: the message fold, and when its tool calls and results pair up
    (crates/agent-loop/src/request.rs). */
module Transcript {
  import opened Base
  import opened Items

  datatype Role = System | User | Agent | Tool

  datatype Message = Message(
    role: Role,
    content: string,
    calls: seq<ToolCallRef>,
    answers: Option<string>,
    thinking: Option<string>
  )

  function Plain(role: Role, content: string): Message {
    Message(role, content, [], None, None)
  }

  /** The message a log row contributes, if any. */
  function MessageOf(kind: ItemKind): seq<Message> {
    match kind
    case Input(text, _) => [Plain(User, text)]
    case Assistant(m, _) => [Message(Agent, m.content, m.calls, None, m.thinking)]
    case ToolResult(id, content, _) => [Message(Tool, content, [], Some(id), None)]
    case _ => []
  }

  function Fold(kinds: seq<ItemKind>): seq<Message> {
    if kinds == [] then [] else Fold(kinds[..|kinds| - 1]) + MessageOf(kinds[|kinds| - 1])
  }

  function Kinds(items: seq<Item>): seq<ItemKind> {
    seq(|items|, i requires 0 <= i < |items| => items[i].kind)
  }

  lemma FoldSnoc(kinds: seq<ItemKind>, kind: ItemKind)
    ensures Fold(kinds + [kind]) == Fold(kinds) + MessageOf(kind)
  {
    assert (kinds + [kind])[..|kinds|] == kinds;
  }

  // ---- messages up to their free text ----

  function Shape(m: Message): Message {
    m.(content := "", thinking := None)
  }

  ghost predicate SameShape(a: seq<Message>, b: seq<Message>) {
    |a| == |b| && forall i :: 0 <= i < |a| ==> Shape(a[i]) == Shape(b[i])
  }

  /** Blanking the tool texts of a log does not change the shape of its fold. */
  lemma {:induction false} RowsKeepShape(items: seq<Item>)
    ensures SameShape(Fold(Kinds(items)), Fold(Rows(items)))
  {
    if items != [] {
      var n := |items| - 1;
      RowsKeepShape(items[..n]);
      assert Kinds(items)[..n] == Kinds(items[..n]);
      assert Rows(items)[..n] == Rows(items[..n]);
    }
  }

  // ---- pairing as an automaton ----

  /** `Some(ids)`: the rows read so far pair up and exactly `ids` must be answered next, in order. */
  function Step(open: Option<seq<string>>, m: Message): Option<seq<string>> {
    if open.None? then None
    else if m.role == Tool then
      if open.value != [] && m.answers == Some(open.value[0]) then Some(open.value[1..]) else None
    else if open.value != [] then None
    else if m.role == Agent then Some(CallIds(m.calls))
    else open
  }

  function Scan(open: Option<seq<string>>, ms: seq<Message>): Option<seq<string>> {
    if ms == [] then open else Step(Scan(open, ms[..|ms| - 1]), ms[|ms| - 1])
  }

  lemma {:induction false} ScanConcat(open: Option<seq<string>>, a: seq<Message>, b: seq<Message>)
    ensures Scan(open, a + b) == Scan(Scan(open, a), b)
  {
    if b == [] {
      assert a + b == a;
    } else {
      var n := |b| - 1;
      ScanConcat(open, a, b[..n]);
      assert (a + b)[..|a| + n] == a + b[..n];
    }
  }

  lemma {:induction false} ScanNone(ms: seq<Message>)
    ensures Scan(None, ms) == None
  {
    if ms != [] { ScanNone(ms[..|ms| - 1]); }
  }

  lemma {:induction false} ScanSameShape(open: Option<seq<string>>, a: seq<Message>, b: seq<Message>)
    requires SameShape(a, b)
    ensures Scan(open, a) == Scan(open, b)
  {
    if a != [] {
      var n := |a| - 1;
      ScanSameShape(open, a[..n], b[..n]);
      assert Shape(a[n]) == Shape(b[n]);
      assert a[n].role == Shape(a[n]).role && a[n].calls == Shape(a[n]).calls && a[n].answers == Shape(a[n]).answers;
      assert b[n].role == Shape(b[n]).role && b[n].calls == Shape(b[n]).calls && b[n].answers == Shape(b[n]).answers;
    }
  }

  lemma ScanSingle(open: Option<seq<string>>, m: Message)
    ensures Scan(open, [m]) == Step(open, m)
  {
    assert [m][..0] == [];
  }

  lemma ScanOfRow(open: Option<seq<string>>, row: ItemKind)
    ensures Scan(open, MessageOf(row)) == PairStep(open, row)
  {
    assert Scan(open, []) == open;
    hide Scan, CallIds;
    match row
    case Input(text, _) => ScanSingle(open, Plain(User, text));
    case Assistant(m, _) => ScanSingle(open, Message(Agent, m.content, m.calls, None, m.thinking));
    case ToolResult(id, content, _) => ScanSingle(open, Message(Tool, content, [], Some(id), None));
    case _ =>
  }

  /** The log scan and the message scan agree. */
  lemma {:induction false} ScanOfLog(rows: seq<ItemKind>)
    ensures Scan(Some([]), Fold(rows)) == PairScan(rows)
  {
    if rows != [] {
      var n := |rows| - 1;
      ScanOfLog(rows[..n]);
      hide MessageOf, PairStep, Step;
      ScanConcat(Some([]), Fold(rows[..n]), MessageOf(rows[n]));
      ScanOfRow(PairScan(rows[..n]), rows[n]);
    }
  }

  /** Cutting before any row that is not a tool result leaves a paired tail. */
  lemma {:induction false} CutKeepsPairing(ms: seq<Message>, cut: nat)
    requires Scan(Some([]), ms) == Some([])
    requires cut < |ms| && ms[cut].role != Tool
    ensures Scan(Some([]), ms[cut..]) == Some([])
  {
    hide *;
    var tail := ms[cut..];
    assert ms == ms[..cut] + tail;
    ScanConcat(Some([]), ms[..cut], tail);
    OnlyFromClosed(Scan(Some([]), ms[..cut]), tail);
  }

  /** With an answer still owed, or the pairing lost, nothing but a tool result leads on. */
  lemma {:induction false} OnlyFromClosed(open: Option<seq<string>>, ms: seq<Message>)
    requires ms != [] && ms[0].role != Tool && Scan(open, ms).Some?
    ensures open == Some([])
  {
    assert ms == [ms[0]] + ms[1..];
    hide Scan, CallIds;
    ScanConcat(open, [ms[0]], ms[1..]);
    ScanSingle(open, ms[0]);
    ScanNone(ms[1..]);
  }

  // ---- pairing as providers demand it ----

  /** Each agent row with k calls is followed at once by its k tool rows, in order; no tool row stands elsewhere. */
  ghost predicate WellPaired(ms: seq<Message>) {
    && (forall i, j :: 0 <= i < |ms| && ms[i].role == Agent && 0 <= j < |ms[i].calls| ==> AnsweredAt(ms, i, j))
    && (forall t :: 0 <= t < |ms| && ms[t].role == Tool ==> exists i :: Owns(ms, i, t))
  }

  ghost predicate AnsweredAt(ms: seq<Message>, i: nat, j: nat)
    requires i < |ms| && j < |ms[i].calls|
  {
    i + 1 + j < |ms| && ms[i + 1 + j].role == Tool && ms[i + 1 + j].answers == Some(ms[i].calls[j].id)
  }

  ghost predicate Owns(ms: seq<Message>, i: int, t: nat) {
    0 <= i < |ms| && ms[i].role == Agent && i < t <= i + |ms[i].calls|
  }

  function Answer(id: string): Message {
    Message(Tool, "", [], Some(id), None)
  }

  function Answers(ids: seq<string>): seq<Message> {
    seq(|ids|, i requires 0 <= i < |ids| => Answer(ids[i]))
  }

  ghost predicate Agree(a: seq<Message>, b: seq<Message>) {
    && |a| == |b|
    && forall i :: 0 <= i < |a| ==>
         a[i].role == b[i].role && a[i].answers == b[i].answers && (a[i].role == Agent ==> a[i].calls == b[i].calls)
  }

  lemma PairedAgree(a: seq<Message>, b: seq<Message>)
    requires Agree(a, b) && WellPaired(a)
    ensures WellPaired(b)
  {
    forall i, j | 0 <= i < |b| && b[i].role == Agent && 0 <= j < |b[i].calls|
      ensures AnsweredAt(b, i, j)
    {
      assert AnsweredAt(a, i, j);
    }
    forall t | 0 <= t < |b| && b[t].role == Tool
      ensures exists i :: Owns(b, i, t)
    {
      assert a[t].role == Tool;
      var i :| Owns(a, i, t);
      assert Owns(b, i, t);
    }
  }

  /** A row that is not a tool result may follow a closed pairing; an agent row opens its own calls. */
  lemma PairedRowAppends(before: seq<Message>, m: Message, ids: seq<string>)
    requires WellPaired(before) && m.role != Tool
    requires ids == if m.role == Agent then CallIds(m.calls) else []
    ensures WellPaired(before + [m] + Answers(ids))
  {
    var full, n := before + [m] + Answers(ids), |before|;
    assert full[..n] == before && full[n] == m;
    AppendedAnswers(before, m, ids);
    forall t | 0 <= t < |full| && full[t].role == Tool
      ensures exists i :: Owns(full, i, t)
    {
      if t < n {
        assert before[t].role == Tool;
        var i :| Owns(before, i, t);
        assert before[i] == full[i] && Owns(full, i, t);
      } else {
        assert Owns(full, n, t);
      }
    }
  }

  lemma AppendedAnswers(before: seq<Message>, m: Message, ids: seq<string>)
    requires WellPaired(before) && m.role != Tool
    requires ids == if m.role == Agent then CallIds(m.calls) else []
    ensures
      var full := before + [m] + Answers(ids);
      forall i, j :: 0 <= i < |full| && full[i].role == Agent && 0 <= j < |full[i].calls| ==> AnsweredAt(full, i, j)
  {
    var full, n := before + [m] + Answers(ids), |before|;
    assert forall j :: 0 <= j < |ids| ==> full[n + 1 + j] == Answer(ids[j]);
    forall i, j | 0 <= i < |full| && full[i].role == Agent && 0 <= j < |full[i].calls|
      ensures AnsweredAt(full, i, j)
    {
      if i < n { assert before[i] == full[i] && AnsweredAt(before, i, j); }
    }
  }

  /** What is still open after a scan can be answered to complete the pairing. */
  lemma {:induction false} ScanSound(ms: seq<Message>, ids: seq<string>)
    requires Scan(Some([]), ms) == Some(ids)
    ensures WellPaired(ms + Answers(ids))
  {
    if ms != [] {
      var n := |ms| - 1;
      var before := Scan(Some([]), ms[..n]).value;
      ScanSound(ms[..n], before);
      hide WellPaired;
      if ms[n].role == Tool {
        assert Agree(ms[..n] + Answers(before), ms + Answers(ids));
        PairedAgree(ms[..n] + Answers(before), ms + Answers(ids));
      } else {
        assert ms[..n] + Answers([]) == ms[..n];
        PairedRowAppends(ms[..n], ms[n], ids);
        assert ms[..n] + [ms[n]] == ms;
      }
    }
  }

  /** An agent row's answers never run over a row that is not a tool result. */
  lemma OwnerStopsBefore(full: seq<Message>, i: nat, n: nat)
    requires WellPaired(full)
    requires i < n < |full| && full[i].role == Agent && full[n].role != Tool
    ensures i + |full[i].calls| < n
  {
    assert n - i - 1 < |full[i].calls| ==> !AnsweredAt(full, i, n - i - 1);
  }

  /** A tool row at the end answers a call that was open before it. */
  lemma LastRowAnswers(ms: seq<Message>, ids: seq<string>)
    requires ms != [] && ms[|ms| - 1].role == Tool && WellPaired(ms + Answers(ids))
    ensures
      var m := ms[|ms| - 1];
      m.answers.Some? && WellPaired(ms[..|ms| - 1] + Answers([m.answers.value] + ids))
  {
    var full, n := ms + Answers(ids), |ms| - 1;
    assert full[n] == ms[n];
    var i :| Owns(full, i, n);
    assert AnsweredAt(full, i, n - i - 1);
    var before := [full[n].answers.value] + ids;
    hide WellPaired, Owns, AnsweredAt;
    assert Agree(full, ms[..n] + Answers(before));
    PairedAgree(full, ms[..n] + Answers(before));
  }

  lemma NothingAnswered(ids: seq<string>)
    requires WellPaired(Answers(ids))
    ensures ids == []
  {
    var head := if ids == [] then User else Answers(ids)[0].role;
    assert forall i :: !Owns(Answers(ids), i, 0);
  }

  /** Conversely, the scan finds exactly the answers that complete a pairing. */
  lemma {:induction false} ScanComplete(ms: seq<Message>, ids: seq<string>)
    requires WellPaired(ms + Answers(ids))
    ensures Scan(Some([]), ms) == Some(ids)
  {
    hide WellPaired;
    var full := ms + Answers(ids);
    if ms == [] {
      assert full == Answers(ids);
      NothingAnswered(ids);
    } else {
      var n := |ms| - 1;
      if ms[n].role == Tool {
        LastRowAnswers(ms, ids);
        ScanComplete(ms[..n], [ms[n].answers.value] + ids);
      } else {
        assert full[n] == ms[n];
        PrefixPaired(full, n);
        assert ms[..n] + Answers([]) == full[..n];
        ScanComplete(ms[..n], []);
        LastRowOpens(ms, ids);
      }
    }
  }

  lemma PrefixPaired(full: seq<Message>, n: nat)
    requires WellPaired(full)
    requires n < |full| && full[n].role != Tool
    ensures WellPaired(full[..n])
  {
    forall i, j | 0 <= i < n && full[i].role == Agent && 0 <= j < |full[i].calls|
      ensures AnsweredAt(full[..n], i, j)
    {
      OwnerStopsBefore(full, i, n);
      assert AnsweredAt(full, i, j);
    }
    forall t | 0 <= t < n && full[t].role == Tool
      ensures exists i :: Owns(full[..n], i, t)
    {
      var i :| Owns(full, i, t);
      assert Owns(full[..n], i, t);
    }
  }

  lemma LastRowOpens(ms: seq<Message>, ids: seq<string>)
    requires ms != [] && ms[|ms| - 1].role != Tool
    requires WellPaired(ms + Answers(ids))
    ensures ids == if ms[|ms| - 1].role == Agent then CallIds(ms[|ms| - 1].calls) else []
  {
    var full, n := ms + Answers(ids), |ms| - 1;
    var k := if ms[n].role == Agent then |ms[n].calls| else 0;
    assert forall j :: 0 <= j < k ==> AnsweredAt(full, n, j);
    assert k <= |ids| by {
      assert k > 0 ==> AnsweredAt(full, n, k - 1);
    }
    assert k < |ids| ==> full[n + 1 + k].role == Tool;
    var next := n + 1 + k;
    forall i | Owns(full, i, next)
      ensures i == n
    {
      if i < n { OwnerStopsBefore(full, i, n); }
    }
    forall j | 0 <= j < k
      ensures ids[j] == ms[n].calls[j].id
    {
      assert AnsweredAt(full, n, j);
    }
  }

  /** The scan decides the pairing a provider demands. */
  lemma ScanIsPairing(ms: seq<Message>)
    ensures Scan(Some([]), ms) == Some([]) <==> WellPaired(ms)
  {
    assert ms + Answers([]) == ms;
    if WellPaired(ms) { ScanComplete(ms, []); }
    if Scan(Some([]), ms) == Some([]) { ScanSound(ms, []); }
  }
}
