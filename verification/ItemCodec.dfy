/** The assumptions that `LogFile` makes of the record codec can be met for log items: one codec that is lawful. */
module ItemCodec {
  import opened Base
  import opened Items
  import opened LogFile

  // ---- an item as numbers, every text behind its length ----

  function PutText(s: string, rest: seq<nat>): seq<nat> {
    [|s|] + seq(|s|, i requires 0 <= i < |s| => s[i] as nat) + rest
  }

  lemma TextInjective(s: string, t: string, u: seq<nat>, v: seq<nat>)
    requires PutText(s, u) == PutText(t, v)
    ensures s == t && u == v
  {
    var left, right := PutText(s, u), PutText(t, v);
    assert |s| == left[0] == right[0] == |t|;
    forall i | 0 <= i < |s|
      ensures s[i] == t[i]
    {
      assert s[i] as nat == left[1 + i] == right[1 + i] == t[i] as nat;
    }
    assert u == left[1 + |s|..] && v == right[1 + |t|..];
  }

  function PutCall(c: ToolCallRef, rest: seq<nat>): seq<nat> {
    PutText(c.id, PutText(c.name, PutText(c.args, rest)))
  }

  lemma CallInjective(c: ToolCallRef, d: ToolCallRef, u: seq<nat>, v: seq<nat>)
    requires PutCall(c, u) == PutCall(d, v)
    ensures c == d && u == v
  {
    hide PutText;
    TextInjective(c.id, d.id, PutText(c.name, PutText(c.args, u)), PutText(d.name, PutText(d.args, v)));
    TextInjective(c.name, d.name, PutText(c.args, u), PutText(d.args, v));
    TextInjective(c.args, d.args, u, v);
  }

  /** A list: 1 before each element, 0 at its end. */
  function PutCalls(cs: seq<ToolCallRef>, rest: seq<nat>): seq<nat> {
    if cs == [] then [0] + rest else [1] + PutCall(cs[0], PutCalls(cs[1..], rest))
  }

  lemma {:induction false} CallsInjective(cs: seq<ToolCallRef>, ds: seq<ToolCallRef>, u: seq<nat>, v: seq<nat>)
    requires PutCalls(cs, u) == PutCalls(ds, v)
    ensures cs == ds && u == v
  {
    hide PutCall;
    var left, right := PutCalls(cs, u), PutCalls(ds, v);
    assert left[0] == right[0];
    if cs == [] {
      assert u == left[1..] && v == right[1..];
    } else {
      var c, d := PutCalls(cs[1..], u), PutCalls(ds[1..], v);
      assert left[1..] == PutCall(cs[0], c) && right[1..] == PutCall(ds[0], d);
      CallInjective(cs[0], ds[0], c, d);
      CallsInjective(cs[1..], ds[1..], u, v);
      assert cs == [cs[0]] + cs[1..] && ds == [ds[0]] + ds[1..];
    }
  }

  function PutMaybe(t: Option<string>, rest: seq<nat>): seq<nat> {
    if t.None? then [0] + rest else [1] + PutText(t.value, rest)
  }

  lemma MaybeInjective(s: Option<string>, t: Option<string>, u: seq<nat>, v: seq<nat>)
    requires PutMaybe(s, u) == PutMaybe(t, v)
    ensures s == t && u == v
  {
    hide PutText;
    assert PutMaybe(s, u)[0] == PutMaybe(t, v)[0];
    if s.Some? {
      assert PutMaybe(s, u)[1..] == PutText(s.value, u) && PutMaybe(t, v)[1..] == PutText(t.value, v);
      TextInjective(s.value, t.value, u, v);
    } else {
      assert PutMaybe(s, u)[1..] == u && PutMaybe(t, v)[1..] == v;
    }
  }

  function PutMessage(m: AssistantMessage, rest: seq<nat>): seq<nat> {
    PutText(m.content, PutCalls(m.calls, PutMaybe(m.thinking, rest)))
  }

  lemma MessageInjective(m: AssistantMessage, n: AssistantMessage, u: seq<nat>, v: seq<nat>)
    requires PutMessage(m, u) == PutMessage(n, v)
    ensures m == n && u == v
  {
    hide PutText, PutCalls, PutMaybe;
    TextInjective(m.content, n.content, PutCalls(m.calls, PutMaybe(m.thinking, u)),
                  PutCalls(n.calls, PutMaybe(n.thinking, v)));
    CallsInjective(m.calls, n.calls, PutMaybe(m.thinking, u), PutMaybe(n.thinking, v));
    MaybeInjective(m.thinking, n.thinking, u, v);
  }

  function StopCode(s: StopReason): nat {
    match s
    case Pending => 0
    case Stop => 1
    case ToolUse => 2
    case Truncated => 3
    case Refused => 4
    case Failure => 5
    case Aborted => 6
    case Deferred => 7
  }

  function PutReason(r: TurnReason): seq<nat> {
    match r
    case Completed => [0]
    case Error(message) => [1] + PutText(message, [])
    case Interrupted => [2]
    case Budget => [3]
    case MaxTokens => [4]
  }

  lemma ReasonInjective(r: TurnReason, s: TurnReason)
    requires PutReason(r) == PutReason(s)
    ensures r == s
  {
    assert PutReason(r)[0] == PutReason(s)[0];
    if r.Error? {
      assert PutReason(r)[1..] == PutText(r.message, []) && PutReason(s)[1..] == PutText(s.message, []);
      TextInjective(r.message, s.message, [], []);
    }
  }

  function Bit(b: bool): nat {
    if b then 1 else 0
  }

  /** The fields of a row. */
  function PutFields(k: ItemKind): seq<nat> {
    match k
    case Header(version) => [version]
    case Input(text, source) => PutText(text, [Bit(source.Crash?)])
    case TurnStart(turn, prev) => if prev.None? then [turn] else [turn, prev.value]
    case Assistant(message, stop) => PutMessage(message, [StopCode(stop)])
    case Attempt(error, willRetry) => PutText(error, [Bit(willRetry)])
    case ToolCall(call) => PutCall(call, [])
    case ToolResult(callId, content, isError) => PutText(callId, PutText(content, [Bit(isError)]))
    case TurnEnd(ended, reason) => [ended] + PutReason(reason)
  }

  function KindCode(k: ItemKind): nat {
    match k
    case Header(_) => 0
    case Input(_, _) => 1
    case TurnStart(_, _) => 2
    case Assistant(_, _) => 3
    case Attempt(_, _) => 4
    case ToolCall(_) => 5
    case ToolResult(_, _, _) => 6
    case TurnEnd(_, _) => 7
  }

  function PutItem(t: Item): seq<nat> {
    [t.seqNo, KindCode(t.kind)] + PutFields(t.kind)
  }

  lemma FieldsInjective(k: ItemKind, l: ItemKind)
    requires KindCode(k) == KindCode(l) && PutFields(k) == PutFields(l)
    ensures k == l
  {
    hide PutText, PutMessage, PutCall, PutReason;
    match k {
      case Header(version) => assert PutFields(l)[0] == version;
      case Input(text, source) => TextInjective(text, l.text, [Bit(source.Crash?)], [Bit(l.source.Crash?)]);
      case TurnStart(turn, prev) =>
        assert PutFields(l)[0] == turn && (prev.Some? ==> PutFields(l)[1] == prev.value);
      case Assistant(message, stop) =>
        MessageInjective(message, l.message, [StopCode(stop)], [StopCode(l.stop)]);
      case Attempt(error, willRetry) => TextInjective(error, l.error, [Bit(willRetry)], [Bit(l.willRetry)]);
      case ToolCall(call) => CallInjective(call, l.call, [], []);
      case ToolResult(callId, content, isError) =>
        TextInjective(callId, l.callId, PutText(content, [Bit(isError)]), PutText(l.content, [Bit(l.isError)]));
        TextInjective(content, l.content, [Bit(isError)], [Bit(l.isError)]);
      case TurnEnd(ended, reason) =>
        assert PutFields(l)[0] == ended;
        assert PutFields(k)[1..] == PutReason(reason) && PutFields(l)[1..] == PutReason(l.reason);
        ReasonInjective(reason, l.reason);
    }
  }

  lemma ItemInjective(s: Item, t: Item)
    requires PutItem(s) == PutItem(t)
    ensures s == t
  {
    hide PutFields, KindCode;
    assert PutItem(s)[0] == PutItem(t)[0] && PutItem(s)[1] == PutItem(t)[1];
    assert PutItem(s)[2..] == PutFields(s.kind) && PutItem(t)[2..] == PutFields(t.kind);
    FieldsInjective(s.kind, t.kind);
  }

  // ---- the numbers as bytes ----

  function Ones(n: nat): (s: seq<byte>)
    ensures |s| == n && forall i :: 0 <= i < n ==> s[i] == 1
  {
    seq(n, _ => 1)
  }

  /** Each number in unary, closed by a 2. */
  function Unary(ns: seq<nat>): (s: seq<byte>)
    ensures forall i :: 0 <= i < |s| ==> s[i] == 1 || s[i] == 2
  {
    if ns == [] then [] else Ones(ns[0]) + ([2] + Unary(ns[1..]))
  }

  lemma FirstTwo(n: nat, rest: seq<byte>, k: nat)
    ensures var s := Ones(n) + ([2] + rest); s[n] == 2 && (k < n ==> s[k] == 1) && s[n + 1..] == rest
  {
  }

  lemma UnaryHead(m: nat, u: seq<byte>, n: nat, v: seq<byte>)
    requires Ones(m) + ([2] + u) == Ones(n) + ([2] + v)
    ensures m == n && u == v
  {
    hide *;
    FirstTwo(m, u, n);
    FirstTwo(n, v, m);
  }

  lemma {:induction false} UnaryInjective(ms: seq<nat>, ns: seq<nat>)
    requires Unary(ms) == Unary(ns)
    ensures ms == ns
  {
    hide Ones;
    if ms == [] || ns == [] {
      assert ns == [] || |Unary(ns)| > 0;
      assert ms == [] || |Unary(ms)| > 0;
    } else {
      UnaryHead(ms[0], Unary(ms[1..]), ns[0], Unary(ns[1..]));
      UnaryInjective(ms[1..], ns[1..]);
      assert ms == [ms[0]] + ms[1..] && ns == [ns[0]] + ns[1..];
    }
  }

  /** A record: the numbers of an item, then a 3 that no record has before its end. */
  function Body(t: Item): seq<byte> {
    Unary(PutItem(t)) + [3]
  }

  ghost function Unbody(s: seq<byte>): Option<Item> {
    if t: Item :| Body(t) == s then Some(t) else None
  }

  lemma BodyReads(t: Item)
    ensures LawfulFor(Codec(Body, Unbody), t)
  {
    hide PutItem;
    var body := Body(t);
    assert body[|body| - 1] == 3;
    var back := Unbody(body);
    assert back.Some? && Body(back.value) == body;
    assert Body(back.value)[..|body| - 1] == Unary(PutItem(back.value)) && body[..|body| - 1] == Unary(PutItem(t));
    UnaryInjective(PutItem(back.value), PutItem(t));
    ItemInjective(back.value, t);
    forall n | 0 <= n < |body|
      ensures Unbody(body[..n]) == None
    {
      forall s: Item
        ensures Body(s) != body[..n]
      {
        assert Body(s)[|Body(s)| - 1] == 3;
      }
    }
  }

  lemma LawfulExists()
    ensures exists c: Codec<Item> :: Lawful(c)
  {
    forall t: Item
      ensures LawfulFor(Codec(Body, Unbody), t)
    {
      BodyReads(t);
    }
    assert Lawful(Codec(Body, Unbody));
  }
}
