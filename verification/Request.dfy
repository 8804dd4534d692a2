/** Building a request from the log: observation collapse, reasoning trim, checkpoint
    cut and the per-request tail (crates/agent-loop/src/request.rs,
    crates/context/src/compact.rs, crates/context/src/collapse.rs). */
module Request {
  import opened Base
  import opened Items
  import opened Transcript

  const COLLAPSE_KEEP: nat := 5
  const CHECKPOINT_PREFIX :=
    "[context checkpoint: earlier turns were summarized to save tokens; the durable log still holds them]"

  /** The request fold replaces the first `keepFrom` messages by `summary`. */
  datatype Checkpoint = Checkpoint(keepFrom: nat, summary: string)

  datatype FoldConfig = FoldConfig(thinkingKeep: nat, hysteresis: nat)

  function Stub(content: string): string {
    "[collapsed: " + Decimal(ByteLen(content)) + "b \U{2014} re-open to edit] " + content[..Min(120, |content|)]
  }

  function CollapseBoundary(toolCount: nat, keep: nat, hysteresis: nat): nat {
    if hysteresis == 0 then SatSub(toolCount, keep) else hysteresis * (SatSub(toolCount, keep) / hysteresis)
  }

  lemma BoundaryInRange(toolCount: nat, keep: nat, hysteresis: nat)
    ensures CollapseBoundary(toolCount, keep, hysteresis) <= SatSub(toolCount, keep)
  {
  }

  /** How many of the first `i` messages have this role. */
  function Rank(ms: seq<Message>, role: Role, i: nat): (r: nat)
    requires i <= |ms|
    ensures r <= i
  {
    if i == 0 then 0 else Rank(ms, role, i - 1) + (if ms[i - 1].role == role then 1 else 0)
  }

  lemma {:induction false} RankMonotone(ms: seq<Message>, role: Role, i: nat, j: nat)
    requires i <= j <= |ms|
    ensures Rank(ms, role, i) <= Rank(ms, role, j)
  {
    if i < j { RankMonotone(ms, role, i, j - 1); }
  }

  /** What the model sees of message `i`: reasoning of the newest agent rows only, old observations as stubs. */
  function View(ms: seq<Message>, cfg: FoldConfig, i: nat): Message
    requires i < |ms|
  {
    var m := ms[i];
    if m.role == Agent && Rank(ms, Agent, i) < SatSub(Rank(ms, Agent, |ms|), cfg.thinkingKeep) then
      m.(thinking := None)
    else if m.role == Tool
            && Rank(ms, Tool, i) < CollapseBoundary(Rank(ms, Tool, |ms|), COLLAPSE_KEEP, cfg.hysteresis) then
      m.(content := Stub(m.content))
    else
      m
  }

  function Viewed(ms: seq<Message>, cfg: FoldConfig): seq<Message> {
    seq(|ms|, i requires 0 <= i < |ms| => View(ms, cfg, i))
  }

  method FoldItems(items: seq<Item>) returns (out: seq<Message>)
    ensures out == Fold(Kinds(items))
  {
    out := [];
    for k := 0 to |items|
      invariant out == Fold(Kinds(items)[..k])
    {
      assert Kinds(items)[..k + 1][..k] == Kinds(items)[..k];
      out := out + MessageOf(items[k].kind);
    }
    assert Kinds(items)[..|items|] == Kinds(items);
  }

  method TrimThinking(ms: seq<Message>, cfg: FoldConfig) returns (out: seq<Message>)
    ensures |out| == |ms|
    ensures forall i :: 0 <= i < |ms| ==>
              out[i] == if ms[i].role == Agent then View(ms, cfg, i) else ms[i]
  {
    out := ms;
    var agents := 0;
    for i := 0 to |ms|
      invariant agents == Rank(ms, Agent, i)
    {
      if ms[i].role == Agent { agents := agents + 1; }
    }
    var keepFrom := SatSub(agents, cfg.thinkingKeep);
    var n := 0;
    for i := 0 to |ms|
      invariant |out| == |ms| && n == Rank(ms, Agent, i)
      invariant forall k :: 0 <= k < i ==> out[k] == if ms[k].role == Agent then View(ms, cfg, k) else ms[k]
      invariant forall k :: i <= k < |ms| ==> out[k] == ms[k]
    {
      if ms[i].role == Agent {
        if n < keepFrom { out := out[i := out[i].(thinking := None)]; }
        n := n + 1;
      }
    }
  }

  method ToolRows(ms: seq<Message>) returns (idx: seq<nat>)
    ensures |idx| == Rank(ms, Tool, |ms|)
    ensures forall b :: 0 <= b < |idx| ==> idx[b] < |ms| && ms[idx[b]].role == Tool && Rank(ms, Tool, idx[b]) == b
    ensures forall i :: 0 <= i < |ms| && ms[i].role == Tool ==>
              Rank(ms, Tool, i) < |idx| && idx[Rank(ms, Tool, i)] == i
  {
    idx := [];
    for k := 0 to |ms|
      invariant |idx| == Rank(ms, Tool, k)
      invariant forall b :: 0 <= b < |idx| ==> idx[b] < k && ms[idx[b]].role == Tool && Rank(ms, Tool, idx[b]) == b
      invariant forall i :: 0 <= i < k && ms[i].role == Tool ==>
                  Rank(ms, Tool, i) < |idx| && idx[Rank(ms, Tool, i)] == i
    {
      if ms[k].role == Tool { idx := idx + [k]; }
    }
  }

  method CollapseRows(ms: seq<Message>, boundary: nat) returns (out: seq<Message>)
    requires boundary <= Rank(ms, Tool, |ms|)
    ensures |out| == |ms|
    ensures forall i :: 0 <= i < |ms| ==>
              out[i] == if ms[i].role == Tool && Rank(ms, Tool, i) < boundary
                        then ms[i].(content := Stub(ms[i].content)) else ms[i]
  {
    out := ms;
    var idx := ToolRows(ms);
    for b := 0 to boundary
      invariant |out| == |ms|
      invariant forall i :: 0 <= i < |ms| ==>
                  out[i] == if ms[i].role == Tool && Rank(ms, Tool, i) < b
                            then ms[i].(content := Stub(ms[i].content)) else ms[i]
    {
      var i := idx[b];
      out := out[i := out[i].(content := Stub(out[i].content))];
    }
  }

  lemma {:induction false} SameRoles(a: seq<Message>, b: seq<Message>, role: Role, i: nat)
    requires |a| == |b| && i <= |a|
    requires forall k :: 0 <= k < |a| ==> a[k].role == b[k].role
    ensures Rank(a, role, i) == Rank(b, role, i)
  {
    if i > 0 { SameRoles(a, b, role, i - 1); }
  }

  /** The raw log fold with the reasoning trim and the observation collapse applied. */
  method RawMessages(items: seq<Item>, cfg: FoldConfig) returns (out: seq<Message>)
    ensures out == Viewed(Fold(Kinds(items)), cfg)
  {
    var raw := FoldItems(items);
    var trimmed := TrimThinking(raw, cfg);
    forall i | 0 <= i <= |raw|
      ensures Rank(trimmed, Tool, i) == Rank(raw, Tool, i)
    {
      SameRoles(trimmed, raw, Tool, i);
    }
    var tools := ToolRows(trimmed);
    BoundaryInRange(|tools|, COLLAPSE_KEEP, cfg.hysteresis);
    out := CollapseRows(trimmed, CollapseBoundary(|tools|, COLLAPSE_KEEP, cfg.hysteresis));
  }

  // ---- checkpoint ----

  function SummaryMessage(summary: string): Message {
    Plain(User, CHECKPOINT_PREFIX + "\n" + summary)
  }

  /** The history a request carries. */
  function Derived(items: seq<Item>, cp: Option<Checkpoint>, cfg: FoldConfig): seq<Message>
    requires cp.Some? ==> cp.value.keepFrom <= |Fold(Kinds(items))|
  {
    var viewed := Viewed(Fold(Kinds(items)), cfg);
    if cp.None? then viewed else [SummaryMessage(cp.value.summary)] + viewed[cp.value.keepFrom..]
  }

  method DerivedMessages(items: seq<Item>, cp: Option<Checkpoint>, cfg: FoldConfig) returns (out: seq<Message>)
    requires cp.Some? ==> cp.value.keepFrom <= |Fold(Kinds(items))|
    ensures out == Derived(items, cp, cfg)
  {
    var raw := RawMessages(items, cfg);
    if cp.None? {
      return raw;
    }
    out := [SummaryMessage(cp.value.summary)] + raw[cp.value.keepFrom..];
  }

  /** The compactor's view of a message: an agent row is charged for its reasoning and its calls. */
  function CompactText(m: Message): string {
    if m.role != Agent then m.content
    else
      Join((if m.thinking.Some? && m.thinking.value != "" then ["[thinking] " + m.thinking.value] else [])
           + (if m.content != "" then [m.content] else [])
           + seq(|m.calls|, i requires 0 <= i < |m.calls| => m.calls[i].name + "(" + m.calls[i].args + ")"))
  }

  function Tokens(m: Message): nat {
    (|CompactText(m)| + 3) / 4
  }

  function TailTokens(ms: seq<Message>, from: nat): nat
    requires from <= |ms|
    decreases |ms| - from
  {
    if from == |ms| then 0 else Tokens(ms[from]) + TailTokens(ms, from + 1)
  }

  /** The newest index from which the tail alone fills the keep budget; 0 when the whole history is below it. */
  ghost predicate Crossing(ms: seq<Message>, keep: nat, at: nat) {
    && at < |ms|
    && (at > 0 ==> TailTokens(ms, at) >= keep)
    && forall i :: at < i < |ms| ==> TailTokens(ms, i) < keep
  }

  /** Adds up the tail from the newest message back. */
  method CrossingIndex(ms: seq<Message>, keep: nat) returns (crossing: nat)
    requires |ms| >= 2
    ensures Crossing(ms, keep, crossing)
  {
    var accumulated, i := 0, |ms| - 1;
    crossing := 0;
    while i >= 1 && crossing == 0
      invariant 0 <= i < |ms|
      invariant crossing == 0 ==> accumulated == TailTokens(ms, i + 1)
      invariant crossing == 0 ==> forall j :: i < j < |ms| ==> TailTokens(ms, j) < keep
      invariant crossing > 0 ==> crossing == i && Crossing(ms, keep, crossing)
      decreases if crossing == 0 then i + 1 else 0
    {
      accumulated := accumulated + Tokens(ms[i]);
      if accumulated >= keep {
        crossing := i;
      } else {
        i := i - 1;
      }
    }
  }

  /** Index of the first message kept verbatim; a tool result is never one. */
  method CutPoint(ms: seq<Message>, keep: nat) returns (cut: Option<nat>)
    ensures cut.Some? ==> 1 <= cut.value < |ms| && ms[cut.value].role != Tool
    ensures |ms| >= 2 ==> exists at: nat ::
                && Crossing(ms, keep, at)
                && (cut.None? <==> (at == 0 || forall i :: 1 <= i < |ms| ==> ms[i].role == Tool))
                && (cut.Some? && cut.value >= at ==> forall i :: at <= i < cut.value ==> ms[i].role == Tool)
                && (cut.Some? && cut.value < at ==> forall i :: cut.value < i < |ms| ==> ms[i].role == Tool)
    ensures |ms| < 2 ==> cut.None?
  {
    if |ms| < 2 {
      return None;
    }
    var crossing := CrossingIndex(ms, keep);
    hide Crossing;
    if crossing == 0 {
      return None;
    }
    var k := crossing;
    while k < |ms| && ms[k].role == Tool
      invariant crossing <= k <= |ms|
      invariant forall j :: crossing <= j < k ==> ms[j].role == Tool
    {
      k := k + 1;
    }
    if k < |ms| {
      return Some(k);
    }
    k := crossing - 1;
    while k >= 1 && ms[k].role == Tool
      invariant 0 <= k < crossing
      invariant forall j :: k < j < |ms| ==> ms[j].role == Tool
    {
      k := k - 1;
    }
    return if k >= 1 then Some(k) else None;
  }

  /** A later checkpoint composes with an earlier one: cutting the folded history at `cut` keeps
      the same raw suffix as cutting the raw history at `keepFrom + cut - 1`. */
  function Compose(prev: Option<Checkpoint>, cut: nat): nat
    requires cut >= 1
  {
    if prev.Some? then prev.value.keepFrom + cut - 1 else cut
  }

  /** A checkpoint of this log is sound: it cuts before an existing row that is not a tool result. */
  ghost predicate SoundCut(cp: Option<Checkpoint>, rows: seq<ItemKind>) {
    cp.Some? ==> cp.value.keepFrom < |Fold(rows)| && Fold(rows)[cp.value.keepFrom].role != Tool
  }

  lemma SoundCutGrows(cp: Option<Checkpoint>, rows: seq<ItemKind>, row: ItemKind)
    requires SoundCut(cp, rows)
    ensures SoundCut(cp, rows + [row])
  {
    FoldSnoc(rows, row);
  }

  lemma ViewKeepsShape(ms: seq<Message>, cfg: FoldConfig)
    ensures SameShape(Viewed(ms, cfg), ms)
  {
  }

  lemma RolesOfLog(items: seq<Item>, cfg: FoldConfig, i: nat)
    ensures |Viewed(Fold(Kinds(items)), cfg)| == |Fold(Kinds(items))| == |Fold(Rows(items))|
    ensures i < |Fold(Rows(items))| ==> Viewed(Fold(Kinds(items)), cfg)[i].role == Fold(Rows(items))[i].role
  {
    var raw, rows, viewed := Fold(Kinds(items)), Fold(Rows(items)), Viewed(Fold(Kinds(items)), cfg);
    RowsKeepShape(items);
    if i < |rows| {
      assert viewed[i].role == raw[i].role;
      assert Shape(raw[i]) == Shape(rows[i]);
    }
  }

  lemma ComposeKeepsSuffix(items: seq<Item>, prev: Option<Checkpoint>, cfg: FoldConfig, cut: nat, summary: string)
    requires prev.Some? ==> prev.value.keepFrom <= |Fold(Kinds(items))|
    requires 1 <= cut < |Derived(items, prev, cfg)| && Derived(items, prev, cfg)[cut].role != Tool
    ensures
      var next := Checkpoint(Compose(prev, cut), summary);
      && SoundCut(Some(next), Rows(items))
      && next.keepFrom < |Fold(Kinds(items))|
      && Derived(items, Some(next), cfg) == [SummaryMessage(summary)] + Derived(items, prev, cfg)[cut..]
  {
    var viewed, at := Viewed(Fold(Kinds(items)), cfg), Compose(prev, cut);
    RolesOfLog(items, cfg, at);
    DropShown(items, prev, cfg, cut);
    hide Derived;
    DerivedCut(items, Checkpoint(at, summary), cfg);
  }

  /** What is left of a history after `cut` is the view from the composed cut on. */
  lemma DropShown(items: seq<Item>, prev: Option<Checkpoint>, cfg: FoldConfig, cut: nat)
    requires prev.Some? ==> prev.value.keepFrom <= |Fold(Kinds(items))|
    requires 1 <= cut < |Derived(items, prev, cfg)|
    ensures
      var viewed, at := Viewed(Fold(Kinds(items)), cfg), Compose(prev, cut);
      at < |viewed| && viewed[at] == Derived(items, prev, cfg)[cut] && viewed[at..] == Derived(items, prev, cfg)[cut..]
  {
    RolesOfLog(items, cfg, 0);
    hide Viewed, Fold, Kinds, SummaryMessage;
    if prev.Some? { DropSummary(Viewed(Fold(Kinds(items)), cfg), prev.value, cut); }
  }

  lemma DerivedCut(items: seq<Item>, cp: Checkpoint, cfg: FoldConfig)
    requires cp.keepFrom <= |Fold(Kinds(items))|
    ensures Derived(items, Some(cp), cfg)
            == [SummaryMessage(cp.summary)] + Viewed(Fold(Kinds(items)), cfg)[cp.keepFrom..]
  {
    hide Viewed, Fold, Kinds, SummaryMessage;
  }

  /** A later checkpoint is the earlier one, or folds some more of it: the new history is one summary and a
      suffix of the old history that does not begin with a tool result. */
  ghost predicate Folds(items: seq<Item>, prev: Option<Checkpoint>, next: Option<Checkpoint>, cfg: FoldConfig) {
    || next == prev
    || (&& (prev.Some? ==> prev.value.keepFrom <= |Fold(Kinds(items))|)
        && next.Some? && next.value.keepFrom <= |Fold(Kinds(items))|
        && exists cut: nat :: FoldsAt(items, prev, next.value, cfg, cut))
  }

  ghost predicate FoldsAt(items: seq<Item>, prev: Option<Checkpoint>, next: Checkpoint, cfg: FoldConfig, cut: nat)
    requires prev.Some? ==> prev.value.keepFrom <= |Fold(Kinds(items))|
    requires next.keepFrom <= |Fold(Kinds(items))|
  {
    var history := Derived(items, prev, cfg);
    && 1 <= cut < |history| && history[cut].role != Tool && next.keepFrom == Compose(prev, cut)
    && Derived(items, Some(next), cfg) == [SummaryMessage(next.summary)] + history[cut..]
  }

  lemma DropSummary(viewed: seq<Message>, cp: Checkpoint, cut: nat)
    requires 1 <= cut && cp.keepFrom <= |viewed| && cp.keepFrom + cut - 1 < |viewed|
    ensures
      var folded := [SummaryMessage(cp.summary)] + viewed[cp.keepFrom..];
      folded[cut] == viewed[cp.keepFrom + cut - 1] && folded[cut..] == viewed[cp.keepFrom + cut - 1..]
  {
  }

  // ---- the request ----

  function Held(hold: Option<string>): seq<Message> {
    if hold.Some? then [Plain(User, hold.value)] else []
  }

  /** History with the budget line on its newest message, or as the only user message. */
  function WithBudgetLine(history: seq<Message>, line: string): seq<Message> {
    if history == [] then [Plain(User, line)]
    else
      var n := |history| - 1;
      history[n := history[n].(content := history[n].content + "\n" + line)]
  }

  method BuildRequest(system: string, history: seq<Message>, line: string, hold: Option<string>)
    returns (messages: seq<Message>)
    ensures messages == [Plain(System, system)] + WithBudgetLine(history, line) + Held(hold)
  {
    messages := [Plain(System, system)] + history;
    if |messages| > 1 {
      var n := |messages| - 1;
      messages := messages[n := messages[n].(content := messages[n].content + "\n" + line)];
    } else {
      messages := messages + [Plain(User, line)];
    }
    if hold.Some? {
      messages := messages + [Plain(User, hold.value)];
    }
  }

  lemma ScanPlain(open: Option<seq<string>>, m: Message)
    requires m.role == System || m.role == User
    ensures Scan(open, [m]) == if open == Some([]) then open else None
  {
    assert [m][..0] == [];
    assert Scan(open, [m]) == Step(open, m);
  }

  /** The wrapping of a request neither breaks nor repairs the pairing of its history. */
  lemma RequestScan(system: string, history: seq<Message>, line: string, hold: Option<string>)
    ensures
      var messages := [Plain(System, system)] + WithBudgetLine(history, line) + Held(hold);
      Scan(Some([]), messages) == Some([]) <==> Scan(Some([]), history) == Some([])
  {
    var head, body, tail := [Plain(System, system)], WithBudgetLine(history, line), Held(hold);
    ScanConcat(Some([]), head + body, tail);
    ScanConcat(Some([]), head, body);
    ScanPlain(Some([]), head[0]);
    if history == [] {
      ScanPlain(Some([]), body[0]);
    } else {
      ScanSameShape(Some([]), body, history);
    }
    if hold.Some? {
      ScanPlain(Scan(Some([]), head + body), tail[0]);
    }
  }

  lemma RawScan(items: seq<Item>, cfg: FoldConfig)
    ensures Scan(Some([]), Viewed(Fold(Kinds(items)), cfg)) == PairScan(Rows(items))
  {
    var raw := Fold(Kinds(items));
    ViewKeepsShape(raw, cfg);
    ScanSameShape(Some([]), Viewed(raw, cfg), raw);
    RowsKeepShape(items);
    ScanSameShape(Some([]), raw, Fold(Rows(items)));
    ScanOfLog(Rows(items));
  }

  /** From a paired log every request is paired, whatever was folded away; without a checkpoint
      the request is paired exactly when the log is. */
  lemma RequestPairing(items: seq<Item>, cp: Option<Checkpoint>, cfg: FoldConfig, system: string, line: string,
                       hold: Option<string>)
    requires SoundCut(cp, Rows(items))
    requires cp.Some? ==> cp.value.keepFrom <= |Fold(Kinds(items))|
    ensures
      var messages := [Plain(System, system)] + WithBudgetLine(Derived(items, cp, cfg), line) + Held(hold);
      && (PairScan(Rows(items)) == Some([]) ==> WellPaired(messages))
      && (cp.None? && WellPaired(messages) ==> PairScan(Rows(items)) == Some([]))
  {
    var viewed := Viewed(Fold(Kinds(items)), cfg);
    var history := Derived(items, cp, cfg);
    RawScan(items, cfg);
    if cp.Some? && PairScan(Rows(items)) == Some([]) {
      var cut := cp.value.keepFrom;
      RolesOfLog(items, cfg, cut);
      CutKeepsPairing(viewed, cut);
      ScanConcat(Some([]), [history[0]], viewed[cut..]);
      ScanPlain(Some([]), history[0]);
    }
    RequestScan(system, history, line, hold);
    ScanIsPairing([Plain(System, system)] + WithBudgetLine(history, line) + Held(hold));
  }

  function CutOf(cp: Option<Checkpoint>): Option<nat> {
    if cp.Some? then Some(cp.value.keepFrom) else None
  }

  /** The history of a request without its free text: the fold of the log, or a summary and that fold from the cut. */
  function Shown(rows: seq<ItemKind>, cut: Option<nat>): seq<Message>
    requires cut.Some? ==> cut.value <= |Fold(rows)|
  {
    if cut.None? then Fold(rows) else [Plain(User, "")] + Fold(rows)[cut.value..]
  }

  /** Up to free text these messages are a system row, the history (or the budget line alone) and a held row. */
  ghost predicate Carries(messages: seq<Message>, rows: seq<ItemKind>, cut: Option<nat>, held: bool) {
    && (cut.Some? ==> cut.value <= |Fold(rows)|)
    && var history := Shown(rows, cut);
       SameShape(messages, [Plain(System, "")] + (if history == [] then [Plain(User, "")] else history)
                           + if held then [Plain(User, "")] else [])
  }

  lemma HistoryShape(items: seq<Item>, cp: Option<Checkpoint>, cfg: FoldConfig)
    requires cp.Some? ==> cp.value.keepFrom <= |Fold(Kinds(items))|
    ensures CutOf(cp).Some? ==> CutOf(cp).value <= |Fold(Rows(items))|
    ensures SameShape(Derived(items, cp, cfg), Shown(Rows(items), CutOf(cp)))
  {
    RowsKeepShape(items);
    ViewKeepsShape(Fold(Kinds(items)), cfg);
    hide Fold, Kinds, Rows, Viewed;
  }

  lemma RequestCarries(items: seq<Item>, cp: Option<Checkpoint>, cfg: FoldConfig, system: string, line: string,
                       hold: Option<string>)
    requires cp.Some? ==> cp.value.keepFrom <= |Fold(Kinds(items))|
    ensures
      var messages := [Plain(System, system)] + WithBudgetLine(Derived(items, cp, cfg), line) + Held(hold);
      Carries(messages, Rows(items), CutOf(cp), hold.Some?)
  {
    HistoryShape(items, cp, cfg);
    var history, shown := Derived(items, cp, cfg), Shown(Rows(items), CutOf(cp));
    LineShape(history, shown, line);
    var body := if shown == [] then [Plain(User, "")] else shown;
    var held := if hold.Some? then [Plain(User, "")] else [];
    assert SameShape([Plain(System, system)], [Plain(System, "")]) && SameShape(Held(hold), held);
    hide Fold, Kinds, Rows, Derived, Shown, CutOf, WithBudgetLine, Held, SameShape;
    ShapeConcat([Plain(System, system)], [Plain(System, "")], WithBudgetLine(history, line), body);
    ShapeConcat([Plain(System, system)] + WithBudgetLine(history, line), [Plain(System, "")] + body, Held(hold), held);
  }

  lemma ShapeConcat(a: seq<Message>, b: seq<Message>, c: seq<Message>, d: seq<Message>)
    requires SameShape(a, b) && SameShape(c, d)
    ensures SameShape(a + c, b + d)
  {
  }

  lemma LineShape(history: seq<Message>, shown: seq<Message>, line: string)
    requires SameShape(history, shown)
    ensures SameShape(WithBudgetLine(history, line), if shown == [] then [Plain(User, "")] else shown)
  {
  }
}
