/** The durable log vocabulary (crates/agent-log/src/types.rs) and the scans that
    say what a well-formed run log is. */
module Items {
  import opened Base

  datatype InputSource = External | Crash

  datatype TurnReason = Completed | Error(message: string) | Interrupted | Budget | MaxTokens

  datatype StopReason = Pending | Stop | ToolUse | Truncated | Refused | Failure | Aborted | Deferred

  datatype ToolCallRef = ToolCallRef(id: string, name: string, args: string)

  datatype AssistantMessage = AssistantMessage(content: string, calls: seq<ToolCallRef>, thinking: Option<string>)

  /** Turn ids are the numbers that the source prints as `turn-N`. */
  datatype ItemKind =
    | Header(version: nat)
    | Input(text: string, source: InputSource)
    | TurnStart(turn: nat, prev: Option<nat>)
    | Assistant(message: AssistantMessage, stop: StopReason)
    | Attempt(error: string, willRetry: bool)
    | ToolCall(call: ToolCallRef)
    | ToolResult(callId: string, content: string, isError: bool)
    | TurnEnd(ended: nat, reason: TurnReason)

  datatype Item = Item(seqNo: nat, kind: ItemKind)

  const LOG_VERSION := 1

  function AppendTo(items: seq<Item>, kind: ItemKind): seq<Item> {
    items + [Item(|items| + 1, kind)]
  }

  function AppendAll(items: seq<Item>, kinds: seq<ItemKind>): seq<Item>
    decreases |kinds|
  {
    if kinds == [] then items else AppendTo(AppendAll(items, kinds[..|kinds| - 1]), kinds[|kinds| - 1])
  }

  // ---- rows: the log with the one editable text blanked ----

  /** A tool result's text may still grow while it is the newest result; nothing else in a row changes. */
  function Blank(kind: ItemKind): ItemKind {
    if kind.ToolResult? then kind.(content := "") else kind
  }

  function Rows(items: seq<Item>): (rows: seq<ItemKind>)
    ensures |rows| == |items|
  {
    seq(|items|, i requires 0 <= i < |items| => Blank(items[i].kind))
  }

  lemma RowsAppend(items: seq<Item>, kind: ItemKind)
    ensures Rows(AppendTo(items, kind)) == Rows(items) + [Blank(kind)]
  {
  }

  // ---- what validate_log accepts ----

  ghost predicate Gapless(items: seq<Item>) {
    forall i :: 0 <= i < |items| ==> items[i].seqNo == i + 1
  }

  ghost predicate ValidLog(items: seq<Item>) {
    items == [] || (items[0].kind == Header(LOG_VERSION) && Gapless(items))
  }

  // ---- turn bracketing ----

  datatype Bracket = Between(done: nat) | Inside(turn: nat)

  function BracketStep(b: Option<Bracket>, row: ItemKind): Option<Bracket> {
    match b
    case None => None
    case Some(Between(n)) =>
      (match row
       case TurnStart(t, prev) =>
         if t == n + 1 && prev == (if n > 0 then Some(n) else None) then Some(Inside(t)) else None
       case TurnEnd(_, _) => None
       case _ => b)
    case Some(Inside(t)) =>
      (match row
       case TurnStart(_, _) => None
       case TurnEnd(u, _) => if u == t then Some(Between(t)) else None
       case _ => b)
  }

  /** Turns 1, 2, 3, ... each open once, close once, and never overlap; `None` once that is broken. */
  function Brackets(rows: seq<ItemKind>): Option<Bracket> {
    if rows == [] then Some(Between(0))
    else BracketStep(Brackets(rows[..|rows| - 1]), rows[|rows| - 1])
  }

  lemma BracketsSnoc(rows: seq<ItemKind>, row: ItemKind)
    ensures Brackets(rows + [row]) == BracketStep(Brackets(rows), row)
  {
    assert (rows + [row])[..|rows|] == rows;
  }

  // ---- call/result pairing over the log ----

  function CallIds(calls: seq<ToolCallRef>): seq<string> {
    seq(|calls|, i requires 0 <= i < |calls| => calls[i].id)
  }

  /** One row read by the pairing scan: `Some(ids)` means exactly `ids`, in order, must be answered next. */
  function PairStep(open: Option<seq<string>>, row: ItemKind): Option<seq<string>> {
    match open
    case None => None
    case Some(ids) =>
      match row
      case Input(_, _) => if ids == [] then open else None
      case Assistant(m, _) => if ids == [] then Some(CallIds(m.calls)) else None
      case ToolResult(id, _, _) => if ids != [] && ids[0] == id then Some(ids[1..]) else None
      case _ => open
  }

  function PairScan(rows: seq<ItemKind>): Option<seq<string>> {
    if rows == [] then Some([]) else PairStep(PairScan(rows[..|rows| - 1]), rows[|rows| - 1])
  }

  lemma PairScanSnoc(rows: seq<ItemKind>, row: ItemKind)
    ensures PairScan(rows + [row]) == PairStep(PairScan(rows), row)
  {
    assert (rows + [row])[..|rows|] == rows;
  }

  ghost predicate NoDup(ids: seq<string>) {
    forall i, j :: 0 <= i < j < |ids| ==> ids[i] != ids[j]
  }
}
