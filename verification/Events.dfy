/** The live event stream, its pairing check and what makes a frame durable
    (crates/agent-event/src/pairing.rs, emitter.rs). */
module Events {
  import opened Base
  import opened Items

  datatype EventReason = EvCompleted | EvError | EvAborted | EvBudget | EvMaxSteps

  datatype Event =
    | RunStart
    | RunEnd
    | TurnOpened(turn: nat)
    | TurnClosed(turn: nat, why: EventReason)
    | MessageStart(id: nat)
    | MessageUpdate(id: nat, text: string)
    | MessageEnd(id: nat, text: string)
    | ToolStart(call: ToolCallRef)
    | ToolEnd(callId: string, result: string, isError: bool)
    | ErrorFrame(code: string)

  function ToEvent(r: TurnReason): EventReason {
    match r
    case Completed => EvCompleted
    case Error(_) => EvError
    case Interrupted => EvAborted
    case Budget => EvBudget
    case MaxTokens => EvMaxSteps
  }

  // ---- pairing ----

  datatype Ledger = Ledger(
    runStarts: nat, runEnds: nat,
    turnStarts: set<nat>, turnEnds: set<nat>,
    messageStarts: set<nat>, messageEnds: set<nat>,
    toolStarts: set<string>, toolEnds: set<string>
  )

  function Post(l: Ledger, e: Event): Ledger {
    match e
    case RunStart => l.(runStarts := l.runStarts + 1)
    case RunEnd => l.(runEnds := l.runEnds + 1)
    case TurnOpened(t) => l.(turnStarts := l.turnStarts + {t})
    case TurnClosed(t, _) => l.(turnEnds := l.turnEnds + {t})
    case MessageStart(id) => l.(messageStarts := l.messageStarts + {id})
    case MessageEnd(id, _) => l.(messageEnds := l.messageEnds + {id})
    case ToolStart(c) => l.(toolStarts := l.toolStarts + {c.id})
    case ToolEnd(id, _, _) => l.(toolEnds := l.toolEnds + {id})
    case _ => l
  }

  function LedgerOf(history: seq<Event>): Ledger {
    if history == [] then Ledger(0, 0, {}, {}, {}, {}, {}, {})
    else Post(LedgerOf(history[..|history| - 1]), history[|history| - 1])
  }

  lemma LedgerSnoc(history: seq<Event>, e: Event)
    ensures LedgerOf(history + [e]) == Post(LedgerOf(history), e)
  {
    assert (history + [e])[..|history|] == history;
  }

  predicate Balanced(l: Ledger) {
    && l.runStarts <= l.runEnds
    && l.turnStarts <= l.turnEnds
    && l.messageStarts <= l.messageEnds
    && l.toolStarts <= l.toolEnds
  }

  /** The shipped check: one pass collecting starts and ends. */
  method CheckPairing(history: seq<Event>) returns (ok: bool)
    ensures ok == Balanced(LedgerOf(history))
  {
    var runStarts, runEnds := 0, 0;
    var turnStarts, turnEnds, messageStarts, messageEnds: set<nat> := {}, {}, {}, {};
    var toolStarts, toolEnds: set<string> := {}, {};
    for k := 0 to |history|
      invariant LedgerOf(history[..k]) ==
                Ledger(runStarts, runEnds, turnStarts, turnEnds, messageStarts, messageEnds, toolStarts, toolEnds)
    {
      assert history[..k + 1][..k] == history[..k];
      match history[k] {
        case RunStart => runStarts := runStarts + 1;
        case RunEnd => runEnds := runEnds + 1;
        case TurnOpened(t) => turnStarts := turnStarts + {t};
        case TurnClosed(t, _) => turnEnds := turnEnds + {t};
        case MessageStart(id) => messageStarts := messageStarts + {id};
        case MessageEnd(id, _) => messageEnds := messageEnds + {id};
        case ToolStart(c) => toolStarts := toolStarts + {c.id};
        case ToolEnd(id, _, _) => toolEnds := toolEnds + {id};
        case _ =>
      }
    }
    assert history[..|history|] == history;
    ok := runStarts <= runEnds
          && (forall t <- turnStarts :: t in turnEnds)
          && (forall m <- messageStarts :: m in messageEnds)
          && (forall t <- toolStarts :: t in toolEnds);
  }

  ghost predicate Answers(start: Event, end: Event) {
    || (start.TurnOpened? && end.TurnClosed? && start.turn == end.turn)
    || (start.MessageStart? && end.MessageEnd? && start.id == end.id)
    || (start.ToolStart? && end.ToolEnd? && start.call.id == end.callId)
  }

  ghost predicate Answered(history: seq<Event>, start: Event) {
    exists j :: 0 <= j < |history| && Answers(start, history[j])
  }

  lemma {:induction false} LedgerMembers(history: seq<Event>, e: Event)
    ensures e.TurnOpened? ==> (e.turn in LedgerOf(history).turnEnds <==> Answered(history, e))
    ensures e.MessageStart? ==> (e.id in LedgerOf(history).messageEnds <==> Answered(history, e))
    ensures e.ToolStart? ==> (e.call.id in LedgerOf(history).toolEnds <==> Answered(history, e))
    ensures e in history && e.TurnOpened? ==> e.turn in LedgerOf(history).turnStarts
    ensures e in history && e.MessageStart? ==> e.id in LedgerOf(history).messageStarts
    ensures e in history && e.ToolStart? ==> e.call.id in LedgerOf(history).toolStarts
  {
    if history != [] {
      var n := |history| - 1;
      LedgerMembers(history[..n], e);
      assert Answered(history, e) <==> Answered(history[..n], e) || Answers(e, history[n]) by {
        if Answered(history[..n], e) {
          var j :| 0 <= j < n && Answers(e, history[..n][j]);
          assert Answers(e, history[j]);
        }
        if Answered(history, e) {
          var j :| 0 <= j < |history| && Answers(e, history[j]);
          if j < n { assert Answers(e, history[..n][j]); }
        }
      }
    }
  }

  /** A balanced history has an end for every start a consumer saw. */
  lemma BalancedAnswers(history: seq<Event>)
    requires Balanced(LedgerOf(history))
    ensures forall e :: e in history && (e.TurnOpened? || e.MessageStart? || e.ToolStart?) ==> Answered(history, e)
  {
    forall e | e in history && (e.TurnOpened? || e.MessageStart? || e.ToolStart?)
      ensures Answered(history, e)
    {
      LedgerMembers(history, e);
    }
  }

  // ---- durability ----

  /** The newest agent row and what follows it; all rows when there is no agent row. */
  function Recent(rows: seq<ItemKind>): seq<ItemKind> {
    if rows == [] then []
    else if rows[|rows| - 1].Assistant? then [rows[|rows| - 1]]
    else Recent(rows[..|rows| - 1]) + [rows[|rows| - 1]]
  }

  lemma RecentSnoc(rows: seq<ItemKind>, row: ItemKind)
    ensures Recent(rows + [row]) == if row.Assistant? then [row] else Recent(rows) + [row]
  {
    assert (rows + [row])[..|rows|] == rows;
  }

  lemma {:induction false} RecentGrows(rows: seq<ItemKind>, more: seq<ItemKind>)
    requires forall i :: 0 <= i < |more| ==> !more[i].Assistant?
    ensures Recent(rows + more) == Recent(rows) + more
  {
    hide Recent;
    if more == [] {
      assert rows + more == rows && Recent(rows) + more == Recent(rows);
    } else {
      var n := |more| - 1;
      var init, last := more[..n], more[n];
      assert more == init + [last];
      RecentGrows(rows, init);
      RecentSnoc(rows + init, last);
      assert rows + more == rows + init + [last];
      assert Recent(rows) + init + [last] == Recent(rows) + more;
    }
  }

  lemma {:induction false} RecentAmong(rows: seq<ItemKind>, row: ItemKind)
    requires row in Recent(rows)
    ensures row in rows
  {
    if row != rows[|rows| - 1] { RecentAmong(rows[..|rows| - 1], row); }
  }

  /** Rows of the conversation with the model: answers, calls and results. */
  predicate Speaks(row: ItemKind) {
    row.Assistant? || row.ToolCall? || row.ToolResult?
  }

  /** The conversation in a log, in order. */
  function Spoken(rows: seq<ItemKind>): seq<ItemKind> {
    if rows == [] then []
    else Spoken(rows[..|rows| - 1]) + if Speaks(rows[|rows| - 1]) then [rows[|rows| - 1]] else []
  }

  lemma {:induction false} SpokenGrows(rows: seq<ItemKind>, more: seq<ItemKind>)
    ensures Spoken(rows + more) == Spoken(rows) + Spoken(more)
  {
    if more == [] {
      assert rows + more == rows && Spoken(rows) + [] == Spoken(rows);
    } else {
      var n := |more| - 1;
      SpokenGrows(rows, more[..n]);
      assert (rows + more)[..|rows| + n] == rows + more[..n];
    }
  }

  lemma {:induction false} Unspoken(more: seq<ItemKind>, said: seq<ItemKind>)
    requires forall i :: 0 <= i < |more| ==> !Speaks(more[i])
    ensures Spoken(more) == [] && said + Spoken(more) == said
  {
    if more != [] { Unspoken(more[..|more| - 1], said); }
  }

  lemma {:induction false} AllSpoken(more: seq<ItemKind>)
    requires forall i :: 0 <= i < |more| ==> Speaks(more[i])
    ensures Spoken(more) == more
  {
    if more != [] { AllSpoken(more[..|more| - 1]); }
  }

  /** `rows` hold the row that a frame reports. A message frame reports the newest agent row, and a tool frame a row
      written since. */
  ghost predicate Backed(e: Event, rows: seq<ItemKind>) {
    match e
    case TurnOpened(t) => exists i :: 0 <= i < |rows| && rows[i].TurnStart? && rows[i].turn == t
    case TurnClosed(t, why) =>
      exists i :: 0 <= i < |rows| && rows[i].TurnEnd? && rows[i].ended == t && ToEvent(rows[i].reason) == why
    case MessageEnd(_, text) =>
      Recent(rows) != [] && Recent(rows)[0].Assistant? && Recent(rows)[0].message.content == text
    case ToolStart(c) => ToolCall(c) in Recent(rows)
    case ToolEnd(id, _, isError) => ToolResult(id, "", isError) in Recent(rows)
    case _ => true
  }

  /** Each of the first `n` frames was emitted with its row already among the rows on disk at that moment. */
  ghost predicate AllBacked(history: seq<Event>, syncedAt: seq<nat>, rows: seq<ItemKind>, n: nat) {
    && n <= |history| == |syncedAt|
    && forall k :: 0 <= k < n ==> syncedAt[k] <= |rows| && Backed(history[k], rows[..syncedAt[k]])
  }

  lemma BackedGrows(history: seq<Event>, syncedAt: seq<nat>, rows: seq<ItemKind>, more: seq<ItemKind>, n: nat)
    requires AllBacked(history, syncedAt, rows, n)
    requires rows <= more
    ensures AllBacked(history, syncedAt, more, n)
  {
    forall k | 0 <= k < n
      ensures syncedAt[k] <= |more| && Backed(history[k], more[..syncedAt[k]])
    {
      assert more[..syncedAt[k]] == rows[..syncedAt[k]];
    }
  }

  lemma BackedEmit(history: seq<Event>, syncedAt: seq<nat>, rows: seq<ItemKind>, e: Event, synced: nat)
    requires AllBacked(history, syncedAt, rows, |history|)
    requires synced <= |rows| && Backed(e, rows[..synced])
    ensures AllBacked(history + [e], syncedAt + [synced], rows, |history| + 1)
  {
  }

  lemma BackedMore(history: seq<Event>, syncedAt: seq<nat>, more: seq<Event>, moreAt: seq<nat>, rows: seq<ItemKind>,
                   n: nat)
    requires AllBacked(history, syncedAt, rows, n) && |more| == |moreAt|
    ensures AllBacked(history + more, syncedAt + moreAt, rows, n)
  {
  }

  class Emitter {
    var history: seq<Event>
    ghost var syncedAt: seq<nat>  // rows on disk when each frame went out
    ghost var rowsAt: seq<nat>    // rows in the log when each frame went out

    constructor ()
      ensures history == [] && syncedAt == [] && rowsAt == []
    {
      history, syncedAt, rowsAt := [], [], [];
    }

    method Emit(e: Event, ghost synced: nat, ghost rows: nat)
      modifies this
      ensures history == old(history) + [e] && syncedAt == old(syncedAt) + [synced] && rowsAt == old(rowsAt) + [rows]
      ensures LedgerOf(history) == Post(LedgerOf(old(history)), e)
    {
      LedgerSnoc(history, e);
      history := history + [e];
      syncedAt, rowsAt := syncedAt + [synced], rowsAt + [rows];
    }
  }
}
