/** How each kind of append moves the scans of a run log. */
module RunLog {
  import opened Base
  import opened Items
  import opened Transcript
  import opened Request

  function Blanks(kinds: seq<ItemKind>): seq<ItemKind> {
    seq(|kinds|, i requires 0 <= i < |kinds| => Blank(kinds[i]))
  }

  lemma {:induction false} RowsAppendAll(items: seq<Item>, kinds: seq<ItemKind>)
    ensures Rows(AppendAll(items, kinds)) == Rows(items) + Blanks(kinds)
    ensures items <= AppendAll(items, kinds)
    ensures Gapless(items) ==> Gapless(AppendAll(items, kinds))
  {
    if kinds == [] {
      assert Rows(items) + Blanks(kinds) == Rows(items);
    } else {
      var n := |kinds| - 1;
      RowsAppendAll(items, kinds[..n]);
      RowsAppend(AppendAll(items, kinds[..n]), kinds[n]);
      assert Blanks(kinds) == Blanks(kinds[..n]) + [Blank(kinds[n])];
    }
  }

  lemma {:induction false} AppendAllConcat(items: seq<Item>, a: seq<ItemKind>, b: seq<ItemKind>)
    ensures AppendAll(AppendAll(items, a), b) == AppendAll(items, a + b)
  {
    if b == [] {
      assert a + b == a;
    } else {
      var n := |b| - 1;
      AppendAllConcat(items, a, b[..n]);
      assert (a + b)[..|a| + n] == a + b[..n];
    }
  }

  lemma AppendOne(items: seq<Item>, kind: ItemKind)
    ensures AppendTo(items, kind) == AppendAll(items, [kind])
    ensures Blanks([kind]) == [Blank(kind)]
  {
    assert [kind][..0] == [];
  }

  // ---- brackets ----

  function OpenAt(turn: nat): Bracket {
    if turn == 0 then Between(0) else Inside(turn)
  }

  lemma {:induction false} BracketsSkip(rows: seq<ItemKind>, more: seq<ItemKind>)
    requires forall i :: 0 <= i < |more| ==> !more[i].TurnStart? && !more[i].TurnEnd?
    ensures Brackets(rows + more) == Brackets(rows)
  {
    if more == [] {
      assert rows + more == rows;
    } else {
      var n := |more| - 1;
      BracketsSkip(rows, more[..n]);
      assert rows + more == (rows + more[..n]) + [more[n]];
      BracketsSnoc(rows + more[..n], more[n]);
    }
  }

  function TurnStartRow(turn: nat): ItemKind {
    TurnStart(turn, if turn > 1 then Some(turn - 1) else None)
  }

  lemma BracketsOpen(rows: seq<ItemKind>)
    requires Brackets(rows) == Some(Between(0))
    ensures Brackets(rows + [TurnStartRow(1)]) == Some(Inside(1))
  {
    BracketsSnoc(rows, TurnStartRow(1));
  }

  lemma BracketsHop(rows: seq<ItemKind>, turn: nat, why: TurnReason)
    requires turn > 0 && Brackets(rows) == Some(Inside(turn))
    ensures Brackets(rows + [TurnEnd(turn, why), TurnStartRow(turn + 1)]) == Some(Inside(turn + 1))
  {
    BracketsSnoc(rows, TurnEnd(turn, why));
    BracketsSnoc(rows + [TurnEnd(turn, why)], TurnStartRow(turn + 1));
    assert rows + [TurnEnd(turn, why), TurnStartRow(turn + 1)]
           == rows + [TurnEnd(turn, why)] + [TurnStartRow(turn + 1)];
  }

  lemma CloseBracket(rows: seq<ItemKind>, turn: nat, why: TurnReason)
    requires Brackets(rows) == Some(OpenAt(turn))
    ensures turn >= 1 ==> Brackets(rows + [TurnEnd(turn, why)]) == Some(Between(turn))
  {
    BracketsSnoc(rows, TurnEnd(turn, why));
  }

  // ---- checkpoints ----

  lemma {:induction false} SoundCutExtends(cp: Option<Checkpoint>, rows: seq<ItemKind>, more: seq<ItemKind>)
    requires SoundCut(cp, rows)
    ensures SoundCut(cp, rows + more)
  {
    if more == [] {
      assert rows + more == rows;
    } else {
      var n := |more| - 1;
      SoundCutExtends(cp, rows, more[..n]);
      assert rows + more == (rows + more[..n]) + [more[n]];
      SoundCutGrows(cp, rows + more[..n], more[n]);
    }
  }

  // ---- pairing ----

  predicate Silent(row: ItemKind) {
    !row.Input? && !row.Assistant? && !row.ToolResult?
  }

  /** Rows without a message leave the open calls as they are. */
  lemma {:induction false} PairSilent(rows: seq<ItemKind>, more: seq<ItemKind>)
    requires forall i :: 0 <= i < |more| ==> Silent(more[i])
    ensures PairScan(rows + more) == PairScan(rows)
  {
    if more == [] {
      assert rows + more == rows;
    } else {
      var n := |more| - 1;
      PairSilent(rows, more[..n]);
      assert rows + more == (rows + more[..n]) + [more[n]];
      PairScanSnoc(rows + more[..n], more[n]);
    }
  }

  /** Input rows neither break nor repair a pairing. */
  lemma {:induction false} PairInputs(rows: seq<ItemKind>, more: seq<ItemKind>)
    requires forall i :: 0 <= i < |more| ==> more[i].Input?
    ensures PairScan(rows + more) == Some([]) <==> PairScan(rows) == Some([])
  {
    if more == [] {
      assert rows + more == rows;
    } else {
      var n := |more| - 1;
      PairInputs(rows, more[..n]);
      assert rows + more == (rows + more[..n]) + [more[n]];
      PairScanSnoc(rows + more[..n], more[n]);
    }
  }

  /** An agent row without calls neither breaks nor repairs a pairing. */
  lemma PairDeclare(rows: seq<ItemKind>, m: AssistantMessage, stop: StopReason)
    requires m.calls == []
    ensures PairScan(rows + [Assistant(m, stop)]) == Some([]) <==> PairScan(rows) == Some([])
  {
    PairScanSnoc(rows, Assistant(m, stop));
  }

  /** The scan inside a batch of calls `ids` of which `k` have been settled: in step as long as the log was
      paired and the settled ids are distinct; otherwise it can never complete, because what it waits for
      has been answered already. */
  ghost predicate MidBatch(scan: Option<seq<string>>, paired: bool, ids: seq<string>, k: nat)
    requires k <= |ids|
  {
    if paired && NoDup(ids[..k]) then scan == Some(ids[k..])
    else scan == None || (scan.value != [] && scan.value[0] in ids[..k])
  }

  lemma DispatchOpens(rows: seq<ItemKind>, m: AssistantMessage, stop: StopReason, more: seq<ItemKind>, paired: bool)
    requires paired <==> PairScan(rows) == Some([])
    requires forall i :: 0 <= i < |more| ==> Silent(more[i])
    ensures MidBatch(PairScan(rows + [Assistant(m, stop)] + more), paired, CallIds(m.calls), 0)
  {
    var agent, ids := Assistant(m, stop), CallIds(m.calls);
    PairScanSnoc(rows, agent);
    PairSilent(rows + [agent], more);
    hide PairScan, MidBatch;
    BatchBegins(PairStep(PairScan(rows), agent), paired, ids);
  }

  lemma BatchBegins(scan: Option<seq<string>>, paired: bool, ids: seq<string>)
    requires scan == if paired then Some(ids) else None
    ensures MidBatch(scan, paired, ids, 0)
  {
    assert ids[0..] == ids && ids[..0] == [];
  }

  /** Settling the k-th call: its result is recorded unless the same id was answered before. */
  lemma SettleOne(rows: seq<ItemKind>, paired: bool, ids: seq<string>, k: nat, isError: bool)
    requires k < |ids| && MidBatch(PairScan(rows), paired, ids, k)
    ensures ids[k] in ids[..k] ==> MidBatch(PairScan(rows), paired, ids, k + 1)
    ensures ids[k] !in ids[..k] ==> MidBatch(PairScan(rows + [ToolResult(ids[k], "", isError)]), paired, ids, k + 1)
  {
    assert ids[..k + 1] == ids[..k] + [ids[k]];
    assert NoDup(ids[..k + 1]) <==> NoDup(ids[..k]) && ids[k] !in ids[..k] by {
      if NoDup(ids[..k + 1]) {
        forall i, j | 0 <= i < j < k ensures ids[i] != ids[j] { assert ids[..k + 1][i] != ids[..k + 1][j]; }
        forall i | 0 <= i < k ensures ids[i] != ids[k] { assert ids[..k + 1][i] != ids[..k + 1][k]; }
      }
    }
    PairScanSnoc(rows, ToolResult(ids[k], "", isError));
    if ids[k] in ids[..k] {
      assert paired && NoDup(ids[..k]) ==> PairScan(rows).value == ids[k..] && ids[k..][0] == ids[k];
    }
  }

  lemma BatchCloses(scan: Option<seq<string>>, paired: bool, ids: seq<string>)
    requires MidBatch(scan, paired, ids, |ids|)
    ensures scan == Some([]) <==> paired && NoDup(ids)
  {
    assert ids[..|ids|] == ids && ids[|ids|..] == [];
  }

  // ---- growth of a whole log ----

  ghost predicate GoodLog(items: seq<Item>) {
    items != [] && ValidLog(items)
  }

  /** Rows put behind earlier ones number from 1 again, which a reader of the whole takes for a gap. */
  lemma NumberedAgain(base: seq<Item>, items: seq<Item>)
    requires GoodLog(items)
    ensures ValidLog(base + items) <==> base == []
  {
    if base == [] {
      assert base + items == items;
    } else {
      assert (base + items)[|base|] == items[0];
    }
  }

  predicate TurnRow(kind: ItemKind) {
    kind.TurnStart? || kind.TurnEnd?
  }

  lemma Grow(items: seq<Item>, kinds: seq<ItemKind>, cp: Option<Checkpoint>)
    ensures items <= AppendAll(items, kinds)
    ensures Rows(AppendAll(items, kinds)) == Rows(items) + Blanks(kinds)
    ensures Rows(items) <= Rows(AppendAll(items, kinds))
    ensures GoodLog(items) ==> GoodLog(AppendAll(items, kinds))
    ensures (forall i :: 0 <= i < |kinds| ==> !TurnRow(kinds[i])) ==>
              Brackets(Rows(AppendAll(items, kinds))) == Brackets(Rows(items))
    ensures SoundCut(cp, Rows(items)) ==> SoundCut(cp, Rows(AppendAll(items, kinds)))
  {
    RowsAppendAll(items, kinds);
    if forall i :: 0 <= i < |kinds| ==> !TurnRow(kinds[i]) {
      BracketsSkip(Rows(items), Blanks(kinds));
    }
    if SoundCut(cp, Rows(items)) {
      SoundCutExtends(cp, Rows(items), Blanks(kinds));
    }
  }

  lemma GrowOne(items: seq<Item>, kind: ItemKind, cp: Option<Checkpoint>)
    ensures items <= AppendTo(items, kind)
    ensures Rows(AppendTo(items, kind)) == Rows(items) + [Blank(kind)]
    ensures Rows(items) <= Rows(AppendTo(items, kind))
    ensures GoodLog(items) ==> GoodLog(AppendTo(items, kind))
    ensures !TurnRow(kind) ==> Brackets(Rows(AppendTo(items, kind))) == Brackets(Rows(items))
    ensures SoundCut(cp, Rows(items)) ==> SoundCut(cp, Rows(AppendTo(items, kind)))
  {
    AppendOne(items, kind);
    Grow(items, [kind], cp);
  }
}
