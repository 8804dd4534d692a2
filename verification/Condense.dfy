/** The output condenser (crates/tools-std/src/condense.rs) over text already split into lines. */
module Condense {
  import opened Base

  const KEEP: seq<string> :=
    ["FAILED", "error", "panicked", "assertion", "warning", "test result", "failures:", "left:", "right:"]

  const SPECIFIC: seq<string> :=
    ["FAILED", "panicked", "assertion", "test result", "failures:", "left:", "right:"]

  const NOISE: seq<string> := ["Compiling", "Finished", "Running", "Doc-tests", "Blocking"]

  const BUDGET: nat := 80
  const TAIL_LINES: nat := 12
  const TAIL_BYTES: nat := 2000

  // ---- line classes ----

  predicate EndsWith(t: string, suffix: string) {
    |suffix| <= |t| && t[|t| - |suffix|..] == suffix
  }

  predicate Contains(t: string, part: string) {
    exists i: nat :: i <= |t| && OccursAt(t, part, i)
  }

  predicate IsNoise(t: string) {
    || t == []
    || (exists p <- NOISE :: p <= t)
    || ("test " <= t && EndsWith(t, "... ok"))
  }

  predicate IsSignal(t: string) {
    exists k <- KEEP :: Contains(t, k)
  }

  predicate IsSpecific(t: string) {
    exists k <- SPECIFIC :: Contains(t, k)
  }

  predicate Matched(line: string) {
    !IsNoise(Trim(line)) && IsSignal(Trim(line))
  }

  /** A signal line that the baseline, if there is one, does not already hold. */
  predicate Keeps(line: string, baseline: Option<set<string>>) {
    Matched(line) && !(baseline.Some? && line in baseline.value)
  }

  function Kept(lines: seq<string>, baseline: Option<set<string>>): seq<string> {
    if lines == [] then []
    else
      var n := |lines| - 1;
      Kept(lines[..n], baseline) + if Keeps(lines[n], baseline) then [lines[n]] else []
  }

  // ---- ranking ----

  /** Positions whose flag equals `want`, ascending. */
  function Indices(flags: seq<bool>, want: bool): seq<nat> {
    if flags == [] then []
    else
      var n := |flags| - 1;
      Indices(flags[..n], want) + if flags[n] == want then [n] else []
  }

  /** First and last entries within the budget, the extra slot on the head side. */
  function HeadTail(idx: seq<nat>, budget: nat): seq<nat> {
    if |idx| <= budget then idx
    else
      var head := (budget + 1) / 2;
      idx[..head] + idx[|idx| - (budget - head)..]
  }

  /** The last line, then specific lines before generic ones. */
  function Picked(flags: seq<bool>): seq<nat> {
    var specific, generic := Indices(flags, true), Indices(flags, false);
    [|flags|] +
    if |specific| >= BUDGET - 1 then HeadTail(specific, BUDGET - 1)
    else specific + HeadTail(generic, BUDGET - 1 - |specific|)
  }

  function Insert(x: nat, s: seq<nat>): seq<nat> {
    if s == [] || x <= s[0] then [x] + s else [s[0]] + Insert(x, s[1..])
  }

  function Sort(s: seq<nat>): seq<nat> {
    if s == [] then [] else Insert(s[0], Sort(s[1..]))
  }

  predicate Ascending(s: seq<nat>) {
    forall i, j :: 0 <= i < j < |s| ==> s[i] < s[j]
  }

  predicate Distinct(s: seq<nat>) {
    forall i, j :: 0 <= i < j < |s| ==> s[i] != s[j]
  }

  predicate Below(s: seq<nat>, n: nat) {
    forall i :: 0 <= i < |s| ==> s[i] < n
  }

  /** The lines at the given positions. */
  function At(lines: seq<string>, idx: seq<nat>): seq<string>
    requires Below(idx, |lines|)
  {
    seq(|idx|, i requires 0 <= i < |idx| => lines[idx[i]])
  }

  function Flags(lines: seq<string>): seq<bool> {
    seq(|lines|, i requires 0 <= i < |lines| => IsSpecific(Trim(lines[i])))
  }

  lemma {:induction false} IndicesSound(flags: seq<bool>, want: bool)
    ensures Ascending(Indices(flags, want)) && Below(Indices(flags, want), |flags|)
    ensures forall i: nat :: i < |flags| ==> (i in Indices(flags, want) <==> flags[i] == want)
  {
    if flags != [] {
      var n := |flags| - 1;
      var init := Indices(flags[..n], want);
      IndicesSound(flags[..n], want);
      assert Indices(flags, want) == if flags[n] == want then init + [n] else init;
    }
  }

  lemma {:induction false} IndicesSplit(flags: seq<bool>)
    ensures |Indices(flags, true)| + |Indices(flags, false)| == |flags|
  {
    if flags != [] {
      IndicesSplit(flags[..|flags| - 1]);
    }
  }

  /** No two of the picked entries coincide. */
  lemma HeadTailSound(idx: seq<nat>, budget: nat, n: nat)
    requires Ascending(idx) && Below(idx, n)
    ensures var p := HeadTail(idx, budget);
      |p| == Min(|idx|, budget) && Ascending(p) && Below(p, n)
      && forall i :: 0 <= i < |p| ==> p[i] in idx
  {
  }

  lemma {:induction false} InsertSound(x: nat, s: seq<nat>)
    requires Ascending(s) && x !in s
    ensures Ascending(Insert(x, s)) && |Insert(x, s)| == |s| + 1
    ensures forall y :: y in Insert(x, s) <==> y == x || y in s
  {
    if s != [] && s[0] < x {
      InsertSound(x, s[1..]);
      var t := Insert(x, s[1..]);
      assert forall j :: 0 <= j < |t| ==> s[0] < t[j] by {
        forall j | 0 <= j < |t| ensures s[0] < t[j] { assert t[j] in t; }
      }
    }
  }

  lemma {:induction false} SortSound(s: seq<nat>)
    requires Distinct(s)
    ensures Ascending(Sort(s)) && |Sort(s)| == |s|
    ensures forall y :: y in Sort(s) <==> y in s
  {
    if s != [] {
      SortSound(s[1..]);
      assert s[0] !in s[1..];
      InsertSound(s[0], Sort(s[1..]));
    }
  }

  /** Over budget, exactly eighty distinct positions are picked, the last among them, and every specific
      one that fits. */
  lemma PickedSound(flags: seq<bool>)
    requires |flags| >= BUDGET
    ensures var p := Picked(flags);
      && |p| == BUDGET && Distinct(p) && Below(p, |flags| + 1) && |flags| in p
      && (|Indices(flags, true)| <= BUDGET - 1 ==> forall i: nat :: i < |flags| && flags[i] ==> i in p)
  {
    var specific, generic := Indices(flags, true), Indices(flags, false);
    IndicesSound(flags, true);
    IndicesSound(flags, false);
    IndicesSplit(flags);
    hide Indices;
    HeadTailSound(specific, BUDGET - 1, |flags|);
    if |specific| < BUDGET - 1 { HeadTailSound(generic, BUDGET - 1 - |specific|, |flags|); }
  }

  /** The eighty lines kept of more: eighty distinct positions in order, the last line last, and every
      specific line unless there are more than seventy-nine before it. */
  ghost predicate Selection(lines: seq<string>, out: seq<string>, at: seq<nat>) {
    && |at| == BUDGET && Ascending(at) && Below(at, |lines|) && out == At(lines, at)
    && at[BUDGET - 1] == |lines| - 1
    && (|Indices(Flags(lines[..|lines| - 1]), true)| <= BUDGET - 1 ==>
          forall i: nat :: i < |lines| && IsSpecific(Trim(lines[i])) ==> i in at)
  }

  method PickKept(lines: seq<string>) returns (out: seq<string>, ghost at: seq<nat>)
    requires |lines| > BUDGET
    ensures Selection(lines, out, at) && |out| == BUDGET
  {
    assert Indices([], true) == Indices([], false) == [];
    hide Indices, IsSpecific, Sort, HeadTail, Trim, Selection, Ascending;
    var last := |lines| - 1;
    var specific, generic: seq<nat> := [], [];
    ghost var flags := Flags(lines[..last]);
    assert flags[..0] == [];
    var i := 0;
    while i < last
      invariant i <= last
      invariant specific == Indices(flags[..i], true) && generic == Indices(flags[..i], false)
    {
      assert flags[..i + 1][..i] == flags[..i];
      IndicesStep(flags[..i + 1]);
      if IsSpecific(Trim(lines[i])) {
        specific := specific + [i];
      } else {
        generic := generic + [i];
      }
      i := i + 1;
    }
    assert flags[..last] == flags;
    var picked := [last];
    if |specific| >= BUDGET - 1 {
      picked := picked + HeadTail(specific, BUDGET - 1);
    } else {
      picked := picked + specific;
      picked := picked + HeadTail(generic, BUDGET - 1 - |specific|);
    }
    PickedIs(flags, specific, generic, picked);
    PickedSelects(lines, flags);
    SelectionSize(lines, Sort(Picked(flags)));
    picked := Sort(picked);
    at := picked;
    out := At(lines, picked);
  }

  lemma PickedIs(flags: seq<bool>, specific: seq<nat>, generic: seq<nat>, picked: seq<nat>)
    requires specific == Indices(flags, true) && generic == Indices(flags, false)
    requires picked == if |specific| >= BUDGET - 1 then [|flags|] + HeadTail(specific, BUDGET - 1)
                       else [|flags|] + specific + HeadTail(generic, BUDGET - 1 - |specific|)
    ensures picked == Picked(flags)
  {
    hide Indices, HeadTail;
  }

  lemma SelectionSize(lines: seq<string>, at: seq<nat>)
    requires Below(at, |lines|) && Selection(lines, At(lines, at), at)
    ensures |At(lines, at)| == BUDGET
  {
    hide Indices, IsSpecific, Trim, Ascending;
  }

  lemma IndicesStep(flags: seq<bool>)
    requires flags != []
    ensures var n := |flags| - 1; forall want ::
      Indices(flags, want) == Indices(flags[..n], want) + if flags[n] == want then [n] else []
  {
  }

  lemma PickedSelects(lines: seq<string>, flags: seq<bool>)
    requires |lines| > BUDGET && flags == Flags(lines[..|lines| - 1])
    ensures var at := Sort(Picked(flags)); Below(at, |lines|) && Selection(lines, At(lines, at), at)
  {
    PickedSound(flags);
    var p := Picked(flags);
    hide Indices, Picked, IsSpecific, Trim;
    SortSound(p);
    var at := Sort(p);
    hide Sort;
    forall i | 0 <= i < |at| ensures at[i] < |lines| { assert at[i] in p; }
    var last := |lines| - 1;
    assert last in at;
    var k: nat :| k < |at| && at[k] == last;
    assert at[|at| - 1] <= last;
    if |Indices(flags, true)| <= BUDGET - 1 {
      forall i: nat | i < |lines| && IsSpecific(Trim(lines[i])) ensures i in at {
        assert i < last ==> flags[i];
        assert i in p;
      }
    }
  }

  // ---- the raw tail ----

  /** Bytes of the lines, each with its newline. */
  function Cost(lines: seq<string>): nat {
    if lines == [] then 0 else ByteLen(lines[0]) + 1 + Cost(lines[1..])
  }

  predicate TailFits(lines: seq<string>) {
    |lines| <= TAIL_LINES && Cost(lines) <= TAIL_BYTES
  }

  /** The longest suffix of whole characters within the byte budget. */
  function LastBytes(line: string): string {
    if ByteLen(line) <= TAIL_BYTES then line else LastBytes(line[1..])
  }

  datatype Condensed =
    | Body(lines: seq<string>, dropped: nat, omitted: nat)
    | RawTail(lines: seq<string>, earlier: nat)
    | NoActionable(total: nat)

  function Text(c: Condensed): string {
    match c
    case Body(lines, dropped, omitted) =>
      if omitted > 0 || dropped > 0 then
        Join(lines) + "\n[..." + Decimal(dropped) + " noise lines and " + Decimal(omitted)
        + " kept-lines over cap omitted]"
      else Join(lines)
    case RawTail(lines, earlier) =>
      Join(lines) + if earlier > 0 then "\n[..." + Decimal(earlier) + " earlier lines omitted]" else ""
    case NoActionable(total) => "(no actionable lines in " + Decimal(total) + " lines of output)"
  }

  predicate AllNoise(lines: seq<string>) {
    forall i :: 0 <= i < |lines| ==> IsNoise(Trim(lines[i]))
  }

  /** The tail starts at `from`: no earlier line would fit, and only a lone oversized last line is cut. */
  predicate TailFrom(all: seq<string>, from: nat, shown: seq<string>) {
    && from < |all|
    && (if TailFits(all[|all| - 1..]) then
          shown == all[from..] && TailFits(shown) && (from > 0 ==> !TailFits(all[from - 1..]))
        else from == |all| - 1 && shown == [LastBytes(all[from])])
  }

  method CondenseTail(all: seq<string>) returns (c: Condensed)
    ensures all == [] ==> c == NoActionable(0)
    ensures all != [] ==> exists from: nat, shown ::
      TailFrom(all, from, shown) && c == (if AllNoise(all[from..]) then NoActionable(|all|) else RawTail(shown, from))
  {
    hide ByteLen, LastBytes, IsNoise, Trim;
    if all == [] {
      return NoActionable(0);
    }
    var first, bytes := |all|, 0;
    assert Cost(all[|all|..]) == 0;
    while first > 0 && |all| - first < TAIL_LINES
      invariant 0 <= first <= |all| && |all| - first <= TAIL_LINES
      invariant bytes == Cost(all[first..]) && bytes <= TAIL_BYTES
      invariant first < |all| ==> TailFits(all[|all| - 1..])
    {
      var cost := ByteLen(all[first - 1]) + 1;
      assert all[first - 1..][1..] == all[first..];
      if bytes + cost > TAIL_BYTES {
        break;
      }
      bytes := bytes + cost;
      first := first - 1;
    }
    var shown := all[first..];
    if first == |all| {
      first := first - 1;
      shown := [LastBytes(all[first])];
    }
    assert TailFrom(all, first, shown);
    if AllNoise(all[first..]) {
      return NoActionable(|all|);
    }
    return RawTail(shown, first);
  }

  // ---- the whole condenser ----

  method CondenseOutput(lines: seq<string>, baseline: Option<set<string>>) returns (c: Condensed, text: string)
    ensures text == Text(c)
    ensures lines == [] ==> c == NoActionable(0)
    ensures var kept := Kept(lines, baseline);
      && (kept != [] ==>
            && c.Body? && |c.lines| + c.dropped + c.omitted == |lines|
            && c.dropped == |lines| - |kept|
            && (|kept| <= BUDGET ==> c.lines == kept)
            && (|kept| > BUDGET ==> exists at :: Selection(kept, c.lines, at)))
      && (kept == [] && (exists i :: 0 <= i < |lines| && Matched(lines[i])) ==> c == NoActionable(|lines|))
      && (kept == [] && lines != [] && (forall i :: 0 <= i < |lines| ==> !Matched(lines[i])) ==>
            exists from: nat, shown ::
              TailFrom(lines, from, shown)
              && c == (if AllNoise(lines[from..]) then NoActionable(|lines|) else RawTail(shown, from)))
  {
    hide IsNoise, IsSignal, Trim, Selection, TailFrom, AllNoise, Text;
    var kept: seq<string> := [];
    var matched, dropped := 0, 0;
    var i := 0;
    assert lines[..0] == [];
    while i < |lines|
      invariant i <= |lines| && kept == Kept(lines[..i], baseline)
      invariant |kept| + dropped == i
      invariant matched == 0 <==> forall j :: 0 <= j < i ==> !Matched(lines[j])
    {
      var line := lines[i];
      assert lines[..i + 1][..i] == lines[..i];
      i := i + 1;
      var t := Trim(line);
      if IsNoise(t) {
        dropped := dropped + 1;
      } else if IsSignal(t) {
        matched := matched + 1;
        if baseline.Some? && line in baseline.value {
          dropped := dropped + 1;
        } else {
          kept := kept + [line];
        }
      } else {
        dropped := dropped + 1;
      }
    }
    assert lines[..|lines|] == lines;
    if kept == [] && matched == 0 {
      c := CondenseTail(lines);
    } else if kept == [] {
      c := NoActionable(|lines|);
    } else {
      var omitted := SatSub(|kept|, BUDGET);
      if omitted > 0 {
        var body, _ := PickKept(kept);
        c := Body(body, dropped, omitted);
      } else {
        c := Body(kept, dropped, omitted);
      }
    }
    text := Text(c);
  }
}
