/** What a run's counters mean: the tallies of a sequence of answered tool calls
    (crates/agent-loop/src/proof.rs, crates/agent-loop/src/budget_nudge.rs). */
module Tally {
  import opened Base

  type Tree = map<string, string>
  type Effect = Tree -> Tree

  /** An executed call: its result text is seen only through its hash. */
  datatype Run = Run(name: string, args: string, obs: nat, ok: bool, effect: Effect)

  /** A recorded result: of an executed call, or of one the registry answered or a cancel aborted. */
  datatype Answer = Answer(name: string, verifies: bool, ok: bool)

  datatype CallTrace = CallTrace(run: Option<Run>, answer: Option<Answer>)

  datatype Counters = Counters(edits: nat, actions: nat, streak: nat, lastSig: string, lastObs: nat, verified: bool)

  const TOOL_EDIT := "edit"
  const TOOL_WRITE := "write"
  const ZERO := Counters(0, 0, 0, "", 0, false)

  predicate IsWrite(name: string) {
    name == TOOL_EDIT || name == TOOL_WRITE
  }

  function Sig(name: string, args: string): string {
    name + ":" + args
  }

  function AfterRun(c: Counters, r: Run): Counters {
    var same := Sig(r.name, r.args) == c.lastSig && r.obs == c.lastObs;
    c.(edits := c.edits + (if r.ok && IsWrite(r.name) then 1 else 0),
       actions := c.actions + 1,
       streak := if same then c.streak + 1 else 0,
       lastSig := Sig(r.name, r.args),
       lastObs := r.obs)
  }

  function VerifiedAfter(before: bool, a: Answer): bool {
    if !a.ok then before else if IsWrite(a.name) then false else if a.verifies then true else before
  }

  function AfterCall(c: Counters, t: CallTrace): Counters {
    var ran := if t.run.Some? then AfterRun(c, t.run.value) else c;
    if t.answer.Some? then ran.(verified := VerifiedAfter(ran.verified, t.answer.value)) else ran
  }

  function CountersOf(trace: seq<CallTrace>): Counters {
    if trace == [] then ZERO else AfterCall(CountersOf(trace[..|trace| - 1]), trace[|trace| - 1])
  }

  lemma CountersSnoc(trace: seq<CallTrace>, t: CallTrace)
    ensures CountersOf(trace + [t]) == AfterCall(CountersOf(trace), t)
  {
    assert (trace + [t])[..|trace|] == trace;
  }

  function TreeOf(start: Tree, trace: seq<CallTrace>): Tree {
    if trace == [] then start
    else
      var before := TreeOf(start, trace[..|trace| - 1]);
      var t := trace[|trace| - 1];
      if t.run.Some? then t.run.value.effect(before) else before
  }

  lemma TreeSnoc(start: Tree, trace: seq<CallTrace>, t: CallTrace)
    ensures TreeOf(start, trace + [t]) ==
            if t.run.Some? then t.run.value.effect(TreeOf(start, trace)) else TreeOf(start, trace)
  {
    assert (trace + [t])[..|trace|] == trace;
  }

  // ---- the tallies, said without the counters ----

  /** The executed calls' signatures and observations, oldest first. */
  function Actions(trace: seq<CallTrace>): seq<(string, nat)> {
    if trace == [] then []
    else
      var t := trace[|trace| - 1];
      Actions(trace[..|trace| - 1])
      + (if t.run.Some? then [(Sig(t.run.value.name, t.run.value.args), t.run.value.obs)] else [])
  }

  ghost predicate WroteAt(trace: seq<CallTrace>, i: nat)
    requires i < |trace|
  {
    trace[i].run.Some? && trace[i].run.value.ok && IsWrite(trace[i].run.value.name)
  }

  ghost function Writes(trace: seq<CallTrace>): set<nat> {
    set i: nat | i < |trace| && WroteAt(trace, i)
  }

  lemma WritesSnoc(trace: seq<CallTrace>)
    requires trace != []
    ensures
      var n := |trace| - 1;
      |Writes(trace)| == |Writes(trace[..n])| + if WroteAt(trace, n) then 1 else 0
  {
    var n := |trace| - 1;
    assert forall i: nat :: i < n ==> WroteAt(trace, i) == WroteAt(trace[..n], i);
    assert Writes(trace) == Writes(trace[..n]) + (if WroteAt(trace, n) then {n} else {});
    assert n !in Writes(trace[..n]);
  }

  /** `actions` counts executed calls and `edits` the successful writes among them. */
  lemma {:induction false} CountersCount(trace: seq<CallTrace>)
    ensures CountersOf(trace).actions == |Actions(trace)|
    ensures CountersOf(trace).edits == |Writes(trace)|
  {
    if trace == [] {
      assert Writes(trace) == {};
    } else {
      var n := |trace| - 1;
      CountersCount(trace[..n]);
      WritesSnoc(trace);
      hide Writes;
    }
  }

  /** The streak is one less than the longest constant run of (call, observation) pairs at the end. */
  ghost predicate LongestSuffix(actions: seq<(string, nat)>, streak: nat) {
    var n := |actions|;
    if n == 0 then streak == 0
    else
      && streak < n
      && (forall i :: n - 1 - streak <= i < n ==> actions[i] == actions[n - 1])
      && (streak + 1 < n ==> actions[n - 2 - streak] != actions[n - 1])
  }

  /** One more action lengthens the run when it repeats the last one, and starts a new one otherwise. */
  lemma SuffixSnoc(before: seq<(string, nat)>, streak: nat, last: (string, nat))
    requires LongestSuffix(before, streak)
    ensures LongestSuffix(before + [last], if before != [] && before[|before| - 1] == last then streak + 1 else 0)
  {
    var more := before + [last];
    assert forall i :: 0 <= i < |before| ==> more[i] == before[i];
  }

  lemma {:induction false} StreakIsLongestSuffix(trace: seq<CallTrace>)
    ensures LongestSuffix(Actions(trace), CountersOf(trace).streak)
    ensures Actions(trace) == [] ==> CountersOf(trace).lastSig == ""
    ensures Actions(trace) != [] ==>
              (CountersOf(trace).lastSig, CountersOf(trace).lastObs) == Actions(trace)[|Actions(trace)| - 1]
    ensures forall i :: 0 <= i < |Actions(trace)| ==> Actions(trace)[i].0 != ""
  {
    if trace != [] {
      var n := |trace| - 1;
      StreakIsLongestSuffix(trace[..n]);
      var before, t := Actions(trace[..n]), trace[n];
      if t.run.Some? {
        var last := (Sig(t.run.value.name, t.run.value.args), t.run.value.obs);
        assert last.0 != "";
        assert Actions(trace) == before + [last];
        SuffixSnoc(before, CountersOf(trace[..n]).streak, last);
        hide LongestSuffix;
      } else {
        assert Actions(trace) == before;
      }
    }
  }

  /** The flag says exactly that some verification passed and no recorded write has succeeded since. */
  ghost predicate VerifiedSince(trace: seq<CallTrace>, i: nat) {
    && i < |trace|
    && trace[i].answer.Some? && trace[i].answer.value.ok && trace[i].answer.value.verifies
    && forall k :: i <= k < |trace| && trace[k].answer.Some? && trace[k].answer.value.ok ==>
         !IsWrite(trace[k].answer.value.name)
  }

  lemma {:induction false} VerifiedMeansTested(trace: seq<CallTrace>)
    ensures CountersOf(trace).verified <==> exists i: nat :: VerifiedSince(trace, i)
  {
    if trace != [] {
      var n := |trace| - 1;
      var before, t := trace[..n], trace[n];
      VerifiedMeansTested(before);
      if t.answer.Some? && t.answer.value.ok && !IsWrite(t.answer.value.name) && t.answer.value.verifies {
        assert VerifiedSince(trace, n);
      }
      if CountersOf(trace).verified && CountersOf(before).verified {
        var i: nat :| VerifiedSince(before, i);
        assert trace[i] == before[i];
        assert VerifiedSince(trace, i);
      }
      forall i: nat | VerifiedSince(trace, i)
        ensures CountersOf(trace).verified
      {
        if i < n {
          assert before[i] == trace[i];
          assert VerifiedSince(before, i);
        }
      }
    }
  }
}
