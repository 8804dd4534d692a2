/** Batch proof: patch splitting, the per-prefix probe and the savepoint gate
    (crates/agent-loop/src/proof.rs, crates/bets/src/commit.rs). */
module Proof {
  import opened Base
  import opened Tally
  import opened Snapshot

  // ---- splitting a patch into restorable fragments ----

  const DIFF := "diff --git"
  const AT := "@@"

  datatype Splitter = Splitter(done: seq<string>, header: string, open: Option<string>)

  predicate StartsFile(line: string) { DIFF <= line }
  predicate StartsHunk(line: string) { !StartsFile(line) && AT <= line }

  function Flush(s: Splitter): seq<string> {
    if s.open.Some? then s.done + [s.open.value] else s.done
  }

  function Feed(s: Splitter, line: string): Splitter {
    if StartsFile(line) then Splitter(Flush(s), line, None)
    else if StartsHunk(line) then Splitter(Flush(s), s.header, Some(s.header + "\n" + line))
    else if s.open.Some? then s.(open := Some(s.open.value + "\n" + line))
    else s.(header := s.header + "\n" + line)
  }

  function FeedAll(s: Splitter, lines: seq<string>): Splitter {
    if lines == [] then s else Feed(FeedAll(s, lines[..|lines| - 1]), lines[|lines| - 1])
  }

  /** The source's loop, with its pending fragment and header buffers. */
  method SplitPatch(lines: seq<string>, truncated: bool) returns (fragments: seq<string>)
    ensures
      var all := Flush(FeedAll(Splitter([], "", None), lines));
      fragments == if truncated && all != [] then all[..|all| - 1] else all
  {
    fragments := [];
    var header, open := "", None;
    for k := 0 to |lines|
      invariant Splitter(fragments, header, open) == FeedAll(Splitter([], "", None), lines[..k])
    {
      var line := lines[k];
      assert lines[..k + 1][..k] == lines[..k];
      if StartsFile(line) {
        if open.Some? { fragments, open := fragments + [open.value], None; }
        header := line;
      } else if AT <= line {
        if open.Some? { fragments := fragments + [open.value]; }
        open := Some(header + "\n" + line);
      } else if open.Some? {
        open := Some(open.value + "\n" + line);
      } else {
        header := header + "\n" + line;
      }
    }
    assert lines[..|lines|] == lines;
    if open.Some? { fragments := fragments + [open.value]; }
    if truncated && fragments != [] { fragments := fragments[..|fragments| - 1]; }
  }

  /** One file of a patch: its header lines and its hunks, each hunk led by its `@@` line. */
  datatype FilePatch = FilePatch(header: seq<string>, hunks: seq<seq<string>>)

  predicate Inner(line: string) { !StartsFile(line) && !StartsHunk(line) }

  ghost predicate WellFormedHunk(hunk: seq<string>) {
    hunk != [] && StartsHunk(hunk[0]) && forall i :: 1 <= i < |hunk| ==> Inner(hunk[i])
  }

  ghost predicate WellFormedFile(f: FilePatch) {
    && f.header != [] && StartsFile(f.header[0])
    && (forall i :: 1 <= i < |f.header| ==> Inner(f.header[i]))
    && forall k :: 0 <= k < |f.hunks| ==> WellFormedHunk(f.hunks[k])
  }

  function RenderHunks(hunks: seq<seq<string>>): seq<string> {
    if hunks == [] then [] else RenderHunks(hunks[..|hunks| - 1]) + hunks[|hunks| - 1]
  }

  function Render(files: seq<FilePatch>): seq<string> {
    if files == [] then []
    else
      var f := files[|files| - 1];
      Render(files[..|files| - 1]) + f.header + RenderHunks(f.hunks)
  }

  /** What `restore_hunks` accepts: the file header directly followed by one hunk. */
  function Fragment(header: seq<string>, hunk: seq<string>): string {
    Join(header) + "\n" + Join(hunk)
  }

  function FileFragments(f: FilePatch): seq<string> {
    seq(|f.hunks|, k requires 0 <= k < |f.hunks| => Fragment(f.header, f.hunks[k]))
  }

  function Fragments(files: seq<FilePatch>): seq<string> {
    if files == [] then [] else Fragments(files[..|files| - 1]) + FileFragments(files[|files| - 1])
  }

  lemma {:induction false} FeedConcat(s: Splitter, a: seq<string>, b: seq<string>)
    ensures FeedAll(s, a + b) == FeedAll(FeedAll(s, a), b)
  {
    if b == [] {
      assert a + b == a;
    } else {
      FeedConcat(s, a, b[..|b| - 1]);
      assert (a + b)[..|a| + |b| - 1] == a + b[..|b| - 1];
    }
  }

  lemma {:induction false} FeedHeader(s: Splitter, header: seq<string>)
    requires header != [] && StartsFile(header[0]) && forall i :: 1 <= i < |header| ==> Inner(header[i])
    ensures FeedAll(s, header) == Splitter(Flush(s), Join(header), None)
  {
    var n := |header| - 1;
    if n == 0 {
      assert header[..0] == [];
    } else {
      FeedHeader(s, header[..n]);
    }
  }

  lemma {:induction false} FeedHunk(s: Splitter, header: seq<string>, hunk: seq<string>)
    requires s.header == Join(header) && WellFormedHunk(hunk)
    ensures FeedAll(s, hunk) == Splitter(Flush(s), s.header, Some(Fragment(header, hunk)))
  {
    var n := |hunk| - 1;
    if n == 0 {
      assert hunk[..0] == [];
    } else {
      FeedHunk(s, header, hunk[..n]);
      var a, b := Join(header), Join(hunk[..n]);
      assert (a + "\n" + b) + "\n" + hunk[n] == a + "\n" + (b + "\n" + hunk[n]);
    }
  }

  lemma {:induction false} FeedHunks(s: Splitter, f: FilePatch, n: nat)
    requires WellFormedFile(f) && s.header == Join(f.header) && n <= |f.hunks|
    ensures
      var after := FeedAll(s, RenderHunks(f.hunks[..n]));
      && Flush(after) == Flush(s) + FileFragments(f)[..n]
      && after.header == s.header
  {
    if n == 0 {
      assert f.hunks[..0] == [];
    } else {
      FeedHunks(s, f, n - 1);
      HunkSlices(f, n);
      assert WellFormedHunk(f.hunks[n - 1]);
      hide RenderHunks, FeedAll, Feed, FileFragments, Fragment, WellFormedHunk, WellFormedFile, Join, Flush;
      var before := FeedAll(s, RenderHunks(f.hunks[..n - 1]));
      FeedConcat(s, RenderHunks(f.hunks[..n - 1]), f.hunks[n - 1]);
      FeedHunk(before, f.header, f.hunks[n - 1]);
      FlushOpen(Flush(before), before.header, Fragment(f.header, f.hunks[n - 1]));
      assert Flush(s) + FileFragments(f)[..n]
          == Flush(s) + FileFragments(f)[..n - 1] + [Fragment(f.header, f.hunks[n - 1])];
    }
  }

  lemma FlushOpen(fragments: seq<string>, header: string, fragment: string)
    ensures Flush(Splitter(fragments, header, Some(fragment))) == fragments + [fragment]
  {
  }

  lemma HunkSlices(f: FilePatch, n: nat)
    requires 0 < n <= |f.hunks|
    ensures RenderHunks(f.hunks[..n]) == RenderHunks(f.hunks[..n - 1]) + f.hunks[n - 1]
    ensures FileFragments(f)[..n] == FileFragments(f)[..n - 1] + [Fragment(f.header, f.hunks[n - 1])]
  {
    assert f.hunks[..n][..n - 1] == f.hunks[..n - 1];
  }

  /** Splitting inverts rendering: one fragment per hunk, in order, each under its own file's header. */
  lemma {:induction false} SplitInvertsRender(files: seq<FilePatch>)
    requires forall i :: 0 <= i < |files| ==> WellFormedFile(files[i])
    ensures Flush(FeedAll(Splitter([], "", None), Render(files))) == Fragments(files)
  {
    if files != [] {
      var n := |files| - 1;
      var f, start := files[n], Splitter([], "", None);
      SplitInvertsRender(files[..n]);
      var before, headed := FeedAll(start, Render(files[..n])), FeedAll(start, Render(files[..n]) + f.header);
      assert Render(files) == Render(files[..n]) + f.header + RenderHunks(f.hunks);
      assert Fragments(files) == Fragments(files[..n]) + FileFragments(f);
      assert WellFormedFile(f);
      FeedConcat(start, Render(files[..n]), f.header);
      FeedHeader(before, f.header);
      FlushClosed(Flush(before), Join(f.header));
      hide Render, RenderHunks, FeedAll, Feed, Fragments, FileFragments, WellFormedFile, Join, Flush;
      FeedConcat(start, Render(files[..n]) + f.header, RenderHunks(f.hunks));
      FeedHunks(headed, f, |f.hunks|);
      assert f.hunks[..|f.hunks|] == f.hunks && FileFragments(f)[..|f.hunks|] == FileFragments(f);
    }
  }

  lemma FlushClosed(fragments: seq<string>, header: string)
    ensures Flush(Splitter(fragments, header, None)) == fragments
  {
  }

  // ---- probing every leading prefix ----

  type Flagged = (string, bool)

  const NO_FAULT := (false, false, false)

  /** Restores and probes each leading prefix; `tested[k]` is the tree that the k-th probe saw.
      The probe's answer is arbitrary; it is assumed to leave the tree alone. */
  method IncrementalHunks(tree: TreeService, hunks: seq<string>, noCommand: bool, faults: nat -> (bool, bool, bool))
    returns (ok: bool, flags: seq<Flagged>, ghost tested: seq<Tree>)
    modifies tree`work
    ensures ok ==> |flags| == |tested| == |hunks|
    ensures ok ==> forall k :: 0 <= k < |hunks| ==> flags[k].0 == hunks[k]
    ensures ok ==> forall k :: 0 <= k < |hunks| ==> ApplyAll(tree.apply, tree.head, hunks[..k + 1]) == Some(tested[k])
    ensures ok && hunks != [] ==> tree.work == tested[|hunks| - 1]
    ensures hunks == [] ==> ok && tree.work == old(tree.work)
    ensures tree.started && !noCommand && (forall k :: faults(k) == NO_FAULT) ==>
              && (ok <==> ApplyAll(tree.apply, tree.head, hunks).Some?)
              && (!ok ==> tree.work == tree.head)
  {
    flags, tested := [], [];
    for k := 0 to |hunks|
      invariant |flags| == |tested| == k
      invariant forall j :: 0 <= j < k ==> flags[j].0 == hunks[j]
      invariant forall j :: 0 <= j < k ==> ApplyAll(tree.apply, tree.head, hunks[..j + 1]) == Some(tested[j])
      invariant k > 0 ==> tree.work == tested[k - 1]
      invariant k == 0 ==> tree.work == old(tree.work)
    {
      ok := tree.Restore(hunks[..k + 1], faults(k));
      if !ok || noCommand {
        ApplyAllPrefix(tree.apply, tree.head, hunks, k + 1);
        return false, flags, tested;
      }
      var passed: bool := *;
      flags := flags + [(hunks[k], passed)];
      tested := tested + [tree.work];
    }
    assert hunks[..|hunks|] == hunks;
    ok := true;
  }

  datatype Savepoint = Savepoint(kept: seq<string>, reverted: seq<string>)
  datatype CommitVerdict = Committed | Partial(savepoint: Savepoint) | Aborted

  function Names(hunks: seq<Flagged>): seq<string> {
    seq(|hunks|, k requires 0 <= k < |hunks| => hunks[k].0)
  }

  function FirstFail(hunks: seq<Flagged>): (at: nat)
    ensures at <= |hunks|
    ensures forall k :: 0 <= k < at ==> hunks[k].1
    ensures at < |hunks| ==> !hunks[at].1
  {
    if hunks == [] || !hunks[0].1 then 0 else 1 + FirstFail(hunks[1..])
  }

  function SplitSavepoint(hunks: seq<Flagged>): Savepoint {
    var at := FirstFail(hunks);
    Savepoint(Names(hunks)[..at], Names(hunks)[at..])
  }

  /** All proven commits; a proven prefix is a savepoint; nothing proven aborts. */
  function GateBatch(hunks: seq<Flagged>): CommitVerdict {
    if hunks == [] then Aborted
    else
      var savepoint := SplitSavepoint(hunks);
      if savepoint.reverted == [] then Committed
      else if savepoint.kept == [] then Aborted
      else Partial(savepoint)
  }

  /** What is kept is what was tested: restoring a partial verdict's prefix gives the very tree on which
      that prefix's probe passed, every shorter prefix passed too, and the next one failed. */
  lemma KeptIsTested(apply: Apply, base: Tree, flags: seq<Flagged>, tested: seq<Tree>)
    requires |flags| == |tested|
    requires forall k :: 0 <= k < |flags| ==> ApplyAll(apply, base, Names(flags)[..k + 1]) == Some(tested[k])
    requires GateBatch(flags).Partial?
    ensures
      var savepoint := GateBatch(flags).savepoint;
      var n := |savepoint.kept|;
      && 0 < n < |flags|
      && savepoint.kept + savepoint.reverted == Names(flags)
      && ApplyAll(apply, base, savepoint.kept) == Some(tested[n - 1])
      && (forall k :: 0 <= k < n ==> flags[k].1)
      && !flags[n].1
  {
    var at := FirstFail(flags);
    assert Names(flags)[..at] + Names(flags)[at..] == Names(flags);
    assert at > 0 ==> Names(flags)[..(at - 1) + 1] == Names(flags)[..at];
  }

  /** A uniformly flagged batch is never split. */
  lemma UniformNeverSplits(hunks: seq<Flagged>, flag: bool)
    requires forall k :: 0 <= k < |hunks| ==> hunks[k].1 == flag
    ensures GateBatch(hunks) == if flag && hunks != [] then Committed else Aborted
  {
    var at := FirstFail(hunks);
    assert at == if flag then |hunks| else 0;
  }

  /** The whole gated batch: probe every prefix, judge, and settle the tree as the verdict says.
      On success the tree is fully proven, or the proven prefix, or the baseline; without a fault a failure is
      that some fragment does not apply, and leaves the baseline. */
  method ProbeAndSettle(tree: TreeService, hunks: seq<string>, faults: nat -> (bool, bool, bool))
    returns (ok: bool, verdict: CommitVerdict, flags: seq<Flagged>, ghost tested: seq<Tree>)
    modifies tree`work
    ensures ok ==> verdict == GateBatch(flags) && Names(flags) == hunks && |tested| == |hunks|
    ensures ok && verdict.Committed? ==>
              tree.work == tested[|hunks| - 1] && forall k :: 0 <= k < |flags| ==> flags[k].1
    ensures ok && verdict.Partial? ==>
              var n := |verdict.savepoint.kept|;
              0 < n < |hunks| && tree.work == tested[n - 1] && (forall k :: 0 <= k < n ==> flags[k].1) && !flags[n].1
    ensures ok && verdict.Aborted? ==> tree.work == tree.head
    ensures tree.started && (forall k :: faults(k) == NO_FAULT) && !ok ==>
              ApplyAll(tree.apply, tree.head, hunks).None? && tree.work == tree.head
  {
    ok, flags, tested := IncrementalHunks(tree, hunks, false, faults);
    verdict := GateBatch(flags);
    if !ok {
      return;
    }
    assert Names(flags) == hunks;
    match verdict {
      case Committed =>
        UncutMeansAll(flags);
      case Partial(savepoint) =>
        forall k | 0 <= k < |flags|
          ensures ApplyAll(tree.apply, tree.head, Names(flags)[..k + 1]) == Some(tested[k])
        {
        }
        KeptIsTested(tree.apply, tree.head, flags, tested);
        ok := tree.Restore(savepoint.kept, faults(|hunks|));
      case Aborted =>
        ok := tree.Rollback(faults(|hunks|).0);
    }
  }

  lemma UncutMeansAll(flags: seq<Flagged>)
    requires GateBatch(flags).Committed?
    ensures flags != [] && forall k :: 0 <= k < |flags| ==> flags[k].1
  {
    var at := FirstFail(flags);
    assert Names(flags)[at..] == [];
  }
}
