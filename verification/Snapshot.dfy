/** The work tree overlay: a baseline per batch, rollback to it, and re-applying kept
    patch fragments (crates/snapshot/src/git.rs). Git itself is a deterministic partial
    `apply` of one fragment to a tree, and a fault flag per command. */
module Snapshot {
  import opened Base
  import opened Tally

  type Apply = (Tree, string) -> Option<Tree>

  /** All fragments in order, or nothing if any does not apply. */
  function ApplyAll(apply: Apply, base: Tree, hunks: seq<string>): Option<Tree> {
    if hunks == [] then Some(base)
    else
      var before := ApplyAll(apply, base, hunks[..|hunks| - 1]);
      if before.None? then None else apply(before.value, hunks[|hunks| - 1])
  }

  lemma {:induction false} ApplyAllPrefix(apply: Apply, base: Tree, hunks: seq<string>, n: nat)
    requires n <= |hunks|
    ensures ApplyAll(apply, base, hunks).Some? ==> ApplyAll(apply, base, hunks[..n]).Some?
  {
    if n < |hunks| {
      ApplyAllPrefix(apply, base, hunks[..|hunks| - 1], n);
      assert hunks[..|hunks| - 1][..n] == hunks[..n];
    } else {
      assert hunks[..n] == hunks;
    }
  }

  class TreeService {
    const apply: Apply
    var work: Tree
    var head: Tree
    var started: bool

    constructor (apply: Apply, work: Tree, head: Tree)
      ensures this.apply == apply && this.work == work && this.head == head && !started
    {
      this.apply, this.work, this.head, started := apply, work, head, false;
    }

    /** Records a start revision; an unborn head is committed first unless there is nothing to commit. */
    method Ensure(fault: bool, born: bool) returns (ok: bool)
      modifies this`head, this`started
      ensures ok == !fault
      ensures ok ==> started == (old(started) || born || work != map[])
      ensures head == if ok && !born && work != map[] then work else old(head)
    {
      if fault {
        return false;
      }
      if !born && work != map[] {
        head := work;
      }
      started := started || born || work != map[];
      return true;
    }

    /** Commits the tree the next batch starts from and rolls back to. */
    method Baseline(fault: bool) returns (ok: bool)
      modifies this`head
      ensures ok == !fault
      ensures head == if ok then work else old(head)
    {
      if fault {
        return false;
      }
      head := work;
      return true;
    }

    method Rollback(fault: bool) returns (ok: bool)
      modifies this`work
      ensures ok == (started && !fault)
      ensures ok ==> work == head
      ensures !started ==> work == old(work)
    {
      if !started {
        return false;
      }
      if fault {
        work := *;
        return false;
      }
      work := head;
      return true;
    }

    /** Rolls back, then re-applies the kept fragments. `faults` are the two rollbacks and the closing diff. */
    method Restore(kept: seq<string>, faults: (bool, bool, bool)) returns (ok: bool)
      modifies this`work
      ensures ok ==> ApplyAll(apply, head, kept) == Some(work)
      ensures ok ==> started && !faults.0 && !faults.2
      ensures started && !faults.0 && !faults.1 ==>
                work == if ApplyAll(apply, head, kept).Some? then ApplyAll(apply, head, kept).value else head
      ensures started && !faults.0 && !faults.2 && ApplyAll(apply, head, kept).Some? ==> ok
      ensures started && !faults.0 && !faults.1 ==>
                (work == head <==> ApplyAll(apply, head, kept).None? || ApplyAll(apply, head, kept) == Some(head))
    {
      ok := Rollback(faults.0);
      if !ok {
        return;
      }
      for k := 0 to |kept|
        invariant ApplyAll(apply, head, kept[..k]) == Some(work)
      {
        var next := apply(work, kept[k]);
        assert kept[..k + 1][..k] == kept[..k];
        if next.None? {
          ApplyAllPrefix(apply, head, kept, k + 1);
          var _ := Rollback(faults.1);
          return false;
        }
        work := next.value;
      }
      assert kept[..|kept|] == kept;
      return !faults.2;
    }

    /** A failed restore need not leave the baseline: with the fragments applied, a fault of the closing diff
        reports an error over the changed tree. */
    method RestoreMisses(kept: seq<string>) returns (ok: bool)
      requires started && ApplyAll(apply, head, kept).Some? && ApplyAll(apply, head, kept) != Some(head)
      modifies this`work
      ensures !ok && work != head
    {
      ok := Restore(kept, (false, false, true));
    }
  }
}
