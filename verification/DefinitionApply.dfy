/** One apply from start to end, and what the tree goes through while it lasts. */
module DefinitionApply {
  import opened DefinitionPaths
  import opened DefinitionTree
  import opened CommitOrder
  import opened DefinitionWriter

  datatype ApplyResult =
    | Refused
    | Undone(error: CommitError)
    | Torn(error: CommitError, surviving: seq<Path>)
    | Written(reloaded: bool)

  /**
   * What an apply meets beside the faults of the disk itself: the originals that cannot be read, whether the tree can be
   * copied, the faults of the copy, whether the hook behind the staging passes, and whether the written tree is loaded again.
   */
  datatype Surroundings = Surroundings(unreadable: Path -> bool, copies: bool, staging: Faults, passes: bool, reloads: bool)

  /** Nothing stands against the plan before the commit. */
  ghost predicate Accepted(tree: Tree, ops: seq<WriteOp>, around: Surroundings, loads: Tree -> bool) {
    && (forall i :: 0 <= i < |ops| ==> Capturable(ops[i], tree, around.unreadable) && Writable(ops[i].path, around.staging))
    && around.copies && around.passes && loads(Applied(tree, InCommitOrder(ops)))
  }

  /** How a path fares when its turn comes: `was` it is captured from, `now` it is read again. */
  function Fate(faults: Faults, p: Path, was: Tree, now: Tree): CommitError {
    if faults.unreadable(p) then WriteFailed
    else if At(now, p) != At(was, p) then Changed
    else if faults.unwritable(p) then WriteFailed
    else Committed
  }

  function FateAt(faults: Faults, tree: Tree, ordered: seq<WriteOp>, edits: seq<Edit>, i: nat): CommitError
    requires i < |ordered| && i < |edits|
  {
    Fate(faults, ordered[i].path, tree, EditedBy(tree, edits[..i + 1]))
  }

  /** The first path that fares badly ends the commit, and what was written by then and cannot be put back survives. */
  ghost predicate EndsAt(result: ApplyResult, faults: Faults, tree: Tree, ordered: seq<WriteOp>, edits: seq<Edit>, done: nat)
    requires done <= |ordered| == |edits|
  {
    && (forall i :: 0 <= i < done ==> FateAt(faults, tree, ordered, edits, i) == Committed)
    && if done == |ordered| then result.Written?
       else
         var error := FateAt(faults, tree, ordered, edits, done);
         && error != Committed
         && if forall i :: 0 <= i < done ==> !faults.unrestorable(ordered[i].path) then result == Undone(error)
            else
              && result.Torn? && result.error == error
              && forall p :: p in result.surviving <==> exists i :: 0 <= i < done && ordered[i].path == p && faults.unrestorable(p)
  }

  lemma VerdictIsFate(faults: Faults, op: WriteOp, was: Tree, now: Tree)
    requires Inside(op.path) && Captured(op, was)
    ensures Verdict(faults, op, now) == Fate(faults, op.path, was, now)
  {
  }

  /** The commit with the captured originals ends as the fates of the planned paths say. */
  lemma EndsAsFated(result: ApplyResult, faults: Faults, tree: Tree, was: seq<WriteOp>, ordered: seq<WriteOp>, edits: seq<Edit>, done: nat,
                    error: CommitError, surviving: seq<Path>)
    requires SamePlan(was, ordered) && done <= |ordered| == |edits| && Reached(faults, tree, ordered, edits, done)
    requires forall i :: 0 <= i < |ordered| ==> Captured(ordered[i], tree) && Inside(ordered[i].path)
    requires error == if done == |ordered| then Committed else Verdict(faults, ordered[done], EditedBy(tree, edits[..done + 1]))
    requires error == Committed ==> done == |ordered|
    requires error != Committed ==> forall p :: p in surviving <==> Sticks(faults, ordered[..done], p)
    requires if error == Committed then result.Written?
             else if surviving == [] then result == Undone(error) else result == Torn(error, surviving)
    ensures EndsAt(result, faults, tree, was, edits, done)
  {
    hide Captured, EditedBy, Verdict, Fate, Sticks, Inside;
    forall i | 0 <= i < |ordered|
      ensures Verdict(faults, ordered[i], EditedBy(tree, edits[..i + 1])) == FateAt(faults, tree, was, edits, i)
    {
      assert was[i].path == ordered[i].path;
      VerdictIsFate(faults, ordered[i], tree, EditedBy(tree, edits[..i + 1]));
    }
    if error != Committed {
      forall p ensures Sticks(faults, ordered[..done], p) <==> exists i :: 0 <= i < done && was[i].path == p && faults.unrestorable(p) {
        SticksIff(faults, was, ordered, done, p);
      }
      if surviving == [] {
        forall i | 0 <= i < done ensures !faults.unrestorable(was[i].path) { assert was[i].path !in surviving; }
      } else {
        assert surviving[0] in surviving;
      }
    }
  }

  lemma SticksIff(faults: Faults, was: seq<WriteOp>, ordered: seq<WriteOp>, done: nat, p: Path)
    requires SamePlan(was, ordered) && done <= |ordered|
    ensures Sticks(faults, ordered[..done], p) <==> exists i :: 0 <= i < done && was[i].path == p && faults.unrestorable(p)
  {
    if Sticks(faults, ordered[..done], p) {
      var i :| 0 <= i < done && ordered[..done][i].path == p;
      assert was[i].path == p;
    }
    if i :| 0 <= i < done && was[i].path == p && faults.unrestorable(p) {
      assert ordered[..done][i].path == p;
    }
  }

  /** Nobody else edits the tree. */
  ghost predicate Undisturbed(edits: seq<Edit>) {
    forall i :: 0 <= i < |edits| ==> edits[i] == map[]
  }

  lemma {:induction false} UndisturbedTree(tree: Tree, edits: seq<Edit>, s: nat)
    requires Undisturbed(edits) && s <= |edits|
    ensures EditedBy(tree, edits[..s]) == tree
  {
    if s > 0 {
      UndisturbedTree(tree, edits, s - 1);
      assert edits[..s][..s - 1] == edits[..s - 1];
      SameTree(Edited(tree, edits[s - 1]), tree);
    }
  }

  /** Every tree a quiet apply walks through is closed, if the first and the candidate are. */
  lemma {:induction false} WalkIsClosed(refs: References, history: seq<Tree>, from: nat, tree: Tree, ordered: seq<WriteOp>,
                                        edits: seq<Edit>, done: nat, seen: nat)
    requires done <= |ordered| && seen <= |edits| && Undisturbed(edits)
    requires Walked(history, from, tree, ordered, edits, done, seen)
    requires Downward(refs) && Distinct(ordered) && Ordered(ordered)
    requires Closed(refs, tree) && Closed(refs, Applied(tree, ordered))
    ensures forall k :: from <= k < |history| ==> Closed(refs, history[k])
  {
    hide Applied, EditedBy, Closed, Downward, Distinct, Ordered;
    forall k | from <= k < |history| ensures Closed(refs, history[k]) {
      var n: nat, s: nat :| n <= done && s <= seen && history[k] == Midway(tree, ordered, edits, n, s);
      UndisturbedTree(tree, edits, s);
      PrefixIsClosed(refs, tree, ordered, n);
    }
  }

  /** The loader stands for a contract: it loads only trees whose references are closed. */
  ghost predicate Checks(loads: Tree -> bool, refs: References) {
    forall tree :: loads(tree) ==> Closed(refs, tree)
  }

  /**
   * Writer.apply. `edits[i]` is what others do before the i-th re-read of the commit.
   * The outcome is all or nothing beside those edits, unless restoring a file failed; and
   * whatever tree is on disk in between is one a prefix of the commit order makes.
   */
  method Apply(disk: Disk, plan: WritePlan, loads: Tree -> bool, edits: seq<Edit>, around: Surroundings, ghost refs: References)
    returns (result: ApplyResult, ghost done: nat, ghost seen: nat)
    requires Distinct(plan.ops) && |edits| == |InCommitOrder(plan.ops)| && Apart(InCommitOrder(plan.ops), edits)
    modifies disk, plan
    ensures done <= |edits| && seen <= |edits|
    ensures result.Refused? <==> !Accepted(old(disk.files), old(plan.ops), around, loads)
    ensures !result.Refused? ==> EndsAt(result, disk.faults, old(disk.files), InCommitOrder(old(plan.ops)), edits, done)
    ensures result.Written? ==> result.reloaded == around.reloads
    ensures result.Refused? ==> disk.files == old(disk.files)
    ensures result.Undone? ==> disk.files == EditedBy(old(disk.files), edits[..seen])
    ensures result.Written? ==>
      && loads(Applied(old(disk.files), InCommitOrder(old(plan.ops))))
      && disk.files == Applied(EditedBy(old(disk.files), edits), InCommitOrder(old(plan.ops)))
    ensures result.Written? ==> forall i :: 0 <= i < |edits| ==>
      var p := InCommitOrder(old(plan.ops))[i].path;
      At(EditedBy(old(disk.files), edits[..i + 1]), p) == At(old(disk.files), p)
    ensures result.Torn? ==> forall p :: p !in result.surviving ==>
      At(disk.files, p) == At(EditedBy(old(disk.files), edits[..seen]), p)
    ensures result.Torn? && Closed(refs, EditedBy(old(disk.files), edits[..seen])) ==>
      (Closed(refs, disk.files) <==>
       Served(refs, EditedBy(old(disk.files), edits[..seen]), InCommitOrder(old(plan.ops)), result.surviving))
    ensures result.Torn? ==> result.surviving != [] && forall p :: p in result.surviving ==> Plans(old(plan.ops), p)
    ensures Undisturbed(edits) && !result.Torn? && Downward(refs) && Checks(loads, refs) && Closed(refs, old(disk.files)) ==>
      forall k :: old(|disk.history|) <= k < |disk.history| ==> Closed(refs, disk.history[k])
  {
    hide Applied, EditedBy, Captured, Closed, Downward, Distinct, Ordered, Apart, InCommitOrder, Checks, Undisturbed, Walked,
      Served, Verdict, Sticks;
    done, seen := 0, 0;
    ghost var was, tree, from := plan.ops, disk.files, |disk.history|;
    var ok := plan.CaptureOriginals(disk, around.unreadable);
    if !ok || !around.copies { return Refused, done, seen; }
    OrderSamePlan(was, plan.ops);
    var ordered := InCommitOrder(plan.ops);
    AppliedSamePlan(tree, InCommitOrder(was), ordered);
    AppliedSamePlan(EditedBy(tree, edits), InCommitOrder(was), ordered);
    ApartSamePlan(InCommitOrder(was), ordered, edits);
    SamePlanDistinct(was, plan.ops);
    CommitOrderSorts(plan.ops);
    OrderCaptured(plan.ops, tree);
    var staging := new Disk(disk.files, around.staging);
    ok := plan.ApplyTo(staging);
    WritableInOrder(was, plan.ops, around.staging);
    if !ok || !around.passes || !loads(staging.files) { return Refused, done, seen; }
    var error, surviving, committed;
    error, surviving, committed, seen := CommitOrUndo(disk, ordered, edits);
    done := committed;
    if surviving == [] { QuietWalk(refs, loads, disk.history, from, tree, ordered, edits, done, seen); }
    if error == Committed {
      WrittenOverSame(tree, ordered, edits);
      assert edits[..|edits|] == edits && ordered[..|ordered|] == ordered;
      assert forall i :: 0 <= i < |edits| ==> InCommitOrder(was)[i].path == ordered[i].path;
      result := Written(around.reloads);
    } else if surviving == [] {
      result := Undone(error);
    } else {
      PlannedBefore(was, plan.ops, ordered, done, disk.faults, surviving);
      TornIsClosedIff(refs, EditedBy(tree, edits[..seen]), ordered, done, surviving, disk.files);
      ServedSamePlan(refs, EditedBy(tree, edits[..seen]), InCommitOrder(was), ordered, surviving);
      result := Torn(error, surviving);
    }
    EndsAsFated(result, disk.faults, tree, InCommitOrder(was), ordered, edits, done, error, surviving);
  }

  lemma WritableInOrder(was: seq<WriteOp>, ops: seq<WriteOp>, faults: Faults)
    requires SamePlan(was, ops) && Distinct(ops)
    ensures (forall i :: 0 <= i < |InCommitOrder(ops)| ==> Writable(InCommitOrder(ops)[i].path, faults)) <==>
            forall i :: 0 <= i < |was| ==> Writable(was[i].path, faults)
  {
    hide InCommitOrder, Writable;
    var ordered := InCommitOrder(ops);
    CommitOrderSorts(ops);
    if forall i :: 0 <= i < |ordered| ==> Writable(ordered[i].path, faults) {
      forall i | 0 <= i < |was| ensures Writable(was[i].path, faults) {
        assert ops[i].path == was[i].path && Plans(ops, ops[i].path);
        var k :| 0 <= k < |ordered| && ordered[k].path == ops[i].path;
      }
    }
    if forall i :: 0 <= i < |was| ==> Writable(was[i].path, faults) {
      forall k | 0 <= k < |ordered| ensures Writable(ordered[k].path, faults) {
        assert Plans(ordered, ordered[k].path);
        var i :| 0 <= i < |ops| && ops[i].path == ordered[k].path;
        assert was[i].path == ordered[k].path;
      }
    }
  }

  lemma SamePlanDistinct(a: seq<WriteOp>, b: seq<WriteOp>)
    requires SamePlan(a, b) && Distinct(a)
    ensures Distinct(b)
  {
    forall i, j | 0 <= i < j < |b| ensures b[i].path != b[j].path { assert a[i].path != a[j].path; }
  }

  lemma {:induction false} OfRankMembers(ops: seq<WriteOp>, rank: nat)
    ensures forall op :: op in OfRank(ops, rank) ==> op in ops
    decreases ops
  {
    if ops != [] { OfRankMembers(ops[1..], rank); }
  }

  lemma OrderCaptured(ops: seq<WriteOp>, tree: Tree)
    requires forall i :: 0 <= i < |ops| ==> Captured(ops[i], tree)
    ensures forall i :: 0 <= i < |InCommitOrder(ops)| ==> Captured(InCommitOrder(ops)[i], tree)
  {
    hide Captured, OfRank;
    OfRankMembers(ops, 0); OfRankMembers(ops, 1); OfRankMembers(ops, 2); OfRankMembers(ops, 3);
    forall i | 0 <= i < |InCommitOrder(ops)| ensures Captured(InCommitOrder(ops)[i], tree) {
      assert InCommitOrder(ops)[i] in ops;
    }
  }

  lemma WrittenOverSame(tree: Tree, ordered: seq<WriteOp>, edits: seq<Edit>)
    requires |edits| == |ordered|
    requires forall i :: 0 <= i < |ordered| ==> Captured(ordered[i], tree) && Captured(ordered[i], EditedBy(tree, edits[..i + 1]))
    ensures forall i :: 0 <= i < |edits| ==> At(EditedBy(tree, edits[..i + 1]), ordered[i].path) == At(tree, ordered[i].path)
  {
    hide EditedBy;
  }

  lemma QuietWalk(refs: References, loads: Tree -> bool, history: seq<Tree>, from: nat, tree: Tree, ordered: seq<WriteOp>,
                  edits: seq<Edit>, done: nat, seen: nat)
    requires done <= |ordered| && seen <= |edits| && Walked(history, from, tree, ordered, edits, done, seen)
    requires Distinct(ordered) && Ordered(ordered) && loads(Applied(tree, ordered))
    ensures Undisturbed(edits) && Downward(refs) && Checks(loads, refs) && Closed(refs, tree) ==>
      forall k :: from <= k < |history| ==> Closed(refs, history[k])
  {
    hide Applied, Closed, Downward, Distinct, Ordered, Undisturbed, Walked;
    if Undisturbed(edits) && Downward(refs) && Checks(loads, refs) && Closed(refs, tree) {
      WalkIsClosed(refs, history, from, tree, ordered, edits, done, seen);
    }
  }

  lemma PlannedBefore(was: seq<WriteOp>, ops: seq<WriteOp>, ordered: seq<WriteOp>, done: nat, faults: Faults, surviving: seq<Path>)
    requires SamePlan(was, ops) && Distinct(ops) && ordered == InCommitOrder(ops) && done <= |ordered|
    requires forall p :: p in surviving <==> Sticks(faults, ordered[..done], p)
    ensures forall p :: p in surviving ==> Plans(was, p) && Plans(ordered[..done], p)
  {
    hide InCommitOrder, Distinct;
    CommitOrderSorts(ops);
    forall p | p in surviving ensures Plans(was, p) && Plans(ordered[..done], p) {
      var i :| 0 <= i < done && ordered[..done][i].path == p;
      assert ordered[i].path == p;
      PlansSamePlan(was, ops, p);
    }
  }

  // Where the promise ends.

  /** Every reference of a file that could not be restored leads to an old file or to another such one. */
  ghost predicate Served(refs: References, base: Tree, ops: seq<WriteOp>, surviving: seq<Path>) {
    forall i, r :: 0 <= i < |ops| && ops[i].path in surviving && r in refs(ops[i].path, ops[i].data) ==> r in base || r in surviving
  }

  /** A tree left by a rollback that could not restore everything is closed exactly when its survivors are served. */
  lemma {:induction false} TornIsClosedIff(refs: References, base: Tree, ordered: seq<WriteOp>, done: nat, surviving: seq<Path>, torn: Tree)
    requires Distinct(ordered) && done <= |ordered| && forall p :: p in surviving ==> Plans(ordered[..done], p)
    requires forall p :: At(torn, p) == At(if p in surviving then Applied(base, ordered[..done]) else base, p)
    ensures Closed(refs, base) ==> (Closed(refs, torn) <==> Served(refs, base, ordered, surviving))
  {
    var ops := ordered[..done];
    forall p | p in surviving ensures exists i :: 0 <= i < done && ordered[i].path == p && At(torn, p) == Present(ordered[i].data) {
      var i :| 0 <= i < |ops| && ops[i].path == p;
      AppliedPlanned(base, ops, i);
      assert ordered[i] == ops[i];
    }
    forall r ensures r in torn <==> r in base || r in surviving { assert At(torn, r) != Absent <==> r in torn; }
    TornBothWays(refs, base, ordered, surviving, torn);
  }

  lemma {:induction false} TornBothWays(refs: References, base: Tree, ordered: seq<WriteOp>, surviving: seq<Path>, torn: Tree)
    requires Distinct(ordered)
    requires forall p :: p in surviving ==> exists i :: 0 <= i < |ordered| && ordered[i].path == p && At(torn, p) == Present(ordered[i].data)
    requires forall p :: p !in surviving ==> At(torn, p) == At(base, p)
    requires forall r :: r in torn <==> r in base || r in surviving
    ensures Closed(refs, base) ==> (Closed(refs, torn) <==> Served(refs, base, ordered, surviving))
  {
    if Closed(refs, base) && Served(refs, base, ordered, surviving) {
      forall p, r | p in torn && r in refs(p, torn[p]) ensures r in torn {
        if p in surviving {
          var i :| 0 <= i < |ordered| && ordered[i].path == p && At(torn, p) == Present(ordered[i].data);
        } else {
          assert At(torn, p) == At(base, p);
        }
      }
    }
    if Closed(refs, torn) {
      forall i, r | 0 <= i < |ordered| && ordered[i].path in surviving && r in refs(ordered[i].path, ordered[i].data)
        ensures r in base || r in surviving
      {
        var p := ordered[i].path;
        var k :| 0 <= k < |ordered| && ordered[k].path == p && At(torn, p) == Present(ordered[k].data);
        assert k == i;
      }
    }
  }

  lemma ServedSamePlan(refs: References, base: Tree, a: seq<WriteOp>, b: seq<WriteOp>, surviving: seq<Path>)
    requires SamePlan(a, b)
    ensures Served(refs, base, a, surviving) <==> Served(refs, base, b, surviving)
  {
    forall i | 0 <= i < |a| ensures a[i].path == b[i].path && a[i].data == b[i].data {}
  }

  const AGENT: Path := ["agents", "a"]
  const TEAM: Path := ["teams", "t"]
  const FLOW: Path := ["flows", "f"]

  /** A team that calls an agent, and a flow that binds the team. */
  function BoundBy(p: Path, data: Bytes): set<Path> {
    if p == TEAM && data == "calls a" then {AGENT} else if p == FLOW && data == "uses t" then {TEAM} else {}
  }

  const UNBOUND: Tree := map[FLOW := "none"]

  const BINDING: seq<WriteOp> := [
    WriteOp(AGENT, "agent", Create, "", false),
    WriteOp(TEAM, "calls a", Create, "", false),
    WriteOp(FLOW, "uses t", Replace, "none", true)]

  /** The flow cannot be written, and the team cannot be removed again. */
  const JAMMED: Faults := Faults(p => false, p => p == FLOW, p => p == TEAM)

  lemma BindingIsSound()
    ensures Downward(BoundBy) && Distinct(BINDING) && Ordered(BINDING)
    ensures Closed(BoundBy, UNBOUND) && Closed(BoundBy, Applied(UNBOUND, BINDING))
    ensures Applied(UNBOUND, BINDING[..2]) == map[FLOW := "none", AGENT := "agent", TEAM := "calls a"]
  {
    assert BINDING[..0] == [] && BINDING[..3] == BINDING;
    AppliedNext(UNBOUND, BINDING, 0);
    AppliedNext(UNBOUND, BINDING, 1);
    AppliedNext(UNBOUND, BINDING, 2);
    assert Applied(UNBOUND, BINDING) == map[FLOW := "uses t", AGENT := "agent", TEAM := "calls a"];
  }

  lemma BindingStops(edits: seq<Edit>, done: nat)
    requires edits == [map[], map[], map[]] && done <= 3 && Reached(JAMMED, UNBOUND, BINDING, edits, done)
    requires done < 3 ==> Verdict(JAMMED, BINDING[done], EditedBy(UNBOUND, edits[..done + 1])) != Committed
    ensures done == 2
  {
    hide EditedBy;
    assert Undisturbed(edits);
    UndisturbedTree(UNBOUND, edits, 1);
    UndisturbedTree(UNBOUND, edits, 2);
    UndisturbedTree(UNBOUND, edits, 3);
    assert Verdict(JAMMED, BINDING[0], UNBOUND) == Committed;
    assert Verdict(JAMMED, BINDING[1], UNBOUND) == Committed;
    assert Verdict(JAMMED, BINDING[2], UNBOUND) == WriteFailed;
  }

  lemma OnlyTheTeamSticks(p: Path)
    ensures Sticks(JAMMED, BINDING[..2], p) <==> p == TEAM
  {
    var ops := BINDING[..2];
    assert ops[0] == BINDING[0] && ops[1] == BINDING[1];
  }

  /**
   * A restore that fails part-way can leave a dangling reference: the flow cannot be written, the team stays
   * although the agent it calls is removed again. The promise needs the survivors to be served.
   */
  method TornTreeCanDangle() returns (disk: Disk, error: CommitError, surviving: seq<Path>)
    ensures Downward(BoundBy) && Distinct(BINDING) && Ordered(BINDING)
    ensures Closed(BoundBy, UNBOUND) && Closed(BoundBy, Applied(UNBOUND, BINDING))
    ensures error == WriteFailed && forall p :: p in surviving <==> p == TEAM
    ensures At(disk.files, TEAM) == Present("calls a") && At(disk.files, AGENT) == Absent
    ensures !Closed(BoundBy, disk.files)
  {
    hide Closed, Downward, Distinct, Ordered, Applied, Walked, Sticks, Verdict, Reached;
    BindingIsSound();
    disk := new Disk(UNBOUND, JAMMED);
    var edits: seq<Edit> := [map[], map[], map[]];
    NoEditsAreApart(edits);
    var done;
    ghost var seen;
    error, surviving, done, seen := CommitOrUndo(disk, BINDING, edits);
    BindingStops(edits, done);
    BindingFails(edits);
    QuietMidway(edits, seen);
    forall p ensures p in surviving <==> p == TEAM { OnlyTheTeamSticks(p); }
    ghost var now := disk.files;
    assert At(now, TEAM) == Present("calls a");
    TeamDangles(now);
  }

  lemma NoEditsAreApart(edits: seq<Edit>)
    requires edits == [map[], map[], map[]]
    ensures Apart(BINDING, edits)
  {
  }

  lemma BindingFails(edits: seq<Edit>)
    requires edits == [map[], map[], map[]]
    ensures Verdict(JAMMED, BINDING[2], EditedBy(UNBOUND, edits[..3])) == WriteFailed
  {
    hide EditedBy;
    assert Undisturbed(edits);
    UndisturbedTree(UNBOUND, edits, 3);
  }

  lemma QuietMidway(edits: seq<Edit>, seen: nat)
    requires edits == [map[], map[], map[]] && seen <= 3
    ensures EditedBy(UNBOUND, edits[..seen]) == UNBOUND && Midway(UNBOUND, BINDING, edits, 2, seen) == Applied(UNBOUND, BINDING[..2])
  {
    hide EditedBy, Applied;
    assert Undisturbed(edits);
    UndisturbedTree(UNBOUND, edits, seen);
  }

  lemma TeamDangles(tree: Tree)
    requires At(tree, TEAM) == Present("calls a") && At(tree, AGENT) == Absent
    ensures !Closed(BoundBy, tree)
  {
    assert TEAM in tree && AGENT in BoundBy(TEAM, tree[TEAM]);
  }

  /** One operation per path is essential: with two, undoing both does not bring the file back. */
  lemma TwiceOnOnePathIsNotUndone(tree: Tree, p: Path, first: Bytes, second: Bytes)
    requires p !in tree
    ensures var a := WriteOp(p, first, Create, "", false);
            var b := WriteOp(p, second, Replace, first, true);
            !Captured(b, tree) && Restored(Applied(tree, [a, b]), b) != tree
  {
    var a, b := WriteOp(p, first, Create, "", false), WriteOp(p, second, Replace, first, true);
    assert p in Restored(Applied(tree, [a, b]), b);
  }
}
