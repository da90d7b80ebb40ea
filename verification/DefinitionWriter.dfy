/** Applying a write plan to a definition tree: capture, stage, validate, commit, and roll back. */
module DefinitionWriter {
  import opened DefinitionPaths
  import opened DefinitionTree
  import opened CommitOrder

  /**
   * What goes wrong in one apply, which re-reads, writes and restores a path at most once each: the paths whose re-read fails,
   * those whose write fails, and those that cannot be put back.
   */
  datatype Faults = Faults(unreadable: Path -> bool, unwritable: Path -> bool, unrestorable: Path -> bool)
  {
    predicate Refuses(p: Path, undo: bool) {
      if undo then unrestorable(p) else unwritable(p)
    }
  }

  /** A directory tree whose file operations may fail without effect. `history` lists the trees our own writes made. */
  class Disk {
    const faults: Faults
    var files: Tree
    ghost var history: seq<Tree>

    constructor (files: Tree, faults: Faults)
      ensures this.files == files && this.faults == faults && history == []
    {
      this.files, this.faults := files, faults;
      history := [];
    }

    /** writeFileAtomic: the whole file or nothing. */
    method Write(p: Path, data: Bytes, undo: bool) returns (ok: bool)
      modifies this
      ensures ok <==> !faults.Refuses(p, undo)
      ensures ok ==> files == old(files)[p := data] && history == old(history) + [files]
      ensures !ok ==> files == old(files) && history == old(history)
    {
      ok := !faults.Refuses(p, undo);
      if ok {
        files := files[p := data];
        history := history + [files];
      }
    }

    /** Removing what is not there is no failure. */
    method Remove(p: Path) returns (ok: bool)
      modifies this
      ensures ok <==> !faults.Refuses(p, true)
      ensures ok ==> files == old(files) - {p} && history == old(history) + [files]
      ensures !ok ==> files == old(files) && history == old(history)
    {
      ok := !faults.Refuses(p, true);
      if ok {
        files := files - {p};
        history := history + [files];
      }
    }

    /** Somebody else changes the tree. */
    method Outside(edit: Edit)
      modifies this
      ensures files == Edited(old(files), edit) && history == old(history)
    {
      files := Edited(files, edit);
    }
  }

  // The plan.

  class WritePlan {
    var ops: seq<WriteOp>

    constructor ()
      ensures ops == []
    {
      ops := [];
    }

    /** A second operation on one path is refused, however the path is spelled. */
    method Add(op: WriteOp) returns (ok: bool)
      requires Distinct(ops)
      modifies this
      ensures ok <==> !Plans(old(ops), Clean(op.path))
      ensures ops == old(ops) + if ok then [op.(path := Clean(op.path))] else []
      ensures Distinct(ops)
    {
      var clean := Clean(op.path);
      for i := 0 to |ops|
        invariant ops == old(ops) && forall k :: 0 <= k < i ==> ops[k].path != clean
      {
        if ops[i].path == clean { return false; }
      }
      ops := ops + [op.(path := clean)];
      ok := true;
    }

    /** captureOriginals: the bytes a rollback restores and a commit compares against. */
    method CaptureOriginals(disk: Disk, unreadable: Path -> bool) returns (ok: bool)
      requires Distinct(ops)
      modifies this
      ensures SamePlan(old(ops), ops)
      ensures ok <==> forall i :: 0 <= i < |old(ops)| ==> Capturable(old(ops)[i], disk.files, unreadable)
      ensures ok ==> forall i :: 0 <= i < |ops| ==>
        Captured(ops[i], disk.files) && Inside(ops[i].path) && (ops[i].mode == Replace ==> ops[i].existed)
    {
      for i := 0 to |ops|
        invariant SamePlan(old(ops), ops)
        invariant forall k :: 0 <= k < i ==> Capturable(old(ops)[k], disk.files, unreadable)
        invariant forall k :: 0 <= k < i ==>
          Captured(ops[k], disk.files) && Inside(ops[k].path) && (ops[k].mode == Replace ==> ops[k].existed)
      {
        var op := ops[i];
        assert op.path == old(ops)[i].path && op.mode == old(ops)[i].mode;
        if !Inside(op.path) || unreadable(op.path) { return false; }
        var existed := op.path in disk.files;
        ops := ops[i := op.(existed := existed, original := if existed then disk.files[op.path] else "")];
        if op.mode == Replace && !existed { return false; }
      }
      ok := true;
    }

    /** applyTo: the staging copy is private, so nothing is compared. */
    method ApplyTo(staging: Disk) returns (ok: bool)
      requires Distinct(ops)
      modifies staging
      ensures ok <==> forall i :: 0 <= i < |InCommitOrder(ops)| ==> Writable(InCommitOrder(ops)[i].path, staging.faults)
      ensures ok ==> staging.files == Applied(old(staging.files), InCommitOrder(ops))
    {
      hide InCommitOrder, Inside, Distinct;
      var ordered := InCommitOrder(ops);
      assert ordered[..0] == [];
      for i := 0 to |ordered|
        invariant staging.files == Applied(old(staging.files), ordered[..i])
        invariant forall k :: 0 <= k < i ==> Writable(ordered[k].path, staging.faults)
      {
        if !Inside(ordered[i].path) { return false; }
        ok := staging.Write(ordered[i].path, ordered[i].data, false);
        if !ok { return; }
        AppliedNext(old(staging.files), ordered, i);
      }
      assert ordered[..|ordered|] == ordered;
      ok := true;
    }
  }

  predicate Captured(op: WriteOp, tree: Tree) {
    At(tree, op.path) == if op.existed then Present(op.original) else Absent
  }

  /** The file can be read before the commit, and is there if it is to be replaced. */
  predicate Capturable(op: WriteOp, tree: Tree, unreadable: Path -> bool) {
    Inside(op.path) && !unreadable(op.path) && (op.mode == Replace ==> op.path in tree)
  }

  predicate Writable(p: Path, faults: Faults) {
    Inside(p) && !faults.unwritable(p)
  }

  predicate SamePlan(a: seq<WriteOp>, b: seq<WriteOp>) {
    |a| == |b| && forall i :: 0 <= i < |a| ==> a[i].path == b[i].path && a[i].data == b[i].data && a[i].mode == b[i].mode
  }

  // Commit.

  datatype CommitError = Committed | Changed | WriteFailed

  /** What becomes of an operation whose file is re-read in `tree`. */
  function Verdict(faults: Faults, op: WriteOp, tree: Tree): CommitError {
    if !Inside(op.path) || faults.unreadable(op.path) then WriteFailed
    else if !Captured(op, tree) then Changed
    else if faults.unwritable(op.path) then WriteFailed
    else Committed
  }

  /** No edit touches a path that the commit has already written when the edit is made. */
  ghost predicate Apart(ordered: seq<WriteOp>, edits: seq<Edit>) {
    forall i, j :: 0 <= j < i < |edits| && j < |ordered| ==> ordered[j].path !in edits[i]
  }

  /** The tree at the point where `done` operations are committed and `seen` edits were made. */
  function Midway(tree: Tree, ordered: seq<WriteOp>, edits: seq<Edit>, done: nat, seen: nat): Tree
    requires done <= |ordered| && seen <= |edits|
  {
    Applied(EditedBy(tree, edits[..seen]), ordered[..done])
  }

  lemma {:induction false} EditMidway(tree: Tree, ordered: seq<WriteOp>, edits: seq<Edit>, i: nat)
    requires i < |ordered| == |edits| && Apart(ordered, edits)
    ensures Edited(Midway(tree, ordered, edits, i, i), edits[i]) == Midway(tree, ordered, edits, i, i + 1)
  {
    assert edits[..i + 1][..i] == edits[..i];
    forall j | 0 <= j < i ensures ordered[..i][j].path !in edits[i] { assert ordered[..i][j] == ordered[j]; }
    EditsCommute(EditedBy(tree, edits[..i]), ordered[..i], edits[i]);
  }

  /** The compare-and-swap of one operation sees the outside edits on its path, and nothing else. */
  lemma {:induction false} RereadSeesEdits(tree: Tree, ordered: seq<WriteOp>, edits: seq<Edit>, i: nat)
    requires i < |ordered| == |edits| && Distinct(ordered)
    ensures At(Midway(tree, ordered, edits, i, i + 1), ordered[i].path) == At(EditedBy(tree, edits[..i + 1]), ordered[i].path)
  {
    forall j | 0 <= j < i ensures ordered[..i][j].path != ordered[i].path { assert ordered[..i][j] == ordered[j]; }
    AppliedElsewhere(EditedBy(tree, edits[..i + 1]), ordered[..i], ordered[i].path);
  }

  /** The first `done` operations each passed their turn. */
  ghost predicate Reached(faults: Faults, tree: Tree, ordered: seq<WriteOp>, edits: seq<Edit>, done: nat)
    requires done <= |ordered| && done <= |edits|
  {
    forall i :: 0 <= i < done ==> Verdict(faults, ordered[i], EditedBy(tree, edits[..i + 1])) == Committed
  }

  /** Each write of a commit made the tree in which just the operations so far are in place. */
  ghost predicate CommitHistory(history: seq<Tree>, from: nat, tree: Tree, ordered: seq<WriteOp>, edits: seq<Edit>, done: nat)
    requires done <= |ordered| && done <= |edits|
  {
    |history| == from + done
    && forall k :: from <= k < from + done ==> history[k] == Midway(tree, ordered, edits, k - from + 1, k - from + 1)
  }

  /**
   * commitPlan. `edits[i]` is what others do to the tree before operation i is re-read.
   * It goes on exactly as long as no edit has touched the path in hand.
   */
  method CommitPlan(disk: Disk, ordered: seq<WriteOp>, edits: seq<Edit>) returns (error: CommitError, committed: nat, ghost seen: nat)
    requires Distinct(ordered) && |edits| == |ordered| && Apart(ordered, edits)
    modifies disk
    ensures committed <= |ordered| && seen == (if error == Committed then committed else committed + 1) <= |edits|
    ensures disk.files == Midway(old(disk.files), ordered, edits, committed, seen)
    ensures Reached(disk.faults, old(disk.files), ordered, edits, committed)
    ensures error ==
      if committed == |ordered| then Committed
      else Verdict(disk.faults, ordered[committed], EditedBy(old(disk.files), edits[..committed + 1]))
    ensures error == Committed ==> committed == |ordered|
    ensures old(disk.history) <= disk.history
    ensures CommitHistory(disk.history, old(|disk.history|), old(disk.files), ordered, edits, committed)
  {
    hide Applied, EditedBy, Edited, Verdict, CommitHistory, Midway;
    committed, seen := 0, 0;
    ghost var tree, from := disk.files, |disk.history|;
    NothingCommitted(disk.history, tree, ordered, edits);
    while committed < |ordered|
      invariant committed == seen <= |ordered|
      invariant disk.files == Midway(tree, ordered, edits, committed, seen)
      invariant Reached(disk.faults, tree, ordered, edits, committed)
      invariant old(disk.history) <= disk.history
      invariant CommitHistory(disk.history, from, tree, ordered, edits, committed)
      decreases |ordered| - committed
    {
      ghost var before := disk.history;
      EditMidway(tree, ordered, edits, committed);
      RereadSeesEdits(tree, ordered, edits, committed);
      VerdictByPath(disk.faults, ordered[committed], Midway(tree, ordered, edits, committed, committed + 1), EditedBy(tree, edits[..committed + 1]));
      WriteMidway(tree, ordered, edits, committed);
      seen := seen + 1;
      error := CommitOne(disk, ordered[committed], edits[committed]);
      if error != Committed { return; }
      CommitHistoryNext(before, from, tree, ordered, edits, committed);
      committed := committed + 1;
    }
    error := Committed;
  }

  /** One turn of the commit loop: others edit, the file is re-read and compared, and then written. */
  method CommitOne(disk: Disk, op: WriteOp, edit: Edit) returns (error: CommitError)
    modifies disk
    ensures error == Verdict(disk.faults, op, Edited(old(disk.files), edit))
    ensures error == Committed ==>
      disk.files == Edited(old(disk.files), edit)[op.path := op.data] && disk.history == old(disk.history) + [disk.files]
    ensures error != Committed ==> disk.files == Edited(old(disk.files), edit) && disk.history == old(disk.history)
  {
    disk.Outside(edit);
    if !Inside(op.path) || disk.faults.unreadable(op.path) { return WriteFailed; }
    if !Captured(op, disk.files) { return Changed; }
    var ok := disk.Write(op.path, op.data, false);
    error := if ok then Committed else WriteFailed;
  }

  lemma NothingCommitted(history: seq<Tree>, tree: Tree, ordered: seq<WriteOp>, edits: seq<Edit>)
    ensures Midway(tree, ordered, edits, 0, 0) == tree && CommitHistory(history, |history|, tree, ordered, edits, 0)
  {
  }

  lemma VerdictByPath(faults: Faults, op: WriteOp, a: Tree, b: Tree)
    requires At(a, op.path) == At(b, op.path)
    ensures Verdict(faults, op, a) == Verdict(faults, op, b)
  {
  }

  lemma WriteMidway(tree: Tree, ordered: seq<WriteOp>, edits: seq<Edit>, i: nat)
    requires i < |ordered| == |edits|
    ensures Midway(tree, ordered, edits, i, i + 1)[ordered[i].path := ordered[i].data] == Midway(tree, ordered, edits, i + 1, i + 1)
  {
    AppliedNext(EditedBy(tree, edits[..i + 1]), ordered, i);
  }

  lemma CommitHistoryNext(history: seq<Tree>, from: nat, tree: Tree, ordered: seq<WriteOp>, edits: seq<Edit>, i: nat)
    requires i < |ordered| == |edits| && CommitHistory(history, from, tree, ordered, edits, i)
    ensures CommitHistory(history + [Midway(tree, ordered, edits, i + 1, i + 1)], from, tree, ordered, edits, i + 1)
  {
    hide Midway;
  }

  // Rollback.

  /** The path's original cannot be put back. */
  predicate Sticks(faults: Faults, ops: seq<WriteOp>, p: Path) {
    Plans(ops, p) && faults.unrestorable(p)
  }

  function Restored(tree: Tree, op: WriteOp): Tree {
    if op.existed then tree[op.path := op.original] else tree - {op.path}
  }

  /** Restoring the newest write undoes it exactly. */
  lemma {:induction false} RestoreUndoesLast(base: Tree, ops: seq<WriteOp>, i: nat)
    requires i < |ops| && Distinct(ops) && Captured(ops[i], base)
    ensures Restored(Applied(base, ops[..i + 1]), ops[i]) == Applied(base, ops[..i])
  {
    var op, done := ops[i], ops[..i];
    AppliedNext(base, ops, i);
    forall j | 0 <= j < i ensures done[j].path != op.path { assert done[j] == ops[j]; }
    AppliedElsewhere(base, done, op.path);
    var restored, before := Restored(Applied(base, ops[..i + 1]), op), Applied(base, done);
    forall p ensures At(restored, p) == At(before, p) {
      if p == op.path { assert At(before, p) == At(base, p); }
    }
    SameTree(restored, before);
  }

  /** While nothing resists, a rollback walks back through the very trees the commit made. */
  ghost predicate RollbackHistory(history: seq<Tree>, from: nat, base: Tree, ops: seq<WriteOp>, left: nat)
    requires left <= |ops|
  {
    |history| == from + |ops| - left
    && forall k :: from <= k < |history| ==> history[k] == Applied(base, ops[..|ops| - 1 - (k - from)])
  }

  /** rollback: newest first; what cannot be restored is reported and the rest goes on. */
  method Rollback(disk: Disk, ops: seq<WriteOp>, ghost base: Tree) returns (surviving: seq<Path>)
    requires Distinct(ops) && disk.files == Applied(base, ops)
    requires forall i :: 0 <= i < |ops| ==> Captured(ops[i], base) && Inside(ops[i].path)
    modifies disk
    ensures forall p :: At(disk.files, p) == if p in surviving then At(old(disk.files), p) else At(base, p)
    ensures forall p :: p in surviving <==> Sticks(disk.faults, ops, p)
    ensures old(disk.history) <= disk.history
    ensures surviving == [] ==> disk.files == base && RollbackHistory(disk.history, old(|disk.history|), base, ops, 0)
  {
    hide Applied, RollbackHistory, RestoredSoFar, Captured, Restored, Distinct, Sticks;
    surviving := [];
    assert ops[..|ops|] == ops;
    ghost var full, from := disk.files, |disk.history|;
    NothingRestored(disk.faults, disk.history, full, base, ops);
    for i := |ops| downto 0
      invariant RestoredSoFar(disk.faults, full, base, ops, i, surviving, disk.files)
      invariant old(disk.history) <= disk.history
      invariant surviving == [] ==>
        disk.files == Applied(base, ops[..i]) && RollbackHistory(disk.history, from, base, ops, i)
    {
      ghost var before := disk.history;
      RestoreUndoesLast(base, ops, i);
      RestoredNext(disk.faults, full, base, ops, i, surviving, disk.files);
      var ok := RestoreOne(disk, ops[i]);
      if !ok {
        surviving := surviving + [ops[i].path];
      } else if surviving == [] {
        RollbackHistoryNext(before, from, base, ops, i);
      }
    }
    RestoredAll(disk.faults, base, ops, surviving, disk.files);
  }

  method RestoreOne(disk: Disk, op: WriteOp) returns (ok: bool)
    modifies disk
    ensures ok <==> !disk.faults.unrestorable(op.path)
    ensures ok ==> disk.files == Restored(old(disk.files), op) && disk.history == old(disk.history) + [disk.files]
    ensures !ok ==> disk.files == old(disk.files) && disk.history == old(disk.history)
  {
    if op.existed { ok := disk.Write(op.path, op.original, true); } else { ok := disk.Remove(op.path); }
  }

  /** The operations from `i` on are restored, but for the surviving ones. */
  ghost predicate RestoredSoFar(faults: Faults, full: Tree, base: Tree, ops: seq<WriteOp>, i: nat, surviving: seq<Path>, now: Tree)
    requires i <= |ops|
  {
    && (forall p :: p in surviving <==> Sticks(faults, ops[i..], p))
    && (forall p :: At(now, p) == if Plans(ops[i..], p) && p !in surviving then At(base, p) else At(full, p))
  }

  lemma NothingRestored(faults: Faults, history: seq<Tree>, full: Tree, base: Tree, ops: seq<WriteOp>)
    ensures RestoredSoFar(faults, full, base, ops, |ops|, [], full) && RollbackHistory(history, |history|, base, ops, |ops|)
  {
  }

  lemma PlansCons(ops: seq<WriteOp>, i: nat, p: Path)
    requires i < |ops|
    ensures Plans(ops[i..], p) <==> ops[i].path == p || Plans(ops[i + 1..], p)
  {
    assert ops[i..] == [ops[i]] + ops[i + 1..];
    PlansConcat([ops[i]], ops[i + 1..], p);
    assert [ops[i]][0] == ops[i];
  }

  lemma RestoredNext(faults: Faults, full: Tree, base: Tree, ops: seq<WriteOp>, i: nat, surviving: seq<Path>, now: Tree)
    requires i < |ops| && Distinct(ops) && Captured(ops[i], base) && RestoredSoFar(faults, full, base, ops, i + 1, surviving, now)
    ensures if faults.unrestorable(ops[i].path) then
              RestoredSoFar(faults, full, base, ops, i, surviving + [ops[i].path], now)
            else
              RestoredSoFar(faults, full, base, ops, i, surviving, Restored(now, ops[i]))
  {
    hide Plans;
    NotPlannedAgain(ops, i);
    forall p ensures Plans(ops[i..], p) <==> p == ops[i].path || Plans(ops[i + 1..], p) { PlansCons(ops, i, p); }
  }

  lemma NotPlannedAgain(ops: seq<WriteOp>, i: nat)
    requires i < |ops| && Distinct(ops)
    ensures !Plans(ops[i + 1..], ops[i].path)
  {
    var tail := ops[i + 1..];
    forall j | 0 <= j < |tail| ensures tail[j].path != ops[i].path { assert tail[j] == ops[i + 1 + j]; }
  }

  lemma RollbackHistoryNext(history: seq<Tree>, from: nat, base: Tree, ops: seq<WriteOp>, i: nat)
    requires i < |ops| && RollbackHistory(history, from, base, ops, i + 1)
    ensures RollbackHistory(history + [Applied(base, ops[..i])], from, base, ops, i)
  {
    hide Applied;
  }

  lemma RestoredAll(faults: Faults, base: Tree, ops: seq<WriteOp>, surviving: seq<Path>, now: Tree)
    requires RestoredSoFar(faults, Applied(base, ops), base, ops, 0, surviving, now)
    ensures forall p :: At(now, p) == if p in surviving then At(Applied(base, ops), p) else At(base, p)
    ensures forall p :: p in surviving <==> Sticks(faults, ops, p)
    ensures surviving == [] ==> now == base
  {
    assert ops[0..] == ops;
    forall p ensures At(now, p) == if p in surviving then At(Applied(base, ops), p) else At(base, p) {
      if !Plans(ops, p) { AppliedElsewhere(base, ops, p); }
    }
    if surviving == [] { SameTree(now, base); }
  }

  // Commit and rollback together.

  lemma {:induction false} OfRankSamePlan(a: seq<WriteOp>, b: seq<WriteOp>, rank: nat)
    requires SamePlan(a, b)
    ensures SamePlan(OfRank(a, rank), OfRank(b, rank))
    decreases a
  {
    if a != [] {
      assert SamePlan(a[1..], b[1..]);
      OfRankSamePlan(a[1..], b[1..], rank);
    }
  }

  /** Capturing the originals moves nothing in the commit order. */
  lemma {:induction false} OrderSamePlan(a: seq<WriteOp>, b: seq<WriteOp>)
    requires SamePlan(a, b)
    ensures SamePlan(InCommitOrder(a), InCommitOrder(b))
  {
    hide OfRank;
    OfRankSamePlan(a, b, 0); OfRankSamePlan(a, b, 1); OfRankSamePlan(a, b, 2); OfRankSamePlan(a, b, 3);
  }

  lemma {:induction false} AppliedSamePlan(tree: Tree, a: seq<WriteOp>, b: seq<WriteOp>)
    requires SamePlan(a, b)
    ensures Applied(tree, a) == Applied(tree, b)
  {
    if a != [] {
      AppliedSamePlan(tree, a[..|a| - 1], b[..|b| - 1]);
      assert a[|a| - 1].path == b[|a| - 1].path;
    }
  }

  lemma {:induction false} PlansSamePlan(a: seq<WriteOp>, b: seq<WriteOp>, p: Path)
    requires SamePlan(a, b)
    ensures Plans(a, p) <==> Plans(b, p)
  {
    if Plans(a, p) { var i :| 0 <= i < |a| && a[i].path == p; assert b[i].path == p; }
    if Plans(b, p) { var i :| 0 <= i < |b| && b[i].path == p; assert a[i].path == p; }
  }

  lemma {:induction false} ApartSamePlan(a: seq<WriteOp>, b: seq<WriteOp>, edits: seq<Edit>)
    requires SamePlan(a, b) && Apart(a, edits)
    ensures Apart(b, edits)
  {
    forall i, j | 0 <= j < i < |edits| && j < |b| ensures b[j].path !in edits[i] { assert a[j].path == b[j].path; }
  }

  /** What was compared before a write is still the original when the commit stops. */
  lemma {:induction false} CapturedLater(tree: Tree, ordered: seq<WriteOp>, edits: seq<Edit>, i: nat, s: nat)
    requires i < s <= |edits| && i < |ordered| && Apart(ordered, edits)
    requires Captured(ordered[i], EditedBy(tree, edits[..i + 1]))
    ensures Captured(ordered[i], EditedBy(tree, edits[..s]))
  {
    if s > i + 1 {
      CapturedLater(tree, ordered, edits, i, s - 1);
      assert edits[..s][..s - 1] == edits[..s - 1];
      assert ordered[i].path !in edits[s - 1];
    }
  }

  lemma DistinctPrefix(ops: seq<WriteOp>, n: nat)
    requires n <= |ops| && Distinct(ops)
    ensures Distinct(ops[..n])
  {
  }

  /** The tree is one that some prefix of the commit order makes out of the edited tree. */
  ghost predicate Stage(now: Tree, tree: Tree, ordered: seq<WriteOp>, edits: seq<Edit>, done: nat, seen: nat)
    requires done <= |ordered| && seen <= |edits|
  {
    exists k: nat, s: nat :: k <= done && s <= seen && now == Midway(tree, ordered, edits, k, s)
  }

  ghost predicate Walked(history: seq<Tree>, from: nat, tree: Tree, ordered: seq<WriteOp>, edits: seq<Edit>, done: nat, seen: nat)
    requires done <= |ordered| && seen <= |edits|
  {
    forall k :: from <= k < |history| ==> Stage(history[k], tree, ordered, edits, done, seen)
  }

  lemma WalkedForth(history: seq<Tree>, from: nat, tree: Tree, ordered: seq<WriteOp>, edits: seq<Edit>, done: nat, seen: nat)
    requires done <= |ordered| && done <= seen <= |edits|
    requires CommitHistory(history, from, tree, ordered, edits, done)
    ensures Walked(history, from, tree, ordered, edits, done, seen)
  {
    hide Midway;
  }

  lemma WalkedBack(forth: seq<Tree>, history: seq<Tree>, from: nat, tree: Tree, ordered: seq<WriteOp>, edits: seq<Edit>, done: nat, seen: nat)
    requires done <= |ordered| && seen <= |edits| && forth <= history && from <= |forth|
    requires Walked(forth, from, tree, ordered, edits, done, seen)
    requires RollbackHistory(history, |forth|, EditedBy(tree, edits[..seen]), ordered[..done], 0)
    ensures Walked(history, from, tree, ordered, edits, done, seen)
  {
    hide Applied, EditedBy;
    forall k | from <= k < |history| ensures Stage(history[k], tree, ordered, edits, done, seen) {
      if k < |forth| {
        assert history[k] == forth[k];
      } else {
        var n: nat := done - 1 - (k - |forth|);
        assert ordered[..done][..n] == ordered[..n];
        assert history[k] == Midway(tree, ordered, edits, n, seen);
      }
    }
  }

  /** commitPlan, and rollback of what it wrote if it did not finish. */
  method CommitOrUndo(disk: Disk, ordered: seq<WriteOp>, edits: seq<Edit>)
    returns (error: CommitError, surviving: seq<Path>, done: nat, ghost seen: nat)
    requires Distinct(ordered) && |edits| == |ordered| && Apart(ordered, edits)
    modifies disk
    ensures done <= |ordered| && seen <= |edits|
    ensures Reached(disk.faults, old(disk.files), ordered, edits, done)
    ensures error ==
      if done == |ordered| then Committed
      else Verdict(disk.faults, ordered[done], EditedBy(old(disk.files), edits[..done + 1]))
    ensures error == Committed ==>
      && surviving == [] && done == seen == |ordered| && disk.files == Midway(old(disk.files), ordered, edits, done, seen)
      && forall i :: 0 <= i < |ordered| ==> Captured(ordered[i], EditedBy(old(disk.files), edits[..i + 1]))
    ensures error != Committed ==>
      forall p :: At(disk.files, p) == At(if p in surviving then Midway(old(disk.files), ordered, edits, done, seen)
                                          else EditedBy(old(disk.files), edits[..seen]), p)
    ensures error != Committed && surviving == [] ==> disk.files == EditedBy(old(disk.files), edits[..seen])
    ensures error != Committed ==> forall p :: p in surviving <==> Sticks(disk.faults, ordered[..done], p)
    ensures old(disk.history) <= disk.history
    ensures surviving == [] ==>
      Walked(disk.history, old(|disk.history|), old(disk.files), ordered, edits, done, seen)
  {
    hide Applied, EditedBy, Captured, CommitHistory, RollbackHistory, Walked, Distinct, Sticks;
    ghost var tree, from := disk.files, |disk.history|;
    error, done, seen := CommitPlan(disk, ordered, edits);
    surviving := [];
    if error == Committed {
      WalkedForth(disk.history, from, tree, ordered, edits, done, seen);
      return;
    }
    ghost var forth := disk.history;
    DistinctPrefix(ordered, done);
    forall i | 0 <= i < done ensures Captured(ordered[..done][i], EditedBy(tree, edits[..seen])) && Inside(ordered[..done][i].path) {
      CapturedLater(tree, ordered, edits, i, seen);
    }
    WalkedForth(forth, from, tree, ordered, edits, done, seen);
    surviving := Rollback(disk, ordered[..done], EditedBy(tree, edits[..seen]));
    if surviving == [] {
      WalkedBack(forth, disk.history, from, tree, ordered, edits, done, seen);
    }
  }
}
