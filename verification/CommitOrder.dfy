/** The order in which a plan is committed, and the references it keeps satisfied. */
module CommitOrder {
  import opened DefinitionPaths
  import opened DefinitionTree

  function OfRank(ops: seq<WriteOp>, rank: nat): (r: seq<WriteOp>) {
    if ops == [] then []
    else (if Rank(ops[0].path) == rank then [ops[0]] else []) + OfRank(ops[1..], rank)
  }

  /** InCommitOrder: the stable sort of a plan by rank. */
  function InCommitOrder(ops: seq<WriteOp>): seq<WriteOp> {
    OfRank(ops, 0) + OfRank(ops, 1) + OfRank(ops, 2) + OfRank(ops, 3)
  }

  predicate Ordered(ops: seq<WriteOp>) {
    forall i, j :: 0 <= i < j < |ops| ==> Rank(ops[i].path) <= Rank(ops[j].path)
  }

  lemma {:induction false} OfRankPlans(ops: seq<WriteOp>, rank: nat, p: Path)
    ensures Plans(OfRank(ops, rank), p) <==> Plans(ops, p) && Rank(p) == rank
    decreases ops
  {
    if ops != [] {
      var head, tail := if Rank(ops[0].path) == rank then [ops[0]] else [], OfRank(ops[1..], rank);
      OfRankPlans(ops[1..], rank, p);
      PlansConcat([ops[0]], ops[1..], p);
      PlansConcat(head, tail, p);
      assert ops == [ops[0]] + ops[1..];
    }
  }

  lemma {:induction false} PlansConcat(a: seq<WriteOp>, b: seq<WriteOp>, p: Path)
    ensures Plans(a + b, p) <==> Plans(a, p) || Plans(b, p)
  {
    if Plans(a, p) {
      var i :| 0 <= i < |a| && a[i].path == p;
      assert (a + b)[i].path == p;
    }
    if Plans(b, p) {
      var i :| 0 <= i < |b| && b[i].path == p;
      assert (a + b)[|a| + i].path == p;
    }
  }

  lemma {:induction false} DistinctConcat(a: seq<WriteOp>, b: seq<WriteOp>)
    requires Distinct(a) && Distinct(b) && forall i :: 0 <= i < |b| ==> !Plans(a, b[i].path)
    ensures Distinct(a + b)
  {
    var c := a + b;
    forall i, j | 0 <= i < j < |c| ensures c[i].path != c[j].path {
      if i < |a| <= j { assert c[j] == b[j - |a|] && !Plans(a, b[j - |a|].path); }
    }
  }

  lemma {:induction false} OfRankDistinct(ops: seq<WriteOp>, rank: nat)
    requires Distinct(ops)
    ensures Distinct(OfRank(ops, rank))
    ensures forall i :: 0 <= i < |OfRank(ops, rank)| ==> Rank(OfRank(ops, rank)[i].path) == rank
    decreases ops
  {
    if ops != [] {
      var tail := OfRank(ops[1..], rank);
      OfRankDistinct(ops[1..], rank);
      forall i | 0 <= i < |tail| ensures tail[i].path != ops[0].path {
        OfRankPlans(ops[1..], rank, tail[i].path);
        assert Plans(tail, tail[i].path);
      }
    }
  }

  /** The order keeps every operation, never puts a higher rank first, and never swaps equals. */
  lemma {:induction false} CommitOrderSorts(ops: seq<WriteOp>)
    requires Distinct(ops)
    ensures Distinct(InCommitOrder(ops)) && Ordered(InCommitOrder(ops))
    ensures forall p :: Plans(InCommitOrder(ops), p) <==> Plans(ops, p)
  {
    var a, b, c, d := OfRank(ops, 0), OfRank(ops, 1), OfRank(ops, 2), OfRank(ops, 3);
    forall rank | 0 <= rank <= 3 ensures Distinct(OfRank(ops, rank)) { OfRankDistinct(ops, rank); }
    OfRankDistinct(ops, 0); OfRankDistinct(ops, 1); OfRankDistinct(ops, 2); OfRankDistinct(ops, 3);
    DistinctConcat(a, b);
    DistinctConcat(a + b, c);
    DistinctConcat(a + b + c, d);
    forall p ensures Plans(InCommitOrder(ops), p) <==> Plans(ops, p) {
      PlansConcat(a, b, p); PlansConcat(a + b, c, p); PlansConcat(a + b + c, d, p);
      OfRankPlans(ops, 0, p); OfRankPlans(ops, 1, p); OfRankPlans(ops, 2, p); OfRankPlans(ops, 3, p);
    }
  }

  lemma {:induction false} OfRankIsAdditive(a: seq<WriteOp>, b: seq<WriteOp>, rank: nat)
    ensures OfRank(a + b, rank) == OfRank(a, rank) + OfRank(b, rank)
    decreases a
  {
    hide Rank;
    if a == [] {
      assert a + b == b;
    } else {
      var head := if Rank(a[0].path) == rank then [a[0]] else [];
      assert (a + b)[1..] == a[1..] + b;
      OfRankIsAdditive(a[1..], b, rank);
      assert head + (OfRank(a[1..], rank) + OfRank(b, rank)) == head + OfRank(a[1..], rank) + OfRank(b, rank);
    }
  }

  lemma {:induction false} OfRankOfRank(ops: seq<WriteOp>, rank: nat, other: nat)
    ensures OfRank(OfRank(ops, rank), other) == if rank == other then OfRank(ops, rank) else []
  {
    if ops != [] {
      OfRankOfRank(ops[1..], rank, other);
      var tail := OfRank(ops[1..], rank);
      assert ([ops[0]] + tail)[1..] == tail;
      assert [] + tail == tail;
    }
  }

  /** Within one rank the plan's own order stands. */
  lemma {:induction false} CommitOrderIsStable(ops: seq<WriteOp>, rank: nat)
    requires rank <= 3
    ensures OfRank(InCommitOrder(ops), rank) == OfRank(ops, rank)
  {
    var a, b, c, d := OfRank(ops, 0), OfRank(ops, 1), OfRank(ops, 2), OfRank(ops, 3);
    OfRankIsAdditive(a + b + c, d, rank); OfRankIsAdditive(a + b, c, rank); OfRankIsAdditive(a, b, rank);
    OfRankOfRank(ops, 0, rank); OfRankOfRank(ops, 1, rank); OfRankOfRank(ops, 2, rank); OfRankOfRank(ops, 3, rank);
  }

  // References.

  /** What the definition stored at a path refers to; a reference always leads to a lower rank. */
  type References = (Path, Bytes) -> set<Path>

  ghost predicate Downward(refs: References) {
    forall p, data, r :: r in refs(p, data) ==> Rank(r) < Rank(p)
  }

  /** No definition refers to a missing one. */
  ghost predicate Closed(refs: References, tree: Tree) {
    forall p, r :: p in tree && r in refs(p, tree[p]) ==> r in tree
  }

  /** Whatever point a commit has reached, every reference in the tree is satisfied. */
  lemma {:induction false} PrefixIsClosed(refs: References, tree: Tree, ops: seq<WriteOp>, k: nat)
    requires Downward(refs) && Distinct(ops) && Ordered(ops) && k <= |ops|
    requires Closed(refs, tree) && Closed(refs, Applied(tree, ops))
    ensures Closed(refs, Applied(tree, ops[..k]))
  {
    var now, all, done := Applied(tree, ops[..k]), Applied(tree, ops), ops[..k];
    forall p, r | p in now && r in refs(p, now[p]) ensures r in now {
      if Plans(done, p) {
        var i :| 0 <= i < k && done[i].path == p;
        assert done[i] == ops[i];
        AppliedPlanned(tree, done, i);
        AppliedPlanned(tree, ops, i);
        ReferencedBefore(tree, ops, k, i, r);
      } else {
        AppliedElsewhere(tree, done, p);
        KeepsFiles(tree, done, r);
      }
    }
  }

  lemma {:induction false} KeepsFiles(tree: Tree, ops: seq<WriteOp>, p: Path)
    requires p in tree
    ensures p in Applied(tree, ops)
  {
    if ops != [] { KeepsFiles(tree, ops[..|ops| - 1], p); }
  }

  /** A definition of lower rank that the finished tree holds is there before the one at `i`. */
  lemma {:induction false} ReferencedBefore(tree: Tree, ops: seq<WriteOp>, k: nat, i: nat, r: Path)
    requires i < k <= |ops| && Distinct(ops) && Ordered(ops)
    requires r in Applied(tree, ops) && Rank(r) < Rank(ops[i].path)
    ensures r in Applied(tree, ops[..k])
  {
    if Plans(ops, r) {
      var j :| 0 <= j < |ops| && ops[j].path == r;
      assert ops[..k][j] == ops[j];
      AppliedPlanned(tree, ops[..k], j);
    } else {
      AppliedElsewhere(tree, ops, r);
      KeepsFiles(tree, ops[..k], r);
    }
  }
}
