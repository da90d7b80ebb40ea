/** The definition tree, the writes of a plan, and the edits of others. */
module DefinitionTree {
  import opened DefinitionPaths

  type Bytes = string

  type Tree = map<Path, Bytes>

  datatype Mode = Create | Replace

  datatype WriteOp = WriteOp(path: Path, data: Bytes, mode: Mode, original: Bytes, existed: bool)

  predicate Distinct(ops: seq<WriteOp>) {
    forall i, j :: 0 <= i < j < |ops| ==> ops[i].path != ops[j].path
  }

  predicate Plans(ops: seq<WriteOp>, p: Path) {
    exists i :: 0 <= i < |ops| && ops[i].path == p
  }

  /** The tree after the writes of `ops`, one by one. */
  function Applied(tree: Tree, ops: seq<WriteOp>): Tree {
    if ops == [] then tree
    else
      var op := ops[|ops| - 1];
      Applied(tree, ops[..|ops| - 1])[op.path := op.data]
  }

  lemma {:induction false} AppliedNext(tree: Tree, ops: seq<WriteOp>, k: nat)
    requires k < |ops|
    ensures Applied(tree, ops[..k + 1]) == Applied(tree, ops[..k])[ops[k].path := ops[k].data]
  {
    assert ops[..k + 1][..k] == ops[..k];
  }

  /** A path outside the plan keeps its file, or its absence. */
  lemma {:induction false} AppliedElsewhere(tree: Tree, ops: seq<WriteOp>, p: Path)
    requires !Plans(ops, p)
    ensures p in Applied(tree, ops) <==> p in tree
    ensures p in tree ==> Applied(tree, ops)[p] == tree[p]
  {
    if ops != [] {
      var last := |ops| - 1;
      assert ops[last].path != p;
      forall i | 0 <= i < last ensures ops[..last][i].path != p { assert ops[..last][i] == ops[i]; }
      AppliedElsewhere(tree, ops[..last], p);
    }
  }

  /** A planned path holds what its operation writes. */
  lemma {:induction false} AppliedPlanned(tree: Tree, ops: seq<WriteOp>, i: nat)
    requires i < |ops| && Distinct(ops)
    ensures ops[i].path in Applied(tree, ops) && Applied(tree, ops)[ops[i].path] == ops[i].data
  {
    var last := |ops| - 1;
    if i < last {
      assert ops[..last][i] == ops[i] && Distinct(ops[..last]);
      AppliedPlanned(tree, ops[..last], i);
    }
  }

  // Outside edits: what another process does to the tree, path by path.

  datatype Content = Absent | Present(data: Bytes)

  type Edit = map<Path, Content>

  function At(tree: Tree, p: Path): Content {
    if p in tree then Present(tree[p]) else Absent
  }

  function Edited(tree: Tree, edit: Edit): (r: Tree)
    ensures forall p :: At(r, p) == if p in edit then edit[p] else At(tree, p)
  {
    map p | p in tree.Keys + edit.Keys && (p in edit ==> edit[p].Present?) :: if p in edit then edit[p].data else tree[p]
  }

  function EditedBy(tree: Tree, edits: seq<Edit>): Tree {
    if edits == [] then tree else Edited(EditedBy(tree, edits[..|edits| - 1]), edits[|edits| - 1])
  }

  lemma SameTree(a: Tree, b: Tree)
    requires forall p :: At(a, p) == At(b, p)
    ensures a == b
  {
    forall p ensures p in a <==> p in b { assert At(a, p) == At(b, p); }
    forall p | p in a ensures a[p] == b[p] { assert At(a, p) == At(b, p); }
  }

  /** Writes and edits on different paths may be swapped. */
  lemma {:induction false} EditsCommute(tree: Tree, ops: seq<WriteOp>, edit: Edit)
    requires forall i :: 0 <= i < |ops| ==> ops[i].path !in edit
    ensures Edited(Applied(tree, ops), edit) == Applied(Edited(tree, edit), ops)
  {
    if ops != [] {
      var last := |ops| - 1;
      forall i | 0 <= i < last ensures ops[..last][i].path !in edit { assert ops[..last][i] == ops[i]; }
      EditsCommute(tree, ops[..last], edit);
      EditCommutes(Applied(tree, ops[..last]), ops[last], edit);
    }
  }

  lemma EditCommutes(tree: Tree, op: WriteOp, edit: Edit)
    requires op.path !in edit
    ensures Edited(tree[op.path := op.data], edit) == Edited(tree, edit)[op.path := op.data]
  {
    var a, b := Edited(tree[op.path := op.data], edit), Edited(tree, edit)[op.path := op.data];
    forall p ensures At(a, p) == At(b, p) {
      assert At(Edited(tree, edit), p) == if p in edit then edit[p] else At(tree, p);
    }
    SameTree(a, b);
  }
}
