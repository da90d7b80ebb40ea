/** The graph object: fed event by event, and asked for paths and subtrees. */
module CorrelationQueries {
  import opened Wrappers
  import opened SessionEvents
  import opened CorrelationGraph

  // Subtrees.

  /** What may be walked from a level: known nodes below it. */
  ghost predicate Below(nodes: Nodes, rank: int, ids: seq<string>) {
    forall i :: 0 <= i < |ids| ==> ids[i] in nodes && Rank(nodes[ids[i]].kind) > rank
  }

  ghost predicate Walkable(nodes: Nodes) {
    Mutual(nodes) && Ranked(nodes) && "" !in nodes
  }

  lemma ChildrenAreBelow(nodes: Nodes, id: string)
    requires Walkable(nodes) && id in nodes
    ensures Below(nodes, Rank(nodes[id].kind), nodes[id].children)
  {
    forall i | 0 <= i < |nodes[id].children|
      ensures nodes[id].children[i] in nodes && Rank(nodes[nodes[id].children[i]].kind) > Rank(nodes[id].kind)
    {
      assert nodes[id].children[i] in nodes[id].children;
    }
  }

  /** Depth first, children in their order, the node itself left out. */
  ghost function Subtree(nodes: Nodes, id: string): seq<string>
    requires Walkable(nodes) && id in nodes
    decreases 4 - Rank(nodes[id].kind), 0
  {
    ChildrenAreBelow(nodes, id);
    SubtreesOf(nodes, Rank(nodes[id].kind), nodes[id].children)
  }

  ghost function SubtreesOf(nodes: Nodes, rank: nat, ids: seq<string>): seq<string>
    requires Walkable(nodes) && rank <= 3 && Below(nodes, rank, ids)
    decreases 3 - rank, |ids| + 1
  {
    if ids == [] then []
    else
      assert ids[0] in nodes && forall i :: 0 <= i < |ids| - 1 ==> ids[1..][i] == ids[i + 1];
      [ids[0]] + Subtree(nodes, ids[0]) + SubtreesOf(nodes, rank, ids[1..])
  }

  /** `a` owns `id`, directly or through others. */
  ghost predicate Above(nodes: Nodes, a: string, id: string)
    requires Walkable(nodes)
    decreases if id in nodes then Rank(nodes[id].kind) + 1 else 0
  {
    id in nodes && nodes[id].parent != "" && (nodes[id].parent == a || Above(nodes, a, nodes[id].parent))
  }

  ghost predicate AtOrAbove(nodes: Nodes, a: string, id: string)
    requires Walkable(nodes)
  {
    a == id || Above(nodes, a, id)
  }

  /** Whatever is owned through others is owned through a child. */
  lemma {:induction false} AboveThroughChild(nodes: Nodes, a: string, id: string) returns (c: string)
    requires Walkable(nodes) && a in nodes && Above(nodes, a, id)
    ensures c in nodes[a].children && AtOrAbove(nodes, c, id)
    decreases if id in nodes then Rank(nodes[id].kind) else 0
  {
    if nodes[id].parent == a {
      c := id;
    } else {
      c := AboveThroughChild(nodes, a, nodes[id].parent);
    }
  }

  lemma {:induction false} AboveChild(nodes: Nodes, a: string, c: string, id: string)
    requires Walkable(nodes) && a in nodes && c in nodes[a].children && AtOrAbove(nodes, c, id)
    ensures Above(nodes, a, id)
    decreases if id in nodes then Rank(nodes[id].kind) + 1 else 0
  {
    if c != id && nodes[id].parent != c { AboveChild(nodes, a, c, nodes[id].parent); }
  }

  /** Owners stand above what they own, so nothing owns itself. */
  lemma {:induction false} AboveIsHigher(nodes: Nodes, a: string, id: string)
    requires Walkable(nodes) && a in nodes && Above(nodes, a, id)
    ensures id in nodes && Rank(nodes[a].kind) < Rank(nodes[id].kind)
    decreases if id in nodes then Rank(nodes[id].kind) + 1 else 0
  {
    if nodes[id].parent != a { AboveIsHigher(nodes, a, nodes[id].parent); }
  }

  /** Two owners of one node on one branch are comparable; with one owner in common they are the same child. */
  lemma {:induction false} OneChildAbove(nodes: Nodes, a: string, c: string, d: string, id: string)
    requires Walkable(nodes) && a in nodes && c in nodes[a].children && d in nodes[a].children
    requires AtOrAbove(nodes, c, id) && AtOrAbove(nodes, d, id)
    ensures c == d
    decreases if id in nodes then Rank(nodes[id].kind) + 1 else 0
  {
    assert c in nodes && d in nodes && nodes[c].parent == a && nodes[d].parent == a;
    if c == id && d != id {
      DirectOrNot(nodes, a, d, id);
    } else if d == id && c != id {
      DirectOrNot(nodes, a, c, id);
    } else if c != id {
      var p := nodes[id].parent;
      assert p in nodes;
      OneChildAbove(nodes, a, c, d, p);
    }
  }

  /** A child of `a` owns no other child of `a`. */
  lemma DirectOrNot(nodes: Nodes, a: string, d: string, id: string)
    requires Walkable(nodes) && a in nodes && d in nodes && nodes[d].parent == a && id in nodes && nodes[id].parent == a
    ensures !Above(nodes, d, id)
  {
    if nodes[id].parent == d {
      assert false;
    } else if Above(nodes, d, a) {
      AboveIsHigher(nodes, d, a);
    }
  }

  lemma {:induction false} NoRepeatsConcat(a: seq<string>, b: seq<string>)
    requires NoRepeats(a) && NoRepeats(b) && forall x :: x in a ==> x !in b
    ensures NoRepeats(a + b)
  {
    var c := a + b;
    forall i, j | 0 <= i < j < |c| ensures c[i] != c[j] {
      if i < |a| <= j { assert a[i] in a && b[j - |a|] in b; }
    }
  }

  ghost predicate UnderSome(nodes: Nodes, ids: seq<string>, x: string)
    requires Walkable(nodes)
  {
    exists i :: 0 <= i < |ids| && AtOrAbove(nodes, ids[i], x)
  }

  lemma UnderSomeCons(nodes: Nodes, ids: seq<string>, x: string)
    requires Walkable(nodes) && ids != []
    ensures UnderSome(nodes, ids, x) <==> AtOrAbove(nodes, ids[0], x) || UnderSome(nodes, ids[1..], x)
  {
    if UnderSome(nodes, ids[1..], x) {
      var i :| 0 <= i < |ids| - 1 && AtOrAbove(nodes, ids[1..][i], x);
      assert ids[1..][i] == ids[i + 1];
    }
    if UnderSome(nodes, ids, x) {
      var i :| 0 <= i < |ids| && AtOrAbove(nodes, ids[i], x);
      if i > 0 { assert ids[1..][i - 1] == ids[i]; }
    }
  }

  /** The descendants of a node are listed, each once, and nothing else is. */
  lemma {:induction false} SubtreeIsExact(nodes: Nodes, id: string)
    requires Walkable(nodes) && id in nodes
    ensures NoRepeats(Subtree(nodes, id))
    ensures forall x :: x in Subtree(nodes, id) <==> Above(nodes, id, x)
    decreases 4 - Rank(nodes[id].kind), 0
  {
    hide Above;
    var ids := nodes[id].children;
    ChildrenAreBelow(nodes, id);
    SubtreesAreExact(nodes, id, Rank(nodes[id].kind), ids);
    forall x ensures UnderSome(nodes, ids, x) <==> Above(nodes, id, x) {
      if UnderSome(nodes, ids, x) {
        var i :| 0 <= i < |ids| && AtOrAbove(nodes, ids[i], x);
        AboveChild(nodes, id, ids[i], x);
      }
      if Above(nodes, id, x) {
        var c := AboveThroughChild(nodes, id, x);
        var i :| 0 <= i < |ids| && ids[i] == c;
      }
    }
  }

  lemma {:induction false} SubtreesAreExact(nodes: Nodes, owner: string, rank: nat, ids: seq<string>)
    requires Walkable(nodes) && rank <= 3 && owner in nodes && Below(nodes, rank, ids)
    requires NoRepeats(ids) && forall i :: 0 <= i < |ids| ==> ids[i] in nodes[owner].children
    ensures NoRepeats(SubtreesOf(nodes, rank, ids))
    ensures forall x :: x in SubtreesOf(nodes, rank, ids) <==> UnderSome(nodes, ids, x)
    decreases 3 - rank, |ids| + 1
  {
    hide Above, Walkable;
    if ids != [] {
      var c, rest := ids[0], ids[1..];
      forall i | 0 <= i < |rest| ensures rest[i] == ids[i + 1] {}
      SubtreeIsExact(nodes, c);
      SubtreesAreExact(nodes, owner, rank, rest);
      var here, later := [c] + Subtree(nodes, c), SubtreesOf(nodes, rank, rest);
      NotAboveItself(nodes, c);
      NoRepeatsConcat([c], Subtree(nodes, c));
      forall x | x in here ensures x !in later {
        assert AtOrAbove(nodes, c, x);
        NotUnderOthers(nodes, owner, ids, x);
      }
      NoRepeatsConcat(here, later);
      assert SubtreesOf(nodes, rank, ids) == here + later;
      forall x ensures x in here + later <==> UnderSome(nodes, ids, x) { UnderSomeCons(nodes, ids, x); }
    }
  }

  lemma NotAboveItself(nodes: Nodes, c: string)
    requires Walkable(nodes) && c in nodes
    ensures !Above(nodes, c, c)
  {
    if Above(nodes, c, c) { AboveIsHigher(nodes, c, c); }
  }

  lemma NotUnderOthers(nodes: Nodes, owner: string, ids: seq<string>, x: string)
    requires Walkable(nodes) && owner in nodes && ids != [] && NoRepeats(ids)
    requires forall i :: 0 <= i < |ids| ==> ids[i] in nodes[owner].children
    requires AtOrAbove(nodes, ids[0], x)
    ensures !UnderSome(nodes, ids[1..], x)
  {
    hide Above, Walkable;
    forall i | 0 <= i < |ids| - 1 ensures !AtOrAbove(nodes, ids[1..][i], x) {
      assert ids[1..][i] == ids[i + 1];
      SameChildOnly(nodes, owner, ids[0], ids[i + 1], x);
    }
  }

  lemma SameChildOnly(nodes: Nodes, owner: string, c: string, d: string, x: string)
    requires Walkable(nodes) && owner in nodes && c in nodes[owner].children && d in nodes[owner].children
    requires AtOrAbove(nodes, c, x) && c != d
    ensures !AtOrAbove(nodes, d, x)
  {
    if AtOrAbove(nodes, d, x) { OneChildAbove(nodes, owner, c, d, x); }
  }

  // The graph.

  /** A chain of owners, each the owner of the next. */
  ghost predicate IsPath(nodes: Nodes, path: seq<string>) {
    && (forall i :: 0 <= i < |path| ==> path[i] in nodes)
    && (forall i :: 0 < i < |path| ==> nodes[path[i]].parent == path[i - 1])
  }

  class Graph {
    var nodes: Nodes
    var order: seq<string>

    constructor ()
      ensures Now() == EMPTY
    {
      nodes, order := map[], [];
    }

    function Now(): Tree
      reads this
    {
      Tree(nodes, order)
    }

    method Ensure(kind: Kind, id: string) returns (node: string)
      modifies this
      ensures Now() == Ensured(old(Now()), kind, id) && node == Found(Now(), kind, id)
    {
      if id == "" { return ""; }
      if id in nodes { return if nodes[id].kind != kind then "" else id; }
      nodes := nodes[id := Node(kind, id, "", [], NO_INFO)];
      order := order + [id];
      node := id;
    }

    method Link(child: string, parent: string)
      modifies this
      ensures Now() == Linked(old(Now()), child, parent)
    {
      if child !in nodes || parent !in nodes || child == parent || nodes[child].parent != "" { return; }
      nodes := nodes[child := nodes[child].(parent := parent)];
      nodes := nodes[parent := nodes[parent].(children := nodes[parent].children + [child])];
    }

    method ApplyScope(id: string, e: Event)
      modifies this`nodes
      ensures Now() == ScopeNoted(old(Now()), id, e)
    {
      if id in nodes { nodes := nodes[id := nodes[id].(info := Scoped(nodes[id].info, e))]; }
    }

    method Track(kind: Kind, id: string, status: string, attempt: int)
      modifies this
      ensures Now() == Tracked(old(Now()), kind, id, status, attempt)
    {
      var node := Ensure(kind, id);
      if node == "" { return; }
      var info := nodes[id].info;
      nodes := nodes[id := nodes[id].(info := info.(status := Pick(status, info.status),
                                                    attempt := if attempt > 0 then attempt else info.attempt))];
    }

    method NameAgent(id: string, agentId: string)
      modifies this`nodes
      ensures Now() == AgentNoted(old(Now()), id, agentId)
    {
      if id in nodes && nodes[id].info.agentId == "" {
        nodes := nodes[id := nodes[id].(info := nodes[id].info.(agentId := agentId))];
      }
    }

    method ApplyTurnLifecycle(e: Event, teamSession: string)
      modifies this
      ensures Now() == Lifecycle(old(Now()), e, teamSession)
    {
      hide Tracked, Ensured, Linked, AgentNoted;
      match e.payload {
        case FlowSession(id, status) => Track(FlowSessionNode, id, status, 0);
        case TeamSession(id, status) => Track(TeamSessionNode, id, status, 0);
        case AgentSession(id, status, teamSessionId, callId, agentId) =>
          Track(AgentSessionNode, id, status, 0);
          if id in nodes {
            var info := Scoped(nodes[id].info, e).(teamSessionId := teamSessionId, callId := callId, agentId := agentId);
            nodes := nodes[id := nodes[id].(info := info)];
            Link(id, teamSession);
          }
        case FlowTurn(id, status, attempt) => Track(FlowTurnNode, Pick(id, e.flowTurnId), status, attempt);
        case TeamTurn(turn, result) =>
          var id, status := e.teamTurnId, "";
          if turn.Some? { id, status := Pick(turn.value.0, id), turn.value.1; }
          if result.Some? { id, status := Pick(result.value.0, id), result.value.1; }
          Track(TeamTurnNode, id, status, e.attempt);
        case CallStarted(call) =>
          if call.Some? {
            var node := Ensure(CallTurnNode, e.callTurnId);
            if node != "" { NameAgent(node, call.value); }
          }
          Track(CallTurnNode, e.callTurnId, "running", e.attempt);
        case CallCompleted(outcome) =>
          if outcome.Some? {
            var id := Pick(outcome.value.callTurnId, e.callTurnId);
            Track(CallTurnNode, id, outcome.value.status, e.attempt);
            NameAgent(id, outcome.value.agentId);
          }
        case CallWaiting(outcome) =>
          var status := if outcome.Some? && outcome.value.status != "" then outcome.value.status else "waiting";
          Track(CallTurnNode, e.callTurnId, status, e.attempt);
        case Other =>
      }
    }

    method AddEnvelope(e: Event) returns (s: Scope)
      modifies this
      ensures s == Enveloped(old(Now()), e) && Now() == s.tree
    {
      hide Ensured, Linked, Found;
      var flowSession := Ensure(FlowSessionNode, e.flowSessionId);
      var flowTurn := Attach(FlowTurnNode, e.flowTurnId, flowSession);
      var teamSession := Attach(TeamSessionNode, e.teamSessionId, flowSession);
      var teamTurn := Attach(TeamTurnNode, e.teamTurnId, flowTurn);
      var callTurn := Attach(CallTurnNode, e.callTurnId, teamTurn);
      s := Scope(Now(), flowSession, flowTurn, teamSession, teamTurn, callTurn);
    }

    method Attach(kind: Kind, id: string, parent: string) returns (node: string)
      modifies this
      ensures Now() == Attached(old(Now()), kind, id, parent) && node == Found(Now(), kind, id)
    {
      node := Ensure(kind, id);
      Link(node, parent);
    }

    method AddEvent(e: Event)
      modifies this
      ensures Now() == Added(old(Now()), e)
    {
      hide ScopeNoted, Lifecycle, Enveloped;
      var s := AddEnvelope(e);
      ApplyScope(s.flowSession, e);
      ApplyScope(s.flowTurn, e);
      ApplyScope(s.teamSession, e);
      ApplyScope(s.teamTurn, e);
      ApplyScope(s.callTurn, e);
      ApplyTurnLifecycle(e, s.teamSession);
      var id := Owner(e);
      if id in nodes {
        var info := nodes[id].info;
        if info.firstSeq == 0 || e.seqNo < info.firstSeq { info := info.(firstSeq := e.seqNo); }
        if e.seqNo > info.lastSeq { info := info.(lastSeq := e.seqNo); }
        nodes := nodes[id := nodes[id].(info := info)];
      }
    }

    /** NewGraph */
    method AddAll(events: seq<Event>)
      modifies this
      ensures Now() == Built(old(Now()), events)
    {
      hide Added;
      assert events[..0] == [];
      for i := 0 to |events|
        invariant Now() == Built(old(Now()), events[..i])
      {
        AddEvent(events[i]);
        assert events[..i + 1][..i] == events[..i];
      }
      assert events[..|events|] == events;
    }

    /** Path ends at a root, after at most four nodes. */
    method Path(id: string) returns (path: seq<string>)
      requires Forest(Now())
      ensures id !in nodes ==> path == []
      ensures id in nodes ==>
        0 < |path| <= 4 && IsPath(nodes, path) && path[|path| - 1] == id && nodes[path[0]].parent == ""
    {
      path := [];
      if id !in nodes { return; }
      path := [id];
      while nodes[path[0]].parent != ""
        invariant 0 < |path| && IsPath(nodes, path) && path[|path| - 1] == id
        invariant |path| + Rank(nodes[path[0]].kind) <= 4
        decreases Rank(nodes[path[0]].kind)
      {
        path := [nodes[path[0]].parent] + path;
      }
    }

    /** Descendants: the walk appends each child and then what that child owns. */
    method Descendants(id: string) returns (out: seq<string>)
      requires Forest(Now())
      ensures id !in nodes ==> out == []
      ensures id in nodes ==> NoRepeats(out) && forall x :: x in out <==> Above(nodes, id, x)
    {
      if id !in nodes { return []; }
      out := Walk(id, []);
      SubtreeIsExact(nodes, id);
    }

    method Walk(id: string, before: seq<string>) returns (out: seq<string>)
      requires Walkable(nodes) && id in nodes
      ensures out == before + Subtree(nodes, id)
      decreases 4 - Rank(nodes[id].kind)
    {
      hide Above, Walkable, Subtree, SubtreesOf, Below;
      out := before;
      var children := nodes[id].children;
      WalkStart(nodes, id);
      for i := 0 to |children|
        invariant Below(nodes, Rank(nodes[id].kind), children[i..])
        invariant out + SubtreesOf(nodes, Rank(nodes[id].kind), children[i..]) == before + Subtree(nodes, id)
      {
        WalkNext(nodes, Rank(nodes[id].kind), children, i);
        out := Walk(children[i], out + [children[i]]);
      }
      WalkEnd(nodes, Rank(nodes[id].kind), children);
    }
  }

  lemma WalkStart(nodes: Nodes, id: string)
    requires Walkable(nodes) && id in nodes
    ensures var children, rank := nodes[id].children, Rank(nodes[id].kind);
            Below(nodes, rank, children[0..]) && SubtreesOf(nodes, rank, children[0..]) == Subtree(nodes, id)
  {
    hide Walkable;
    ChildrenAreBelow(nodes, id);
    assert nodes[id].children[0..] == nodes[id].children;
  }

  lemma WalkNext(nodes: Nodes, rank: nat, ids: seq<string>, i: nat)
    requires Walkable(nodes) && rank <= 3 && i < |ids| && Below(nodes, rank, ids[i..])
    ensures ids[i] in nodes && Rank(nodes[ids[i]].kind) > rank && Below(nodes, rank, ids[i + 1..])
    ensures SubtreesOf(nodes, rank, ids[i..]) == [ids[i]] + Subtree(nodes, ids[i]) + SubtreesOf(nodes, rank, ids[i + 1..])
  {
    hide Walkable;
    var now, rest := ids[i..], ids[i + 1..];
    assert now[0] == ids[i] && now[1..] == rest;
    forall k | 0 <= k < |rest| ensures rest[k] == now[k + 1] {}
  }

  lemma WalkEnd(nodes: Nodes, rank: nat, ids: seq<string>)
    requires Walkable(nodes) && rank <= 3 && Below(nodes, rank, ids[|ids|..])
    ensures SubtreesOf(nodes, rank, ids[|ids|..]) == []
  {
    assert ids[|ids|..] == [];
  }
}
