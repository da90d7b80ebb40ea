/** Token usage of a session, derived from its graph and from the newest result of each call. */
module UsageFacts {
  import opened Wrappers
  import opened SessionEvents
  import opened CorrelationGraph
  import opened CorrelationQueries
  import opened CorrelationOwners

  const ZERO: TokenUsage := TokenUsage(0, 0, 0, 0, 0, 0, 0, 0)

  /** addUsage, in all eight counters. */
  function Plus(a: TokenUsage, b: TokenUsage): TokenUsage {
    TokenUsage(a.prompt + b.prompt, a.completion + b.completion, a.reasoning + b.reasoning, a.total + b.total,
               a.cacheHit + b.cacheHit, a.cacheMiss + b.cacheMiss, a.cacheRead + b.cacheRead, a.cacheCreation + b.cacheCreation)
  }

  function RequestTotal(requests: seq<TokenUsage>): TokenUsage {
    if requests == [] then ZERO else Plus(RequestTotal(requests[..|requests| - 1]), requests[|requests| - 1])
  }

  /** What a call used: its requests where it reported any, and its own total otherwise. */
  function UsageOf(result: CallResult): TokenUsage {
    if result.requests == [] then result.usage else RequestTotal(result.requests)
  }

  function Sum(requests: seq<TokenUsage>, counter: TokenUsage -> int): int {
    if requests == [] then 0 else Sum(requests[..|requests| - 1], counter) + counter(requests[|requests| - 1])
  }

  /** Each of the eight counters is the sum of the requests' own. */
  ghost predicate SumsUp(total: TokenUsage, requests: seq<TokenUsage>) {
    && total.prompt == Sum(requests, (u: TokenUsage) => u.prompt)
    && total.completion == Sum(requests, (u: TokenUsage) => u.completion)
    && total.reasoning == Sum(requests, (u: TokenUsage) => u.reasoning)
    && total.total == Sum(requests, (u: TokenUsage) => u.total)
    && total.cacheHit == Sum(requests, (u: TokenUsage) => u.cacheHit)
    && total.cacheMiss == Sum(requests, (u: TokenUsage) => u.cacheMiss)
    && total.cacheRead == Sum(requests, (u: TokenUsage) => u.cacheRead)
    && total.cacheCreation == Sum(requests, (u: TokenUsage) => u.cacheCreation)
  }

  lemma {:induction false} RequestTotalSumsUp(requests: seq<TokenUsage>)
    ensures SumsUp(RequestTotal(requests), requests)
  {
    if requests != [] { RequestTotalSumsUp(requests[..|requests| - 1]); }
  }

  /** requestUsage: the sums over the requests, and the call's own total only where it reported none. */
  method RequestUsage(result: CallResult) returns (total: TokenUsage)
    ensures total == UsageOf(result)
    ensures if result.requests == [] then total == result.usage else SumsUp(total, result.requests)
  {
    if result.requests == [] { return result.usage; }
    RequestTotalSumsUp(result.requests);
    total := ZERO;
    for i := 0 to |result.requests|
      invariant total == RequestTotal(result.requests[..i])
    {
      total := Plus(total, result.requests[i]);
      assert result.requests[..i + 1][..i] == result.requests[..i];
    }
    assert result.requests[..|result.requests|] == result.requests;
  }

  // The newest result of each call.

  type Results = map<string, CallResult>

  function Reported(e: Event): Option<(string, CallResult)> {
    if (e.payload.CallCompleted? || e.payload.CallWaiting?) && e.payload.outcome.Some? then
      Some((Pick(e.payload.outcome.value.callTurnId, e.callTurnId), e.payload.outcome.value))
    else None
  }

  /** newFactIndex, as far as call results go. */
  method NewFactIndex(events: seq<Event>) returns (results: Results)
    ensures forall id, result :: Holds(results, id, result) <==> Newest(events, id, result)
  {
    results := map[];
    for i := 0 to |events|
      invariant forall id, result :: Holds(results, id, result) <==> Newest(events[..i], id, result)
    {
      hide Newest;
      ghost var before := results;
      var e := events[i];
      if e.payload.CallCompleted? || e.payload.CallWaiting? {
        var outcome := e.payload.outcome;
        if outcome.Some? {
          var id := e.callTurnId;
          if outcome.value.callTurnId != "" { id := outcome.value.callTurnId; }
          results := results[id := outcome.value];
        }
      }
      forall id, result ensures Holds(results, id, result) <==> Newest(events[..i + 1], id, result) {
        NewestNext(events, i, id, result);
        assert Holds(before, id, result) <==> Newest(events[..i], id, result);
      }
    }
    assert events[..|events|] == events;
  }

  predicate Holds(results: Results, id: string, result: CallResult) {
    id in results && results[id] == result
  }

  /** Some event reports the result for the call, and no later one reports another. */
  ghost predicate Newest(events: seq<Event>, id: string, result: CallResult) {
    exists i :: 0 <= i < |events| && NewestAt(events, i, id, result)
  }

  ghost predicate NewestAt(events: seq<Event>, i: nat, id: string, result: CallResult)
    requires i < |events|
  {
    Reported(events[i]) == Some((id, result))
    && forall j :: i < j < |events| ==> !(Reported(events[j]).Some? && Reported(events[j]).value.0 == id)
  }

  lemma NewestNext(events: seq<Event>, n: nat, id: string, result: CallResult)
    requires n < |events|
    ensures Newest(events[..n + 1], id, result) <==>
      var reported := Reported(events[n]);
      if reported.Some? && reported.value.0 == id then reported.value.1 == result else Newest(events[..n], id, result)
  {
    var before, after, reported := events[..n], events[..n + 1], Reported(events[n]);
    assert after[n] == events[n] && forall k :: 0 <= k < n ==> after[k] == before[k];
    if reported.Some? && reported.value.0 == id {
      assert reported.value.1 == result ==> NewestAt(after, n, id, result);
    } else {
      if Newest(before, id, result) {
        var i :| 0 <= i < |before| && NewestAt(before, i, id, result);
        assert NewestAt(after, i, id, result);
      }
      if Newest(after, id, result) {
        var i :| 0 <= i < |after| && NewestAt(after, i, id, result);
        assert NewestAt(before, i, id, result);
      }
    }
  }

  function UsageOfCall(results: Results): string -> TokenUsage {
    id => if id in results then UsageOf(results[id]) else ZERO
  }

  // Sums.

  function SumOf(ids: seq<string>, f: string -> TokenUsage): TokenUsage {
    if ids == [] then ZERO else Plus(SumOf(ids[..|ids| - 1], f), f(ids[|ids| - 1]))
  }

  lemma PlusSwap(a: TokenUsage, b: TokenUsage, c: TokenUsage)
    ensures Plus(Plus(a, b), c) == Plus(Plus(a, c), b)
  {
  }

  lemma SumNext(ids: seq<string>, id: string, f: string -> TokenUsage)
    ensures SumOf(ids + [id], f) == Plus(SumOf(ids, f), f(id))
  {
    assert (ids + [id])[..|ids|] == ids;
  }

  lemma {:induction false} SumConcat(a: seq<string>, b: seq<string>, f: string -> TokenUsage)
    ensures SumOf(a + b, f) == Plus(SumOf(a, f), SumOf(b, f))
  {
    if b == [] {
      assert a + b == a;
    } else {
      assert (a + b)[..|a + b| - 1] == a + b[..|b| - 1];
      SumConcat(a, b[..|b| - 1], f);
    }
  }

  /** The sum over a set does not depend on any order. */
  ghost function SumSet(ids: set<string>, f: string -> TokenUsage): TokenUsage {
    if ids == {} then ZERO
    else
      var id :| id in ids;
      Plus(SumSet(ids - {id}, f), f(id))
  }

  lemma {:induction false} SumSetAny(ids: set<string>, id: string, f: string -> TokenUsage)
    requires id in ids
    ensures SumSet(ids, f) == Plus(SumSet(ids - {id}, f), f(id))
    decreases ids
  {
    var first :| first in ids && SumSet(ids, f) == Plus(SumSet(ids - {first}, f), f(first));
    if first != id {
      SumSetAny(ids - {first}, id, f);
      SumSetAny(ids - {id}, first, f);
      assert ids - {first} - {id} == ids - {id} - {first};
      PlusSwap(SumSet(ids - {first} - {id}, f), f(first), f(id));
    }
  }

  lemma {:induction false} SumOfIsSumSet(ids: seq<string>, f: string -> TokenUsage)
    requires NoRepeats(ids)
    ensures SumOf(ids, f) == SumSet((set id | id in ids), f)
  {
    if ids == [] {
      assert (set id | id in ids) == {};
    } else {
      var n := |ids| - 1;
      var all := set id | id in ids;
      SumOfIsSumSet(ids[..n], f);
      assert ids == ids[..n] + [ids[n]];
      assert all - {ids[n]} == set id | id in ids[..n];
      SumSetAny(all, ids[n], f);
    }
  }

  // The walk over flow turns, team turns and call turns.

  function OfKind(nodes: Nodes, ids: seq<string>, kind: Kind): seq<string> {
    if ids == [] then []
    else
      var last := ids[|ids| - 1];
      OfKind(nodes, ids[..|ids| - 1], kind) + if last in nodes && nodes[last].kind == kind then [last] else []
  }

  function ChildrenOfKind(nodes: Nodes, id: string, kind: Kind): seq<string> {
    if id in nodes then OfKind(nodes, nodes[id].children, kind) else []
  }

  function ChildrenOfAll(nodes: Nodes, ids: seq<string>, kind: Kind): seq<string> {
    if ids == [] then []
    else ChildrenOfAll(nodes, ids[..|ids| - 1], kind) + ChildrenOfKind(nodes, ids[|ids| - 1], kind)
  }

  function Through(nodes: Nodes, kind: Kind, f: string -> TokenUsage): string -> TokenUsage {
    id => SumOf(ChildrenOfKind(nodes, id, kind), f)
  }

  lemma ThroughIs(nodes: Nodes, kind: Kind, f: string -> TokenUsage, id: string)
    ensures Through(nodes, kind, f)(id) == SumOf(ChildrenOfKind(nodes, id, kind), f)
  {
  }

  /** Summing group by group is summing everything. */
  lemma {:induction false} SumThrough(nodes: Nodes, ids: seq<string>, kind: Kind, f: string -> TokenUsage)
    ensures SumOf(ids, Through(nodes, kind, f)) == SumOf(ChildrenOfAll(nodes, ids, kind), f)
  {
    if ids != [] {
      var n := |ids| - 1;
      SumThrough(nodes, ids[..n], kind, f);
      SumConcat(ChildrenOfAll(nodes, ids[..n], kind), ChildrenOfKind(nodes, ids[n], kind), f);
    }
  }

  lemma {:induction false} OfKindIsExact(nodes: Nodes, ids: seq<string>, kind: Kind)
    ensures forall x :: x in OfKind(nodes, ids, kind) <==> x in ids && x in nodes && nodes[x].kind == kind
    ensures NoRepeats(ids) ==> NoRepeats(OfKind(nodes, ids, kind))
  {
    if ids != [] {
      var n := |ids| - 1;
      OfKindIsExact(nodes, ids[..n], kind);
      assert ids == ids[..n] + [ids[n]];
      if NoRepeats(ids) { NoRepeatsConcat(OfKind(nodes, ids[..n], kind), if ids[n] in nodes && nodes[ids[n]].kind == kind then [ids[n]] else []); }
    }
  }

  /** The node is of this kind and owned by one of `ids`. */
  ghost predicate OwnedByOne(nodes: Nodes, ids: seq<string>, kind: Kind, x: string) {
    x in nodes && nodes[x].kind == kind && nodes[x].parent != "" && nodes[x].parent in ids
  }

  lemma {:induction false} ChildrenOfOneAreExact(nodes: Nodes, id: string, kind: Kind)
    requires Walkable(nodes) && id in nodes
    ensures NoRepeats(ChildrenOfKind(nodes, id, kind))
    ensures forall x :: x in ChildrenOfKind(nodes, id, kind) <==> x in nodes && nodes[x].kind == kind && nodes[x].parent == id
  {
    OfKindIsExact(nodes, nodes[id].children, kind);
    forall x | x in nodes && nodes[x].parent == id ensures x in nodes[id].children {}
  }

  lemma {:induction false} ChildrenOfAllAreExact(nodes: Nodes, ids: seq<string>, kind: Kind)
    requires Walkable(nodes) && NoRepeats(ids) && forall i :: 0 <= i < |ids| ==> ids[i] in nodes
    ensures NoRepeats(ChildrenOfAll(nodes, ids, kind))
    ensures forall x :: x in ChildrenOfAll(nodes, ids, kind) <==> OwnedByOne(nodes, ids, kind, x)
  {
    hide Walkable;
    if ids != [] {
      var n := |ids| - 1;
      var before := ids[..n];
      ChildrenOfAllAreExact(nodes, before, kind);
      ChildrenOfOneAreExact(nodes, ids[n], kind);
      assert ids == before + [ids[n]];
      NilIsNoId(nodes, ids[n]);
      assert forall x :: x in ChildrenOfKind(nodes, ids[n], kind) ==> nodes[x].parent !in before;
      NoRepeatsConcat(ChildrenOfAll(nodes, before, kind), ChildrenOfKind(nodes, ids[n], kind));
    }
  }

  lemma NilIsNoId(nodes: Nodes, id: string)
    requires Walkable(nodes) && id in nodes
    ensures id != ""
  {
  }

  /** The call turns owned by a team turn that is owned by a flow turn. */
  ghost function OwnedCalls(nodes: Nodes): set<string> {
    set c | c in nodes && nodes[c].kind == CallTurnNode
      && nodes[c].parent in nodes && nodes[nodes[c].parent].kind == TeamTurnNode
      && nodes[nodes[c].parent].parent in nodes && nodes[nodes[nodes[c].parent].parent].kind == FlowTurnNode
  }

  function FlowTurns(t: Tree): seq<string> {
    OfKind(t.nodes, t.order, FlowTurnNode)
  }

  function CallsInTurn(t: Tree): seq<string> {
    ChildrenOfAll(t.nodes, ChildrenOfAll(t.nodes, FlowTurns(t), TeamTurnNode), CallTurnNode)
  }

  /** The walk meets each owned call once, and no other node. */
  lemma {:induction false} WalkMeetsOwnedCalls(t: Tree)
    requires Forest(t)
    ensures NoRepeats(CallsInTurn(t)) && (set c | c in CallsInTurn(t)) == OwnedCalls(t.nodes)
  {
    hide Mutual, Ranked;
    var nodes := t.nodes;
    var flows := FlowTurns(t);
    OfKindIsExact(nodes, t.order, FlowTurnNode);
    ChildrenOfAllAreExact(nodes, flows, TeamTurnNode);
    var teams := ChildrenOfAll(nodes, flows, TeamTurnNode);
    forall i | 0 <= i < |teams| ensures teams[i] in nodes { assert teams[i] in teams; }
    ChildrenOfAllAreExact(nodes, teams, CallTurnNode);
    forall c ensures c in CallsInTurn(t) <==> c in OwnedCalls(nodes) {
      assert c in CallsInTurn(t) <==> OwnedByOne(nodes, teams, CallTurnNode, c);
    }
  }

  /** deriveTeamTurn: the usage of a team turn is that of its calls. */
  method TeamTurnUsage(nodes: Nodes, results: Results, team: string) returns (usage: TokenUsage)
    ensures usage == Through(nodes, CallTurnNode, UsageOfCall(results))(team)
  {
    hide Plus, ChildrenOfKind, UsageOf;
    usage := ZERO;
    var calls := ChildrenOfKind(nodes, team, CallTurnNode);
    for i := 0 to |calls|
      invariant usage == SumOf(calls[..i], UsageOfCall(results))
    {
      var call := ZERO;
      if calls[i] in results { call := RequestUsage(results[calls[i]]); }
      SumNext(calls[..i], calls[i], UsageOfCall(results));
      assert calls[..i + 1] == calls[..i] + [calls[i]];
      usage := Plus(usage, call);
    }
    assert calls[..|calls|] == calls;
  }

  /** deriveFlowTurns, for one flow turn. */
  method FlowTurnUsage(nodes: Nodes, results: Results, flow: string) returns (usage: TokenUsage)
    ensures usage == Through(nodes, TeamTurnNode, Through(nodes, CallTurnNode, UsageOfCall(results)))(flow)
  {
    hide Through, Plus, ChildrenOfKind;
    usage := ZERO;
    var teams := ChildrenOfKind(nodes, flow, TeamTurnNode);
    ghost var f := Through(nodes, CallTurnNode, UsageOfCall(results));
    for i := 0 to |teams|
      invariant usage == SumOf(teams[..i], f)
    {
      var team := TeamTurnUsage(nodes, results, teams[i]);
      SumNext(teams[..i], teams[i], f);
      assert teams[..i + 1] == teams[..i] + [teams[i]];
      usage := Plus(usage, team);
    }
    assert teams[..|teams|] == teams;
    ThroughIs(nodes, TeamTurnNode, f, flow);
  }

  /**
   * SessionFacts.Usage over the derived flow turns: in every counter the sum of what the distinct
   * owned calls used, none lost and none counted twice.
   */
  method SessionUsage(graph: Graph, results: Results) returns (usage: TokenUsage)
    requires Forest(graph.Now())
    ensures usage == SumSet(OwnedCalls(graph.nodes), UsageOfCall(results))
  {
    hide Forest, Through, Plus, OfKind, ChildrenOfAll, OwnedCalls, SumSet, NoRepeats;
    usage := ZERO;
    var t := graph.Now();
    var flows := FlowTurns(t);
    ghost var f := Through(t.nodes, CallTurnNode, UsageOfCall(results));
    ghost var g := Through(t.nodes, TeamTurnNode, f);
    for i := 0 to |flows|
      invariant usage == SumOf(flows[..i], g)
    {
      var flow := FlowTurnUsage(t.nodes, results, flows[i]);
      SumNext(flows[..i], flows[i], g);
      assert flows[..i + 1] == flows[..i] + [flows[i]];
      usage := Plus(usage, flow);
    }
    assert flows[..|flows|] == flows;
    SumThrough(t.nodes, flows, TeamTurnNode, f);
    SumThrough(t.nodes, ChildrenOfAll(t.nodes, flows, TeamTurnNode), CallTurnNode, UsageOfCall(results));
    WalkMeetsOwnedCalls(t);
    SumOfIsSumSet(CallsInTurn(t), UsageOfCall(results));
  }

  /** The call turns that the log first names with a team turn which it first names with a flow turn. */
  ghost function CallsOfLog(events: seq<Event>): set<string> {
    set m | m in AllMentions(events) && CountedCall(events, m) :: m.1
  }

  predicate CountedCall(events: seq<Event>, m: (Kind, string)) {
    m.0 == CallTurnNode && FirstOwner(events, m.1) != "" && FirstOwner(events, FirstOwner(events, m.1)) != ""
  }

  /** The owned calls of a log's graph, said of its events. */
  lemma {:induction false} OwnedCallsOfLog(events: seq<Event>)
    requires OneKind(AllMentions(events))
    ensures OwnedCalls(Built(EMPTY, events).nodes) == CallsOfLog(events)
  {
    hide FirstOwner, AllMentions, Built;
    var t := Built(EMPTY, events);
    NodesOfLog(events);
    OwnersOfLog(events);
    forall c ensures c in OwnedCalls(t.nodes) <==> c in CallsOfLog(events) {
      if c in OwnedCalls(t.nodes) {
        assert ParentOf(t, c) in t.nodes && ParentOf(t, ParentOf(t, c)) in t.nodes;
        assert CountedCall(events, (CallTurnNode, c));
      }
      if c in CallsOfLog(events) {
        assert (CallTurnNode, c) in AllMentions(events);
        OwnedAsNamed(events, c);
      }
    }
  }

  lemma OwnedAsNamed(events: seq<Event>, c: string)
    requires OneKind(AllMentions(events)) && (CallTurnNode, c) in AllMentions(events) && CountedCall(events, (CallTurnNode, c))
    requires HoldsMentions(Built(EMPTY, events), AllMentions(events))
    requires forall id :: id != "" ==> ParentOf(Built(EMPTY, events), id) == FirstOwner(events, id)
    ensures c in OwnedCalls(Built(EMPTY, events).nodes)
  {
    hide FirstOwner, AllMentions, Built;
    var t := Built(EMPTY, events);
    assert Is(t, CallTurnNode, c);
    var b := FirstBond(events, c);
    assert Is(t, b.kind, c) && Is(t, b.above, b.owner);
    var d := FirstBond(events, b.owner);
    assert Is(t, d.kind, b.owner) && Is(t, d.above, d.owner);
  }

  /** The facts of a whole log: in every counter the sum of what its counted calls used, by their newest results. */
  method UsageOfLog(events: seq<Event>) returns (usage: TokenUsage, results: Results)
    requires OneKind(AllMentions(events)) && AgentIdsApart(events)
    ensures forall id, result :: Holds(results, id, result) <==> Newest(events, id, result)
    ensures usage == SumSet(CallsOfLog(events), UsageOfCall(results))
  {
    hide OneKind, AllMentions, AgentIdsApart, Built, Newest, SumSet, CallsOfLog, OwnedCalls, Forest;
    var graph := new Graph();
    graph.AddAll(events);
    results := NewFactIndex(events);
    BuiltIsForest(events);
    OwnedCallsOfLog(events);
    usage := SessionUsage(graph, results);
  }
}
