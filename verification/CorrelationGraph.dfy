/** The event log of one session folded into a tree of sessions, turns and calls. */
module CorrelationGraph {
  import opened Wrappers
  import opened SessionEvents

  datatype Kind = FlowSessionNode | FlowTurnNode | TeamSessionNode | TeamTurnNode | AgentSessionNode | CallTurnNode

  /** How deep in the tree a kind lives. */
  function Rank(kind: Kind): (rank: nat)
    ensures rank <= 3
  {
    match kind
    case FlowSessionNode => 0
    case FlowTurnNode => 1
    case TeamSessionNode => 1
    case TeamTurnNode => 2
    case AgentSessionNode => 2
    case CallTurnNode => 3
  }

  /** What a node knows beside its place in the tree. */
  datatype Info = Info(
    flowSessionId: string,
    flowTurnId: string,
    teamSessionId: string,
    teamTurnId: string,
    teamId: string,
    callId: string,
    agentId: string,
    status: string,
    attempt: int,
    firstSeq: int,
    lastSeq: int)

  const NO_INFO: Info := Info("", "", "", "", "", "", "", "", 0, 0, 0)

  datatype Node = Node(kind: Kind, id: string, parent: string, children: seq<string>, info: Info)

  type Nodes = map<string, Node>

  datatype Tree = Tree(nodes: Nodes, order: seq<string>)

  const EMPTY: Tree := Tree(map[], [])

  // The building steps; "" stands for the nil node.

  predicate Is(t: Tree, kind: Kind, id: string) {
    id in t.nodes && t.nodes[id].kind == kind
  }

  /** ensure: a node of another kind under the same id is left alone. */
  function Ensured(t: Tree, kind: Kind, id: string): Tree {
    if id == "" || id in t.nodes then t
    else Tree(t.nodes[id := Node(kind, id, "", [], NO_INFO)], t.order + [id])
  }

  /** The node that ensure returns. */
  function Found(t: Tree, kind: Kind, id: string): string {
    if id != "" && Is(t, kind, id) then id else ""
  }

  /** link: the first owner stays. */
  function Linked(t: Tree, child: string, parent: string): Tree {
    if child !in t.nodes || parent !in t.nodes || child == parent || t.nodes[child].parent != "" then t
    else
      var nodes := t.nodes[child := t.nodes[child].(parent := parent)];
      t.(nodes := nodes[parent := nodes[parent].(children := nodes[parent].children + [child])])
  }

  function Noted(t: Tree, id: string, info: Info): Tree {
    if id in t.nodes then t.(nodes := t.nodes[id := t.nodes[id].(info := info)]) else t
  }

  function InfoOf(t: Tree, id: string): Info {
    if id in t.nodes then t.nodes[id].info else NO_INFO
  }

  function Pick(s: string, fallback: string): string {
    if s != "" then s else fallback
  }

  /** applyScope */
  function Scoped(info: Info, e: Event): Info {
    info.(flowSessionId := Pick(e.flowSessionId, info.flowSessionId),
          flowTurnId := Pick(e.flowTurnId, info.flowTurnId),
          teamSessionId := Pick(e.teamSessionId, info.teamSessionId),
          teamTurnId := Pick(e.teamTurnId, info.teamTurnId),
          teamId := Pick(e.teamId, info.teamId),
          callId := Pick(e.callId, info.callId),
          attempt := if e.attempt > 0 then e.attempt else info.attempt)
  }

  /** track: status and attempt of the node a lifecycle event names. */
  function Tracked(t: Tree, kind: Kind, id: string, status: string, attempt: int): Tree {
    var u := Ensured(t, kind, id);
    if Found(u, kind, id) == "" then u
    else
      var info := u.nodes[id].info;
      Noted(u, id, info.(status := Pick(status, info.status), attempt := if attempt > 0 then attempt else info.attempt))
  }

  // What every tree satisfies.

  predicate NoRepeats(ids: seq<string>) {
    forall i, j :: 0 <= i < j < |ids| ==> ids[i] != ids[j]
  }

  /** Each owner lives on a higher level than what it owns. */
  ghost predicate Ranked(nodes: Nodes) {
    forall id :: id in nodes && nodes[id].parent != "" ==>
      nodes[id].parent in nodes && Rank(nodes[nodes[id].parent].kind) < Rank(nodes[id].kind)
  }

  ghost predicate ListedAreOwned(nodes: Nodes) {
    forall id, c :: id in nodes && c in nodes[id].children ==> c in nodes && nodes[c].parent == id
  }

  ghost predicate OwnedAreListed(nodes: Nodes) {
    forall c :: c in nodes && nodes[c].parent != "" ==> nodes[c].parent in nodes && c in nodes[nodes[c].parent].children
  }

  ghost predicate ListedOnce(nodes: Nodes) {
    forall id :: id in nodes ==> NoRepeats(nodes[id].children)
  }

  /** Owner and owned know each other, and each owned node is listed once. */
  ghost predicate Mutual(nodes: Nodes) {
    ListedAreOwned(nodes) && OwnedAreListed(nodes) && ListedOnce(nodes)
  }

  ghost predicate Indexed(t: Tree) {
    && (forall id :: id in t.nodes ==> t.nodes[id].id == id && id != "")
    && NoRepeats(t.order) && forall id :: id in t.order <==> id in t.nodes
  }

  ghost predicate Sound(t: Tree) {
    Mutual(t.nodes) && Indexed(t)
  }

  /** A forest whose levels only go down. */
  ghost predicate Forest(t: Tree) {
    Sound(t) && Ranked(t.nodes)
  }

  lemma {:induction false} EnsuredIsSound(t: Tree, kind: Kind, id: string)
    requires Sound(t)
    ensures Sound(Ensured(t, kind, id)) && (Ranked(t.nodes) <==> Ranked(Ensured(t, kind, id).nodes))
    ensures Found(Ensured(t, kind, id), kind, id) == "" <==> id == "" || (id in t.nodes && t.nodes[id].kind != kind)
  {
    var u := Ensured(t, kind, id);
    if u != t {
      forall k | k in u.nodes && u.nodes[k].parent != "" ensures k in t.nodes && u.nodes[k] == t.nodes[k] {}
      forall k | k in t.nodes ensures u.nodes[k] == t.nodes[k] {}
      if Ranked(u.nodes) {
        forall k | k in t.nodes && t.nodes[k].parent != ""
          ensures t.nodes[k].parent in t.nodes && Rank(t.nodes[t.nodes[k].parent].kind) < Rank(t.nodes[k].kind)
        {
          assert u.nodes[k] == t.nodes[k];
        }
      }
    }
  }

  /** What a link changes: the child's owner, and one entry in the owner's list. */
  ghost predicate LinkShape(t: Nodes, u: Nodes, child: string, parent: string) {
    && u.Keys == t.Keys
    && forall id :: id in u ==>
         && u[id].id == t[id].id && u[id].kind == t[id].kind
         && u[id].parent == (if id == child then parent else t[id].parent)
         && u[id].children == if id == parent then t[id].children + [child] else t[id].children
  }

  predicate Links(t: Tree, child: string, parent: string) {
    child in t.nodes && parent in t.nodes && child != parent && t.nodes[child].parent == ""
  }

  lemma LinkedShape(t: Tree, child: string, parent: string)
    ensures var u := Linked(t, child, parent);
            if Links(t, child, parent) then LinkShape(t.nodes, u.nodes, child, parent) && u.order == t.order else u == t
  {
  }

  lemma {:induction false} LinkedListed(t: Nodes, u: Nodes, child: string, parent: string)
    requires ListedAreOwned(t) && LinkShape(t, u, child, parent) && child in t && t[child].parent == "" && "" !in t
    ensures ListedAreOwned(u)
    ensures forall id :: id in t ==> child !in t[id].children
  {
    forall id | id in t ensures child !in t[id].children {}
    forall id, c | id in u && c in u[id].children ensures c in u && u[c].parent == id {
      if c in t[id].children { assert t[c].parent == id && c != child; } else { assert id == parent && c == child; }
    }
  }

  lemma {:induction false} LinkedOwned(t: Nodes, u: Nodes, child: string, parent: string)
    requires OwnedAreListed(t) && LinkShape(t, u, child, parent) && child in t && parent in t
    ensures OwnedAreListed(u)
  {
    forall c | c in u && u[c].parent != "" ensures u[c].parent in u && c in u[u[c].parent].children {
      if c == child { assert u[parent].children[|t[parent].children|] == child; } else { assert c in t[t[c].parent].children; }
    }
  }

  lemma {:induction false} LinkedOnce(t: Nodes, u: Nodes, child: string, parent: string)
    requires ListedOnce(t) && LinkShape(t, u, child, parent)
    requires forall id :: id in t ==> child !in t[id].children
    ensures ListedOnce(u)
  {
    forall id | id in u ensures NoRepeats(u[id].children) {
      assert NoRepeats(t[id].children);
    }
  }

  /** Linking keeps the tree sound, whatever it links. */
  lemma {:induction false} LinkedIsSound(t: Tree, child: string, parent: string)
    requires Sound(t)
    ensures Sound(Linked(t, child, parent))
  {
    hide Linked, ListedAreOwned, OwnedAreListed, ListedOnce, LinkShape;
    LinkedShape(t, child, parent);
    if Links(t, child, parent) {
      var u := Linked(t, child, parent);
      NilIsNoNode(t);
      LinkedListed(t.nodes, u.nodes, child, parent);
      LinkedOwned(t.nodes, u.nodes, child, parent);
      LinkedOnce(t.nodes, u.nodes, child, parent);
      LinkedIndex(t, Linked(t, child, parent), child, parent);
    }
  }

  lemma LinkedIndex(t: Tree, u: Tree, child: string, parent: string)
    requires Indexed(t) && LinkShape(t.nodes, u.nodes, child, parent) && u.order == t.order
    ensures Indexed(u)
  {
  }

  /** The link would put an owner on the level of what it owns, or below. */
  predicate Misplaces(t: Tree, child: string, parent: string) {
    Links(t, child, parent) && Rank(t.nodes[parent].kind) >= Rank(t.nodes[child].kind)
  }

  lemma {:induction false} LinkedLevels(t: Nodes, u: Nodes, child: string, parent: string)
    requires Ranked(t) && LinkShape(t, u, child, parent) && child in t && parent in t && child != parent && parent != ""
    ensures Ranked(u) <==> Rank(t[parent].kind) < Rank(t[child].kind)
  {
    hide Rank;
    assert u[child].parent == parent;
  }

  lemma {:induction false} LinkedIsRanked(t: Tree, child: string, parent: string)
    requires Forest(t)
    ensures Ranked(Linked(t, child, parent).nodes) <==> !Misplaces(t, child, parent)
  {
    hide Linked, Mutual, LinkShape, Ranked;
    LinkedShape(t, child, parent);
    if Links(t, child, parent) { LinkedLevels(t.nodes, Linked(t, child, parent).nodes, child, parent); }
  }

  /** The same nodes in the same places, whatever is noted about them. */
  ghost predicate SamePlaces(t: Tree, u: Tree) {
    && t.order == u.order && t.nodes.Keys == u.nodes.Keys
    && forall k :: k in t.nodes ==> u.nodes[k].(info := NO_INFO) == t.nodes[k].(info := NO_INFO)
  }

  lemma NotedPlaces(t: Tree, id: string, info: Info)
    ensures SamePlaces(t, Noted(t, id, info))
  {
  }

  lemma {:induction false} PlacesKeepSound(t: Tree, u: Tree)
    requires SamePlaces(t, u) && Sound(t)
    ensures Sound(u)
  {
    forall k | k in u.nodes
      ensures u.nodes[k].parent == t.nodes[k].parent && u.nodes[k].children == t.nodes[k].children && u.nodes[k].id == t.nodes[k].id
    {
      assert u.nodes[k].(info := NO_INFO) == t.nodes[k].(info := NO_INFO);
    }
  }

  lemma {:induction false} PlacesKeepRanks(t: Tree, u: Tree)
    requires SamePlaces(t, u)
    ensures Ranked(t.nodes) <==> Ranked(u.nodes)
  {
    hide Rank;
    forall k | k in u.nodes ensures u.nodes[k].parent == t.nodes[k].parent && u.nodes[k].kind == t.nodes[k].kind {
      assert u.nodes[k].(info := NO_INFO) == t.nodes[k].(info := NO_INFO);
    }
  }

  /** Noting something about a node changes nothing else. */
  lemma {:induction false} NotedStays(t: Tree, id: string, info: Info, ids: set<string>)
    requires Forest(t) || Sound(t)
    ensures var u := Noted(t, id, info);
            Sound(u) && (Forest(t) <==> Forest(u)) && Grows(t, u, ids)
  {
    hide Noted, Mutual, Indexed, Ranked;
    var u := Noted(t, id, info);
    NotedPlaces(t, id, info);
    PlacesKeepSound(t, u);
    PlacesKeepRanks(t, u);
    forall k | k in t.nodes ensures u.nodes[k].kind == t.nodes[k].kind {
      assert u.nodes[k].(info := NO_INFO) == t.nodes[k].(info := NO_INFO);
    }
  }

  /** Nodes are never lost and never change their kind; what is new is an agent session or has an id of `ids`. */
  ghost predicate Grows(t: Tree, u: Tree, ids: set<string>) {
    && (forall id :: id in t.nodes ==> id in u.nodes && u.nodes[id].kind == t.nodes[id].kind)
    && (forall id :: id in u.nodes && id !in t.nodes ==> u.nodes[id].kind == AgentSessionNode || id in ids)
  }

  /** The nil node, or a node of that kind. */
  predicate Placed(t: Tree, kind: Kind, id: string) {
    id == "" || Is(t, kind, id)
  }

  lemma StepsGrow(t: Tree, kind: Kind, id: string, parent: string, info: Info, ids: set<string>)
    ensures kind == AgentSessionNode || id in ids ==> Grows(t, Ensured(t, kind, id), ids)
    ensures Grows(t, Linked(t, id, parent), ids) && Grows(t, Noted(t, id, info), ids)
  {
  }

  lemma PlacedGrows(t: Tree, u: Tree, kind: Kind, id: string, ids: set<string>)
    requires Grows(t, u, ids) && Placed(t, kind, id)
    ensures Placed(u, kind, id)
  {
  }

  /** A node of the event's envelope and its link to the node one level up. */
  function Attached(t: Tree, kind: Kind, id: string, parent: string): Tree {
    var u := Ensured(t, kind, id);
    Linked(u, Found(u, kind, id), parent)
  }

  lemma {:induction false} AttachedIsForest(t: Tree, kind: Kind, id: string, above: Kind, parent: string, ids: set<string>)
    requires Forest(t) && Placed(t, above, parent) && Rank(above) < Rank(kind) && id in ids
    ensures var u := Attached(t, kind, id, parent);
            Forest(u) && Grows(t, u, ids) && Placed(u, kind, Found(u, kind, id))
  {
    hide Mutual, Indexed, Ranked, Linked, Ensured;
    var u := Ensured(t, kind, id);
    var child := Found(u, kind, id);
    EnsuredIsSound(t, kind, id);
    StepsGrow(t, kind, id, parent, NO_INFO, ids);
    PlacedGrows(t, u, above, parent, ids);
    LinkedIsSound(u, child, parent);
    LinkedIsRanked(u, child, parent);
    StepsGrow(u, kind, child, parent, NO_INFO, ids);
    NilIsNoNode(u);
  }

  lemma NilIsNoNode(t: Tree)
    requires Indexed(t)
    ensures "" !in t.nodes
  {
  }

  lemma {:induction false} TrackedIsForest(t: Tree, kind: Kind, id: string, status: string, attempt: int, ids: set<string>)
    requires Forest(t) && (kind == AgentSessionNode || id in ids)
    ensures Forest(Tracked(t, kind, id, status, attempt)) && Grows(t, Tracked(t, kind, id, status, attempt), ids)
  {
    hide Mutual, Indexed, Ranked, Ensured, Noted, Pick, Grows;
    var u := Ensured(t, kind, id);
    EnsuredIsSound(t, kind, id);
    StepsGrow(t, kind, id, "", NO_INFO, ids);
    if Found(u, kind, id) != "" {
      var info := u.nodes[id].info;
      var noted := info.(status := Pick(status, info.status), attempt := if attempt > 0 then attempt else info.attempt);
      NotedStays(u, id, noted, ids);
      GrowsOn(t, u, Noted(u, id, noted), ids);
    }
  }

  // One event.

  /** The five envelope nodes and the tree that holds them. */
  datatype Scope = Scope(tree: Tree, flowSession: string, flowTurn: string, teamSession: string, teamTurn: string, callTurn: string)

  function Enveloped(t: Tree, e: Event): Scope {
    var t1 := Ensured(t, FlowSessionNode, e.flowSessionId);
    var flowSession := Found(t1, FlowSessionNode, e.flowSessionId);
    var t2 := Attached(t1, FlowTurnNode, e.flowTurnId, flowSession);
    var flowTurn := Found(t2, FlowTurnNode, e.flowTurnId);
    var t3 := Attached(t2, TeamSessionNode, e.teamSessionId, flowSession);
    var teamSession := Found(t3, TeamSessionNode, e.teamSessionId);
    var t4 := Attached(t3, TeamTurnNode, e.teamTurnId, flowTurn);
    var teamTurn := Found(t4, TeamTurnNode, e.teamTurnId);
    var t5 := Attached(t4, CallTurnNode, e.callTurnId, teamTurn);
    Scope(t5, flowSession, flowTurn, teamSession, teamTurn, Found(t5, CallTurnNode, e.callTurnId))
  }

  function ScopeNoted(t: Tree, id: string, e: Event): Tree {
    Noted(t, id, Scoped(InfoOf(t, id), e))
  }

  function AgentNoted(t: Tree, id: string, agentId: string): Tree {
    Noted(t, id, InfoOf(t, id).(agentId := Pick(InfoOf(t, id).agentId, agentId)))
  }

  /** The envelope is in place, and its nodes know their scope. */
  function InScope(s: Scope, e: Event): Tree {
    ScopeNoted(ScopeNoted(ScopeNoted(ScopeNoted(ScopeNoted(
      s.tree, s.flowSession, e), s.flowTurn, e), s.teamSession, e), s.teamTurn, e), s.callTurn, e)
  }

  function Named(of: Option<(string, string)>, id: string, status: string): (string, string) {
    match of
    case None => (id, status)
    case Some((own, now)) => (Pick(own, id), now)
  }

  /** applyTurnLifecycle */
  function Lifecycle(t: Tree, e: Event, teamSession: string): Tree {
    match e.payload
    case FlowSession(id, status) => Tracked(t, FlowSessionNode, id, status, 0)
    case TeamSession(id, status) => Tracked(t, TeamSessionNode, id, status, 0)
    case AgentSession(id, status, teamSessionId, callId, agentId) =>
      var u := Tracked(t, AgentSessionNode, id, status, 0);
      if id !in u.nodes then u
      else
        var info := Scoped(u.nodes[id].info, e).(teamSessionId := teamSessionId, callId := callId, agentId := agentId);
        Linked(Noted(u, id, info), id, teamSession)
    case FlowTurn(id, status, attempt) => Tracked(t, FlowTurnNode, Pick(id, e.flowTurnId), status, attempt)
    case TeamTurn(turn, result) =>
      var (first, was) := Named(turn, e.teamTurnId, "");
      var (id, status) := Named(result, first, was);
      Tracked(t, TeamTurnNode, id, status, e.attempt)
    case CallStarted(call) =>
      var u := if call.Some? then Ensured(t, CallTurnNode, e.callTurnId) else t;
      var v := if call.Some? && Found(u, CallTurnNode, e.callTurnId) != "" then AgentNoted(u, e.callTurnId, call.value) else u;
      Tracked(v, CallTurnNode, e.callTurnId, "running", e.attempt)
    case CallCompleted(outcome) =>
      if outcome.None? then t
      else
        var id := Pick(outcome.value.callTurnId, e.callTurnId);
        AgentNoted(Tracked(t, CallTurnNode, id, outcome.value.status, e.attempt), id, outcome.value.agentId)
    case CallWaiting(outcome) =>
      var status := if outcome.Some? && outcome.value.status != "" then outcome.value.status else "waiting";
      Tracked(t, CallTurnNode, e.callTurnId, status, e.attempt)
    case Other => t
  }

  /** The most specific id an event names. */
  function Owner(e: Event): string {
    Pick(e.callTurnId, Pick(e.teamTurnId, Pick(e.flowTurnId, e.flowSessionId)))
  }

  function Bounded(t: Tree, id: string, seqNo: int): Tree {
    var info := InfoOf(t, id);
    Noted(t, id, info.(firstSeq := if info.firstSeq == 0 || seqNo < info.firstSeq then seqNo else info.firstSeq,
                       lastSeq := if seqNo > info.lastSeq then seqNo else info.lastSeq))
  }

  /** addEvent */
  function Added(t: Tree, e: Event): Tree {
    var s := Enveloped(t, e);
    Bounded(Lifecycle(InScope(s, e), e, s.teamSession), Owner(e), e.seqNo)
  }

  /** NewGraph */
  function Built(t: Tree, events: seq<Event>): Tree {
    if events == [] then t else Added(Built(t, events[..|events| - 1]), events[|events| - 1])
  }

  lemma {:induction false} EnvelopedIsForest(t: Tree, e: Event, ids: set<string>)
    requires Forest(t) && {e.flowSessionId, e.flowTurnId, e.teamSessionId, e.teamTurnId, e.callTurnId} <= ids
    ensures var s := Enveloped(t, e);
            Forest(s.tree) && Grows(t, s.tree, ids) && Placed(s.tree, TeamSessionNode, s.teamSession)
  {
    hide Forest, Attached, Ensured, Is, Grows;
    var t1 := Ensured(t, FlowSessionNode, e.flowSessionId);
    var flowSession := Found(t1, FlowSessionNode, e.flowSessionId);
    EnsuredIsForest(t, FlowSessionNode, e.flowSessionId, ids);
    AttachedIsForest(t1, FlowTurnNode, e.flowTurnId, FlowSessionNode, flowSession, ids);
    var t2 := Attached(t1, FlowTurnNode, e.flowTurnId, flowSession);
    PlacedGrows(t1, t2, FlowSessionNode, flowSession, ids);
    AttachedIsForest(t2, TeamSessionNode, e.teamSessionId, FlowSessionNode, flowSession, ids);
    var t3 := Attached(t2, TeamSessionNode, e.teamSessionId, flowSession);
    var flowTurn, teamSession := Found(t2, FlowTurnNode, e.flowTurnId), Found(t3, TeamSessionNode, e.teamSessionId);
    PlacedGrows(t2, t3, FlowTurnNode, flowTurn, ids);
    AttachedIsForest(t3, TeamTurnNode, e.teamTurnId, FlowTurnNode, flowTurn, ids);
    var t4 := Attached(t3, TeamTurnNode, e.teamTurnId, flowTurn);
    PlacedGrows(t3, t4, TeamSessionNode, teamSession, ids);
    var teamTurn := Found(t4, TeamTurnNode, e.teamTurnId);
    AttachedIsForest(t4, CallTurnNode, e.callTurnId, TeamTurnNode, teamTurn, ids);
    var t5 := Attached(t4, CallTurnNode, e.callTurnId, teamTurn);
    PlacedGrows(t4, t5, TeamSessionNode, teamSession, ids);
    GrowsOn(t, t1, t2, ids); GrowsOn(t, t2, t3, ids); GrowsOn(t, t3, t4, ids); GrowsOn(t, t4, t5, ids);
  }

  lemma EnsuredIsForest(t: Tree, kind: Kind, id: string, ids: set<string>)
    requires Forest(t) && id in ids
    ensures var u := Ensured(t, kind, id);
            Forest(u) && Grows(t, u, ids) && Placed(u, kind, Found(u, kind, id))
  {
    hide Mutual, Indexed, Ranked;
    EnsuredIsSound(t, kind, id);
  }

  lemma GrowsOn(t: Tree, u: Tree, v: Tree, ids: set<string>)
    requires Grows(t, u, ids) && Grows(u, v, ids)
    ensures Grows(t, v, ids)
  {
  }

  lemma {:induction false} InScopeIsForest(s: Scope, e: Event, ids: set<string>)
    requires Forest(s.tree)
    ensures Forest(InScope(s, e)) && Grows(s.tree, InScope(s, e), ids)
  {
    hide Forest, Noted, Grows;
    var t1 := ScopeNoted(s.tree, s.flowSession, e);
    var t2 := ScopeNoted(t1, s.flowTurn, e);
    var t3 := ScopeNoted(t2, s.teamSession, e);
    var t4 := ScopeNoted(t3, s.teamTurn, e);
    NotedStays(s.tree, s.flowSession, Scoped(InfoOf(s.tree, s.flowSession), e), ids);
    NotedStays(t1, s.flowTurn, Scoped(InfoOf(t1, s.flowTurn), e), ids);
    NotedStays(t2, s.teamSession, Scoped(InfoOf(t2, s.teamSession), e), ids);
    NotedStays(t3, s.teamTurn, Scoped(InfoOf(t3, s.teamTurn), e), ids);
    NotedStays(t4, s.callTurn, Scoped(InfoOf(t4, s.callTurn), e), ids);
    GrowsOn(s.tree, t1, t2, ids); GrowsOn(s.tree, t2, t3, ids); GrowsOn(s.tree, t3, t4, ids); GrowsOn(s.tree, t4, InScope(s, e), ids);
  }

  /**
   * An agent session event whose id already names a node of another kind, not yet owned and on no
   * lower level than the team session: the one way to spoil the levels.
   */
  predicate Collides(t: Tree, e: Event) {
    e.payload.AgentSession? &&
    var s := Enveloped(t, e);
    Misplaces(InScope(s, e), e.payload.id, s.teamSession)
  }

  /** The same nodes in the same places, but for a newcomer of the agent kind. */
  lemma {:induction false} TrackedPlaces(t: Tree, id: string, status: string)
    ensures var u := Tracked(t, AgentSessionNode, id, status, 0);
            && (forall k :: k in t.nodes ==> k in u.nodes && u.nodes[k].kind == t.nodes[k].kind && u.nodes[k].parent == t.nodes[k].parent)
            && (forall k :: k in u.nodes && k !in t.nodes ==> k == id && id != "" && u.nodes[k].kind == AgentSessionNode)
  {
  }

  /** Tracking and noting do not decide where a link would lead. */
  lemma {:induction false} AgentSessionPlaces(t: Tree, id: string, status: string, teamSession: string, info: Info)
    requires Indexed(t) && Placed(t, TeamSessionNode, teamSession)
    ensures var u := Tracked(t, AgentSessionNode, id, status, 0);
            Misplaces(Noted(u, id, info), id, teamSession) <==> Misplaces(t, id, teamSession)
  {
    hide Indexed, Tracked;
    var u := Tracked(t, AgentSessionNode, id, status, 0);
    NilIsNoNode(t);
    TrackedPlaces(t, id, status);
    var v := Noted(u, id, info);
    assert v.nodes.Keys == u.nodes.Keys;
    forall k | k in u.nodes ensures v.nodes[k].kind == u.nodes[k].kind && v.nodes[k].parent == u.nodes[k].parent {}
  }

  lemma {:induction false} AgentSessionForest(t: Tree, e: Event, teamSession: string)
    requires Forest(t) && e.payload.AgentSession? && Placed(t, TeamSessionNode, teamSession)
    ensures var u := Lifecycle(t, e, teamSession);
            Sound(u) && (Ranked(u.nodes) <==> !Misplaces(t, e.payload.id, teamSession)) && Grows(t, u, {})
  {
    hide Mutual, Indexed, Ranked, Linked, Tracked, Noted;
    var id := e.payload.id;
    var u := Tracked(t, AgentSessionNode, id, e.payload.status, 0);
    TrackedIsForest(t, AgentSessionNode, id, e.payload.status, 0, {});
    if id in u.nodes {
      var info := Scoped(u.nodes[id].info, e).(teamSessionId := e.payload.teamSessionId, callId := e.payload.callId,
                                                agentId := e.payload.agentId);
      NotedStays(u, id, info, {});
      GrowsOn(t, u, Noted(u, id, info), {});
      StepsGrow(Noted(u, id, info), AgentSessionNode, id, teamSession, info, {});
      GrowsOn(t, Noted(u, id, info), Linked(Noted(u, id, info), id, teamSession), {});
      LinkedIsSound(Noted(u, id, info), id, teamSession);
      LinkedIsRanked(Noted(u, id, info), id, teamSession);
      AgentSessionPlaces(t, id, e.payload.status, teamSession, info);
    }
  }

  lemma {:induction false} LifecycleIsForest(t: Tree, e: Event, teamSession: string)
    requires Forest(t) && !e.payload.AgentSession?
    ensures Forest(Lifecycle(t, e, teamSession)) && Grows(t, Lifecycle(t, e, teamSession), OtherIds(e))
  {
    hide Forest, Tracked, Ensured, AgentNoted, Grows;
    var ids := OtherIds(e);
    match e.payload
    case FlowSession(id, status) => TrackedIsForest(t, FlowSessionNode, id, status, 0, ids);
    case TeamSession(id, status) => TrackedIsForest(t, TeamSessionNode, id, status, 0, ids);
    case FlowTurn(id, status, attempt) => TrackedIsForest(t, FlowTurnNode, Pick(id, e.flowTurnId), status, attempt, ids);
    case TeamTurn(turn, result) =>
      var (first, was) := Named(turn, e.teamTurnId, "");
      var (id, status) := Named(result, first, was);
      TrackedIsForest(t, TeamTurnNode, id, status, e.attempt, ids);
    case CallStarted(call) => CallStartedIsForest(t, e, teamSession);
    case CallCompleted(outcome) => CallCompletedIsForest(t, e, teamSession);
    case CallWaiting(outcome) =>
      var status := if outcome.Some? && outcome.value.status != "" then outcome.value.status else "waiting";
      TrackedIsForest(t, CallTurnNode, e.callTurnId, status, e.attempt, ids);
    case Other => GrowsItself(t, ids);
  }

  lemma GrowsItself(t: Tree, ids: set<string>)
    ensures Grows(t, t, ids)
  {
  }

  lemma {:induction false} CallStartedIsForest(t: Tree, e: Event, teamSession: string)
    requires Forest(t) && e.payload.CallStarted?
    ensures Forest(Lifecycle(t, e, teamSession)) && Grows(t, Lifecycle(t, e, teamSession), OtherIds(e))
  {
    hide Forest, Tracked, Ensured, Noted, Grows;
    var call, ids := e.payload.call, OtherIds(e);
    var u := if call.Some? then Ensured(t, CallTurnNode, e.callTurnId) else t;
    EnsuredIsForest(t, CallTurnNode, e.callTurnId, ids);
    GrowsItself(t, ids); GrowsItself(u, ids);
    var named := call.Some? && Found(u, CallTurnNode, e.callTurnId) != "";
    var v := if named then AgentNoted(u, e.callTurnId, call.value) else u;
    if named { NotedStays(u, e.callTurnId, InfoOf(u, e.callTurnId).(agentId := Pick(InfoOf(u, e.callTurnId).agentId, call.value)), ids); }
    GrowsOn(t, u, v, ids);
    TrackedIsForest(v, CallTurnNode, e.callTurnId, "running", e.attempt, ids);
    GrowsOn(t, v, Tracked(v, CallTurnNode, e.callTurnId, "running", e.attempt), ids);
  }

  lemma {:induction false} CallCompletedIsForest(t: Tree, e: Event, teamSession: string)
    requires Forest(t) && e.payload.CallCompleted?
    ensures Forest(Lifecycle(t, e, teamSession)) && Grows(t, Lifecycle(t, e, teamSession), OtherIds(e))
  {
    hide Forest, Tracked, Noted, Grows;
    var ids := OtherIds(e);
    GrowsItself(t, ids);
    if e.payload.outcome.Some? {
      var result := e.payload.outcome.value;
      var id := Pick(result.callTurnId, e.callTurnId);
      var u := Tracked(t, CallTurnNode, id, result.status, e.attempt);
      TrackedIsForest(t, CallTurnNode, id, result.status, e.attempt, ids);
      NotedStays(u, id, InfoOf(u, id).(agentId := Pick(InfoOf(u, id).agentId, result.agentId)), ids);
      GrowsOn(t, u, AgentNoted(u, id, result.agentId), ids);
    }
  }

  /** One event keeps the forest exactly when its agent session, if it reports one, does not collide. */
  lemma {:induction false} AddedIsForestIff(t: Tree, e: Event)
    requires Forest(t)
    ensures Sound(Added(t, e)) && (Forest(Added(t, e)) <==> !Collides(t, e))
    ensures Grows(t, Added(t, e), OtherIds(e))
  {
    hide Sound, Ranked, Enveloped, InScope, Lifecycle, Noted, Misplaces, Grows, OtherIds;
    var s, ids := Enveloped(t, e), OtherIds(e);
    EnvelopeIds(e);
    EnvelopedIsForest(t, e, ids);
    var u := InScope(s, e);
    InScopeIsForest(s, e, ids);
    PlacedGrows(s.tree, u, TeamSessionNode, s.teamSession, ids);
    GrowsOn(t, s.tree, u, ids);
    var v := Lifecycle(u, e, s.teamSession);
    if e.payload.AgentSession? {
      AgentSessionForest(u, e, s.teamSession);
      GrowsMore(u, v, {}, ids);
    } else {
      LifecycleIsForest(u, e, s.teamSession);
    }
    GrowsOn(t, u, v, ids);
    var info := InfoOf(v, Owner(e));
    NotedStays(v, Owner(e), info.(firstSeq := if info.firstSeq == 0 || e.seqNo < info.firstSeq then e.seqNo else info.firstSeq,
                                  lastSeq := if e.seqNo > info.lastSeq then e.seqNo else info.lastSeq), ids);
    GrowsOn(t, v, Bounded(v, Owner(e), e.seqNo), ids);
  }

  lemma GrowsMore(t: Tree, u: Tree, ids: set<string>, more: set<string>)
    requires Grows(t, u, ids) && ids <= more
    ensures Grows(t, u, more)
  {
  }

  // Whole logs.

  /** The ids an event uses for anything but an agent session. */
  function OtherIds(e: Event): set<string> {
    {e.flowSessionId, e.flowTurnId, e.teamSessionId, e.teamTurnId, e.callTurnId}
    + match e.payload
      case FlowSession(id, _) => {id}
      case TeamSession(id, _) => {id}
      case FlowTurn(id, _, _) => {id}
      case TeamTurn(turn, result) =>
        (if turn.Some? then {turn.value.0} else {}) + (if result.Some? then {result.value.0} else {})
      case CallCompleted(outcome) => if outcome.Some? then {outcome.value.callTurnId} else {}
      case _ => {}
  }

  function AllOtherIds(events: seq<Event>): set<string> {
    if events == [] then {} else AllOtherIds(events[..|events| - 1]) + OtherIds(events[|events| - 1])
  }

  /** No agent session has the id of anything else. */
  predicate AgentIdsApart(events: seq<Event>) {
    forall i :: 0 <= i < |events| && events[i].payload.AgentSession? ==> events[i].payload.id !in AllOtherIds(events)
  }

  /** Every node that is no agent session has an id of `ids`. */
  ghost predicate Known(t: Tree, ids: set<string>) {
    forall k :: k in t.nodes ==> t.nodes[k].kind == AgentSessionNode || k in ids
  }

  lemma KnownGrows(t: Tree, u: Tree, ids: set<string>, more: set<string>)
    requires Known(t, ids) && Grows(t, u, more)
    ensures Known(u, ids + more)
  {
  }

  lemma EnvelopeIds(e: Event)
    ensures {e.flowSessionId, e.flowTurnId, e.teamSessionId, e.teamTurnId, e.callTurnId} <= OtherIds(e)
  {
  }

  /** Without a shared id there is no collision. */
  lemma {:induction false} ApartNeverCollides(t: Tree, e: Event, ids: set<string>)
    requires Forest(t) && Known(t, ids)
    requires e.payload.AgentSession? ==> e.payload.id !in ids + OtherIds(e)
    ensures !Collides(t, e)
  {
    hide Known, Enveloped, InScope, OtherIds, Forest, Grows;
    if e.payload.AgentSession? {
      var s, more := Enveloped(t, e), OtherIds(e);
      EnvelopeIds(e);
      EnvelopedIsForest(t, e, more);
      InScopeIsForest(s, e, more);
      PlacedGrows(s.tree, InScope(s, e), TeamSessionNode, s.teamSession, more);
      GrowsOn(t, s.tree, InScope(s, e), more);
      KnownGrows(t, InScope(s, e), ids, more);
      AgentIsNotMisplaced(InScope(s, e), e.payload.id, s.teamSession, ids + more);
    }
  }

  lemma AgentIsNotMisplaced(t: Tree, id: string, teamSession: string, ids: set<string>)
    requires Forest(t) && Known(t, ids) && id !in ids && Placed(t, TeamSessionNode, teamSession)
    ensures !Misplaces(t, id, teamSession)
  {
    NilIsNoNode(t);
  }

  lemma {:induction false} OthersGrow(events: seq<Event>, i: nat)
    requires i <= |events|
    ensures AllOtherIds(events[..i]) <= AllOtherIds(events)
  {
    if i < |events| {
      OthersGrow(events[..|events| - 1], i);
      assert events[..|events| - 1][..i] == events[..i];
    } else {
      assert events[..i] == events;
    }
  }

  /** Any log whose agent sessions share no id with anything else builds a forest. */
  lemma {:induction false} BuiltIsForest(events: seq<Event>)
    requires AgentIdsApart(events)
    ensures Forest(Built(EMPTY, events)) && Known(Built(EMPTY, events), AllOtherIds(events))
  {
    hide Forest, Known, Added, OtherIds, Collides, Grows;
    if events == [] {
      EmptyIsForest();
    } else {
      var n, ids := |events| - 1, AllOtherIds(events);
      var before, e := events[..n], events[n];
      OthersGrow(events, n);
      forall i | 0 <= i < n && before[i].payload.AgentSession? ensures before[i].payload.id !in AllOtherIds(before) {
        assert before[i] == events[i];
      }
      BuiltIsForest(before);
      var t := Built(EMPTY, before);
      ApartNeverCollides(t, e, AllOtherIds(before));
      AddedIsForestIff(t, e);
      KnownGrows(t, Added(t, e), AllOtherIds(before), OtherIds(e));
    }
  }

  lemma EmptyIsForest()
    ensures Forest(EMPTY) && Known(EMPTY, {})
  {
  }

  /** Where the promise ends: an agent session with the id of its own flow session closes a circle of owners. */
  lemma {:induction false} SharedIdClosesCircle(e: Event)
    requires e.payload.AgentSession? && e.payload.id == e.flowSessionId != "" && e.teamSessionId != "" && e.teamSessionId != e.flowSessionId
    requires e.flowTurnId == "" && e.teamTurnId == "" && e.callTurnId == ""
    ensures Collides(EMPTY, e) && !Forest(Built(EMPTY, [e]))
    ensures var nodes, flow, team := Built(EMPTY, [e]).nodes, e.flowSessionId, e.teamSessionId;
            && flow in nodes && team in nodes
            && nodes[flow].parent == team && nodes[team].parent == flow
            && team in nodes[flow].children && flow in nodes[team].children
  {
    hide Forest, Added, InScope, SamePlaces, Lifecycle;
    var t1 := Ensured(EMPTY, FlowSessionNode, e.flowSessionId);
    var t2 := Attached(t1, TeamSessionNode, e.teamSessionId, e.flowSessionId);
    var s := Enveloped(EMPTY, e);
    assert s.tree == t2 && s.teamSession == e.teamSessionId && Misplaces(t2, e.flowSessionId, e.teamSessionId);
    InScopePlaces(s, e);
    PlacesKeepMisplaced(t2, InScope(s, e), e.flowSessionId, e.teamSessionId);
    EmptyIsForest();
    AddedIsForestIff(EMPTY, e);
    assert [e][..0] == [];
    CircleIsClosed(t2, InScope(s, e), e, e.teamSessionId);
    AddedIsBounded(EMPTY, e);
  }

  lemma AddedIsBounded(t: Tree, e: Event)
    ensures var s := Enveloped(t, e);
            Added(t, e) == Bounded(Lifecycle(InScope(s, e), e, s.teamSession), Owner(e), e.seqNo)
  {
  }

  /** The second link of the circle, behind the first. */
  lemma {:induction false} CircleIsClosed(before: Tree, t: Tree, e: Event, team: string)
    requires SamePlaces(before, t) && e.payload.AgentSession?
    requires var id := e.payload.id;
             && id != "" && team != id && id in before.nodes && team in before.nodes
             && before.nodes[id].kind == FlowSessionNode && before.nodes[id].parent == "" && before.nodes[id].children == [team]
             && before.nodes[team].parent == id
    ensures var nodes, id := Bounded(Lifecycle(t, e, team), Owner(e), e.seqNo).nodes, e.payload.id;
            && id in nodes && team in nodes
            && nodes[id].parent == team && nodes[team].parent == id
            && team in nodes[id].children && id in nodes[team].children
  {
    hide Scoped;
    var id := e.payload.id;
    assert t.nodes[id].(info := NO_INFO) == before.nodes[id].(info := NO_INFO);
    assert t.nodes[team].(info := NO_INFO) == before.nodes[team].(info := NO_INFO);
    assert Tracked(t, AgentSessionNode, id, e.payload.status, 0) == t;
  }

  lemma {:induction false} InScopePlaces(s: Scope, e: Event)
    ensures SamePlaces(s.tree, InScope(s, e))
  {
    hide Noted, Scoped;
    var t1 := ScopeNoted(s.tree, s.flowSession, e);
    var t2 := ScopeNoted(t1, s.flowTurn, e);
    var t3 := ScopeNoted(t2, s.teamSession, e);
    var t4 := ScopeNoted(t3, s.teamTurn, e);
    NotedPlaces(s.tree, s.flowSession, Scoped(InfoOf(s.tree, s.flowSession), e));
    NotedPlaces(t1, s.flowTurn, Scoped(InfoOf(t1, s.flowTurn), e));
    NotedPlaces(t2, s.teamSession, Scoped(InfoOf(t2, s.teamSession), e));
    NotedPlaces(t3, s.teamTurn, Scoped(InfoOf(t3, s.teamTurn), e));
    NotedPlaces(t4, s.callTurn, Scoped(InfoOf(t4, s.callTurn), e));
  }

  lemma PlacesKeepMisplaced(t: Tree, u: Tree, child: string, parent: string)
    requires SamePlaces(t, u) && Misplaces(t, child, parent)
    ensures Misplaces(u, child, parent)
  {
    assert u.nodes[child].(info := NO_INFO) == t.nodes[child].(info := NO_INFO);
    assert u.nodes[parent].(info := NO_INFO) == t.nodes[parent].(info := NO_INFO);
  }
}
