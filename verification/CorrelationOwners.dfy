/** Who owns whom in the graph of a log, said of the events themselves. */
module CorrelationOwners {
  import opened Wrappers
  import opened SessionEvents
  import opened CorrelationGraph

  function ParentOf(t: Tree, id: string): string {
    if id in t.nodes then t.nodes[id].parent else ""
  }

  /** An event names `owner`, of kind `above`, as the owner of `id`. */
  datatype Bond = Bond(kind: Kind, id: string, above: Kind, owner: string)

  /** The bonds of an event: a flow session owns its turns and its teams' sessions, a turn what runs in it, a team session its agents'. */
  function Bonds(e: Event): seq<Bond> {
    EnvelopeBonds(e) + if e.payload.AgentSession? then [AgentBond(e)] else []
  }

  function EnvelopeBonds(e: Event): seq<Bond> {
    [Bond(FlowTurnNode, e.flowTurnId, FlowSessionNode, e.flowSessionId),
     Bond(TeamSessionNode, e.teamSessionId, FlowSessionNode, e.flowSessionId),
     Bond(TeamTurnNode, e.teamTurnId, FlowTurnNode, e.flowTurnId),
     Bond(CallTurnNode, e.callTurnId, TeamTurnNode, e.teamTurnId)]
  }

  function AgentBond(e: Event): Bond
    requires e.payload.AgentSession?
  {
    Bond(AgentSessionNode, e.payload.id, TeamSessionNode, e.teamSessionId)
  }

  /** Both ends of the bond are there under their kinds; only an agent's session is linked whatever its id stands for. */
  predicate Ties(u: Tree, b: Bond) {
    b.id in u.nodes && (b.kind == AgentSessionNode || u.nodes[b.id].kind == b.kind) && Is(u, b.above, b.owner) && b.owner != b.id
  }

  /** The first of the bonds that ties the node. */
  function Given(u: Tree, bonds: seq<Bond>, id: string): string {
    if bonds == [] then ""
    else if bonds[0].id == id && Ties(u, bonds[0]) then bonds[0].owner
    else Given(u, bonds[1..], id)
  }

  function EnvelopeMentions(e: Event): seq<(Kind, string)> {
    [(FlowSessionNode, e.flowSessionId), (FlowTurnNode, e.flowTurnId), (TeamSessionNode, e.teamSessionId),
     (TeamTurnNode, e.teamTurnId), (CallTurnNode, e.callTurnId)]
  }

  /** The ids of an event, each with the kind that its place gives it: the envelope's, and that of the node it reports on. */
  function Mentions(e: Event): seq<(Kind, string)> {
    EnvelopeMentions(e)
    + match Reports(e)
      case None => []
      case Some(report) => [(report.kind, report.id)]
  }

  /** The node whose state an event reports. */
  datatype Report = Report(kind: Kind, id: string, status: string, attempt: int)

  function Reports(e: Event): Option<Report> {
    match e.payload
    case FlowSession(id, status) => Some(Report(FlowSessionNode, id, status, 0))
    case TeamSession(id, status) => Some(Report(TeamSessionNode, id, status, 0))
    case AgentSession(id, status, _, _, _) => Some(Report(AgentSessionNode, id, status, 0))
    case FlowTurn(id, status, attempt) => Some(Report(FlowTurnNode, if id != "" then id else e.flowTurnId, status, attempt))
    case TeamTurn(turn, result) =>
      var id := if result.Some? && result.value.0 != "" then result.value.0
                else if turn.Some? && turn.value.0 != "" then turn.value.0
                else e.teamTurnId;
      var status := if result.Some? then result.value.1 else if turn.Some? then turn.value.1 else "";
      Some(Report(TeamTurnNode, id, status, e.attempt))
    case CallStarted(_) => Some(Report(CallTurnNode, e.callTurnId, "running", e.attempt))
    case CallCompleted(None) => None
    case CallCompleted(Some(result)) =>
      Some(Report(CallTurnNode, if result.callTurnId != "" then result.callTurnId else e.callTurnId, result.status, e.attempt))
    case CallWaiting(outcome) =>
      Some(Report(CallTurnNode, e.callTurnId, if outcome.Some? && outcome.value.status != "" then outcome.value.status else "waiting", e.attempt))
    case Other => None
  }

  // Steps.

  /** Nodes stay, under their kinds. */
  predicate Extends(t: Tree, u: Tree) {
    forall k :: k in t.nodes ==> k in u.nodes && u.nodes[k].kind == t.nodes[k].kind
  }

  ghost predicate SameOwners(t: Tree, u: Tree) {
    forall x :: ParentOf(u, x) == ParentOf(t, x)
  }

  lemma EnsureStep(t: Tree, kind: Kind, id: string)
    ensures var u := Ensured(t, kind, id);
            && Extends(t, u) && SameOwners(t, u) && (id != "" ==> id in u.nodes)
            && forall k :: k in u.nodes && k !in t.nodes ==> k == id && id != "" && u.nodes[k].kind == kind
  {
  }

  lemma LinkStep(t: Tree, child: string, parent: string)
    ensures var u := Linked(t, child, parent);
            && Extends(t, u) && u.nodes.Keys == t.nodes.Keys
            && forall x :: ParentOf(u, x) ==
                 if x == child && child in t.nodes && parent in t.nodes && child != parent && ParentOf(t, child) == "" then parent
                 else ParentOf(t, x)
  {
  }

  lemma NoteStep(t: Tree, id: string, info: Info)
    ensures var u := Noted(t, id, info);
            Extends(t, u) && u.nodes.Keys == t.nodes.Keys && SameOwners(t, u)
  {
  }

  lemma ExtendsOn(t: Tree, u: Tree, v: Tree)
    requires Extends(t, u) && Extends(u, v)
    ensures Extends(t, v)
  {
  }

  /** An attached node gets the owner if it is of its kind, the owner is there, and it had none. */
  lemma AttachStep(t: Tree, kind: Kind, id: string, parent: string)
    requires "" !in t.nodes
    ensures var u := Attached(t, kind, id, parent);
            && Extends(t, u) && "" !in u.nodes && (id != "" ==> id in u.nodes)
            && (forall k :: k in u.nodes && k !in t.nodes ==> k == id && id != "" && u.nodes[k].kind == kind)
            && forall x :: ParentOf(u, x) ==
                 if x == id && Is(u, kind, id) && parent in u.nodes && id != parent && ParentOf(t, x) == "" then parent
                 else ParentOf(t, x)
  {
    hide Linked;
    var v := Ensured(t, kind, id);
    EnsureStep(t, kind, id);
    LinkStep(v, Found(v, kind, id), parent);
  }

  lemma TrackStep(t: Tree, kind: Kind, id: string, status: string, attempt: int)
    requires "" !in t.nodes
    ensures var u := Tracked(t, kind, id, status, attempt);
            && Extends(t, u) && SameOwners(t, u) && "" !in u.nodes && (id != "" ==> id in u.nodes)
            && forall k :: k in u.nodes && k !in t.nodes ==> k == id && id != "" && u.nodes[k].kind == kind
  {
    hide Ensured, Noted, Pick;
    var u := Ensured(t, kind, id);
    EnsureStep(t, kind, id);
    if Found(u, kind, id) != "" {
      var info := u.nodes[id].info;
      NoteStep(u, id, info.(status := Pick(status, info.status), attempt := if attempt > 0 then attempt else info.attempt));
    }
  }

  /** Given by the bonds so far, as they stand in `u`. */
  ghost predicate OwnedBy(t: Tree, now: Tree, u: Tree, bonds: seq<Bond>) {
    forall x :: ParentOf(now, x) == if ParentOf(t, x) != "" then ParentOf(t, x) else Given(u, bonds, x)
  }

  lemma {:induction false} GivenAppend(u: Tree, bonds: seq<Bond>, b: Bond, id: string)
    ensures Given(u, bonds + [b], id) ==
      if Given(u, bonds, id) != "" then Given(u, bonds, id) else if b.id == id && Ties(u, b) then b.owner else ""
    requires "" !in u.nodes
  {
    hide Ties;
    if bonds == [] {
      assert bonds + [b] == [b] && [b][1..] == [];
    } else {
      assert (bonds + [b])[1..] == bonds[1..] + [b];
      if bonds[0].id == id && Ties(u, bonds[0]) { TiedOwnerIsNode(u, bonds[0]); }
      GivenAppend(u, bonds[1..], b, id);
    }
  }

  lemma TiedOwnerIsNode(u: Tree, b: Bond)
    requires Ties(u, b) && "" !in u.nodes
    ensures b.owner != ""
  {
  }

  /** One bond more: a step from `now` to `next` that links just this one. */
  lemma BondStep(t: Tree, now: Tree, next: Tree, u: Tree, bonds: seq<Bond>, b: Bond)
    requires OwnedBy(t, now, u, bonds) && "" !in u.nodes
    requires forall x :: ParentOf(next, x) == if x == b.id && Ties(u, b) && ParentOf(now, x) == "" then b.owner else ParentOf(now, x)
    ensures OwnedBy(t, next, u, bonds + [b])
  {
    hide Ties, Given;
    forall x ensures ParentOf(next, x) == if ParentOf(t, x) != "" then ParentOf(t, x) else Given(u, bonds + [b], x) {
      GivenAppend(u, bonds, b, x);
    }
  }

  /** What a step to `now` settled of ids and kinds still stands in `u`. */
  lemma TiesLater(now: Tree, u: Tree, b: Bond, parent: string)
    requires Extends(now, u) && "" !in u.nodes && b.kind != AgentSessionNode
    requires (b.id != "" ==> b.id in now.nodes) && (b.owner != "" ==> b.owner in now.nodes)
    requires parent == Found(now, b.above, b.owner)
    ensures Ties(u, b) <==> Is(now, b.kind, b.id) && parent in now.nodes && b.id != parent
    ensures Ties(u, b) ==> parent == b.owner
  {
  }

  /** The five trees on the way to the envelope. */
  datatype Steps = Steps(t1: Tree, t2: Tree, t3: Tree, t4: Tree, t5: Tree)

  function StepsOf(t: Tree, e: Event): Steps {
    var t1 := Ensured(t, FlowSessionNode, e.flowSessionId);
    var flowSession := Found(t1, FlowSessionNode, e.flowSessionId);
    var t2 := Attached(t1, FlowTurnNode, e.flowTurnId, flowSession);
    var t3 := Attached(t2, TeamSessionNode, e.teamSessionId, flowSession);
    var t4 := Attached(t3, TeamTurnNode, e.teamTurnId, Found(t2, FlowTurnNode, e.flowTurnId));
    Steps(t1, t2, t3, t4, Attached(t4, CallTurnNode, e.callTurnId, Found(t4, TeamTurnNode, e.teamTurnId)))
  }

  /** The nodes of the envelope are there, the new ones under the kinds they are first named with. */
  ghost predicate EnvelopePlaced(t: Tree, e: Event, s: Scope) {
    && Extends(t, s.tree) && "" !in s.tree.nodes
    && (e.teamSessionId != "" ==> e.teamSessionId in s.tree.nodes) && (e.callTurnId != "" ==> e.callTurnId in s.tree.nodes)
    && s.teamSession == Found(s.tree, TeamSessionNode, e.teamSessionId)
    && (forall k :: k in s.tree.nodes <==> k in t.nodes || (k != "" && k in EnvelopeIdsOf(e)))
    && (forall k :: k in s.tree.nodes && k !in t.nodes ==> s.tree.nodes[k].kind == FirstKind(e, k))
  }

  lemma {:induction false} EnvelopeNodes(t: Tree, e: Event)
    requires "" !in t.nodes
    ensures EnvelopePlaced(t, e, Enveloped(t, e))
  {
    hide Attached, Ensured, Found, Adds;
    var n := StepsOf(t, e);
    EnsuredAdds(t, FlowSessionNode, e.flowSessionId);
    AttachedAdds(n.t1, FlowTurnNode, e.flowTurnId, Found(n.t1, FlowSessionNode, e.flowSessionId));
    AttachedAdds(n.t2, TeamSessionNode, e.teamSessionId, Found(n.t1, FlowSessionNode, e.flowSessionId));
    AttachedAdds(n.t3, TeamTurnNode, e.teamTurnId, Found(n.t2, FlowTurnNode, e.flowTurnId));
    AttachedAdds(n.t4, CallTurnNode, e.callTurnId, Found(n.t4, TeamTurnNode, e.teamTurnId));
    FiveAdd(t, n, e);
    FoundLater(n.t3, n.t4, TeamSessionNode, e.teamSessionId);
    FoundLater(n.t4, n.t5, TeamSessionNode, e.teamSessionId);
  }

  /** The step adds at most this node. */
  ghost predicate Adds(t: Tree, u: Tree, kind: Kind, id: string) {
    && Extends(t, u) && (forall k :: k in u.nodes <==> k in t.nodes || (k == id && id != ""))
    && (forall k :: k in u.nodes && k !in t.nodes ==> u.nodes[k].kind == kind)
  }

  lemma EnsuredAdds(t: Tree, kind: Kind, id: string)
    requires "" !in t.nodes
    ensures Adds(t, Ensured(t, kind, id), kind, id) && "" !in Ensured(t, kind, id).nodes
  {
  }

  lemma AttachedAdds(t: Tree, kind: Kind, id: string, parent: string)
    requires "" !in t.nodes
    ensures Adds(t, Attached(t, kind, id, parent), kind, id) && "" !in Attached(t, kind, id, parent).nodes
  {
    hide Attached;
    AttachStep(t, kind, id, parent);
  }

  lemma FiveAdd(t: Tree, n: Steps, e: Event)
    requires "" !in t.nodes
    requires Adds(t, n.t1, FlowSessionNode, e.flowSessionId) && Adds(n.t1, n.t2, FlowTurnNode, e.flowTurnId)
    requires Adds(n.t2, n.t3, TeamSessionNode, e.teamSessionId) && Adds(n.t3, n.t4, TeamTurnNode, e.teamTurnId)
    requires Adds(n.t4, n.t5, CallTurnNode, e.callTurnId)
    ensures Extends(t, n.t5) && Extends(n.t3, n.t4) && Extends(n.t4, n.t5) && "" !in n.t5.nodes
    ensures forall k :: k in n.t5.nodes <==> k in t.nodes || (k != "" && k in EnvelopeIdsOf(e))
    ensures forall k :: k in n.t5.nodes && k !in t.nodes ==> n.t5.nodes[k].kind == FirstKind(e, k)
    ensures e.teamSessionId != "" ==> e.teamSessionId in n.t3.nodes && e.teamSessionId in n.t4.nodes
  {
    forall k ensures k in EnvelopeIdsOf(e) <==>
      k == e.flowSessionId || k == e.flowTurnId || k == e.teamSessionId || k == e.teamTurnId || k == e.callTurnId {
      EnvelopeIdIs(e, k);
    }
    hide EnvelopeIdsOf;
  }

  lemma EnvelopeIdIs(e: Event, k: string)
    ensures k in EnvelopeIdsOf(e) <==>
      k == e.flowSessionId || k == e.flowTurnId || k == e.teamSessionId || k == e.teamTurnId || k == e.callTurnId
  {
  }

  /** The envelope: each of its nodes without an owner gets the one named beside it. */
  lemma {:induction false} EnvelopeOwners(t: Tree, e: Event, u: Tree)
    requires "" !in t.nodes && "" !in u.nodes && Extends(Enveloped(t, e).tree, u)
    ensures OwnedBy(t, Enveloped(t, e).tree, u, EnvelopeBonds(e))
  {
    hide Attached, Ensured, Given, Ties, OwnedBy, Found, Extends, Bonds;
    var n := StepsOf(t, e);
    var flowSession, flowTurn, teamTurn :=
      Found(n.t1, FlowSessionNode, e.flowSessionId), Found(n.t2, FlowTurnNode, e.flowTurnId), Found(n.t4, TeamTurnNode, e.teamTurnId);
    var b0, b1, b2, b3 := Bond(FlowTurnNode, e.flowTurnId, FlowSessionNode, e.flowSessionId),
      Bond(TeamSessionNode, e.teamSessionId, FlowSessionNode, e.flowSessionId),
      Bond(TeamTurnNode, e.teamTurnId, FlowTurnNode, e.flowTurnId), Bond(CallTurnNode, e.callTurnId, TeamTurnNode, e.teamTurnId);
    EnsuredHere(t, FlowSessionNode, e.flowSessionId);
    AttachedHere(n.t1, n.t2, FlowTurnNode, e.flowTurnId, flowSession);
    AttachedHere(n.t2, n.t3, TeamSessionNode, e.teamSessionId, flowSession);
    AttachedHere(n.t3, n.t4, TeamTurnNode, e.teamTurnId, flowTurn);
    AttachedHere(n.t4, n.t5, CallTurnNode, e.callTurnId, teamTurn);
    ExtendsOn(n.t4, n.t5, u); ExtendsOn(n.t3, n.t4, u); ExtendsOn(n.t2, n.t3, u);
    ExtendsOn(n.t1, n.t2, n.t3); ExtendsOn(n.t2, n.t3, n.t4);
    ThereLater(n.t1, n.t2, e.flowSessionId); ThereLater(n.t2, n.t3, e.flowSessionId);
    ThereLater(n.t2, n.t3, e.flowTurnId); ThereLater(n.t3, n.t4, e.flowTurnId); ThereLater(n.t4, n.t5, e.teamTurnId);
    FoundLater(n.t1, n.t2, FlowSessionNode, e.flowSessionId); FoundLater(n.t2, n.t3, FlowSessionNode, e.flowSessionId);
    FoundLater(n.t2, n.t3, FlowTurnNode, e.flowTurnId); FoundLater(n.t3, n.t4, FlowTurnNode, e.flowTurnId);
    FoundLater(n.t4, n.t5, TeamTurnNode, e.teamTurnId);
    StepTies(n.t1, n.t2, u, b0, flowSession);
    StepTies(n.t2, n.t3, u, b1, flowSession);
    StepTies(n.t3, n.t4, u, b2, flowTurn);
    StepTies(n.t4, n.t5, u, b3, teamTurn);
    NothingGiven(t, n.t1, u);
    BondStep(t, n.t1, n.t2, u, [], b0);
    BondStep(t, n.t2, n.t3, u, [] + [b0], b1);
    BondStep(t, n.t3, n.t4, u, [] + [b0] + [b1], b2);
    BondStep(t, n.t4, n.t5, u, [] + [b0] + [b1] + [b2], b3);
    assert EnvelopeBonds(e) == [] + [b0] + [b1] + [b2] + [b3];
  }

  lemma EnsuredHere(t: Tree, kind: Kind, id: string)
    requires "" !in t.nodes
    ensures var u := Ensured(t, kind, id);
            "" !in u.nodes && SameOwners(t, u) && (id != "" ==> id in u.nodes)
  {
  }

  lemma AttachedHere(t: Tree, u: Tree, kind: Kind, id: string, parent: string)
    requires "" !in t.nodes && u == Attached(t, kind, id, parent)
    ensures Extends(t, u) && "" !in u.nodes && (id != "" ==> id in u.nodes)
  {
    hide Attached;
    AttachStep(t, kind, id, parent);
  }

  lemma ThereLater(t: Tree, u: Tree, id: string)
    requires Extends(t, u) && (id != "" ==> id in t.nodes)
    ensures id != "" ==> id in u.nodes
  {
  }

  function EnvelopeIdsOf(e: Event): seq<string> {
    [e.flowSessionId, e.flowTurnId, e.teamSessionId, e.teamTurnId, e.callTurnId]
  }

  /** The kind under which an event's envelope first names an id. */
  function FirstKind(e: Event, id: string): Kind {
    if id == e.flowSessionId then FlowSessionNode
    else if id == e.flowTurnId then FlowTurnNode
    else if id == e.teamSessionId then TeamSessionNode
    else if id == e.teamTurnId then TeamTurnNode
    else CallTurnNode
  }

  lemma FoundLater(now: Tree, next: Tree, kind: Kind, id: string)
    requires Extends(now, next) && (id != "" ==> id in now.nodes)
    ensures Found(next, kind, id) == Found(now, kind, id)
  {
  }

  lemma StepTies(now: Tree, next: Tree, u: Tree, b: Bond, parent: string)
    requires b.kind != AgentSessionNode && "" !in now.nodes && "" !in u.nodes && Extends(next, u)
    requires next == Attached(now, b.kind, b.id, parent) && parent == Found(next, b.above, b.owner)
    requires b.owner != "" ==> b.owner in next.nodes
    ensures forall x :: ParentOf(next, x) == if x == b.id && Ties(u, b) && ParentOf(now, x) == "" then b.owner else ParentOf(now, x)
  {
    hide Attached, Ties;
    AttachStep(now, b.kind, b.id, parent);
    TiesLater(next, u, b, parent);
  }

  lemma NothingGiven(t: Tree, t1: Tree, u: Tree)
    requires SameOwners(t, t1)
    ensures OwnedBy(t, t1, u, [])
  {
  }

  /** Noting the scope moves nothing. */
  lemma ScopeStep(s: Scope, e: Event)
    ensures Extends(s.tree, InScope(s, e)) && InScope(s, e).nodes.Keys == s.tree.nodes.Keys && SameOwners(s.tree, InScope(s, e))
  {
    hide Noted, Scoped;
    var t1 := ScopeNoted(s.tree, s.flowSession, e);
    var t2 := ScopeNoted(t1, s.flowTurn, e);
    var t3 := ScopeNoted(t2, s.teamSession, e);
    var t4 := ScopeNoted(t3, s.teamTurn, e);
    NoteStep(s.tree, s.flowSession, Scoped(InfoOf(s.tree, s.flowSession), e));
    NoteStep(t1, s.flowTurn, Scoped(InfoOf(t1, s.flowTurn), e));
    NoteStep(t2, s.teamSession, Scoped(InfoOf(t2, s.teamSession), e));
    NoteStep(t3, s.teamTurn, Scoped(InfoOf(t3, s.teamTurn), e));
    NoteStep(t4, s.callTurn, Scoped(InfoOf(t4, s.callTurn), e));
  }

  /** A report adds its node, and links nothing but an agent's session. */
  ghost predicate LifecycleDone(t: Tree, u: Tree, e: Event, teamSession: string) {
    && Extends(t, u) && "" !in u.nodes
    && (forall k :: k in u.nodes <==> k in t.nodes || (Reports(e).Some? && k == Reports(e).value.id && k != ""))
    && (forall k :: k in u.nodes && k !in t.nodes ==> Reports(e).Some? && u.nodes[k].kind == Reports(e).value.kind)
    && forall x :: ParentOf(u, x) ==
         if e.payload.AgentSession? && x == e.payload.id && x in u.nodes && teamSession in u.nodes && x != teamSession && ParentOf(t, x) == ""
         then teamSession else ParentOf(t, x)
  }

  lemma {:induction false} LifecycleStep(t: Tree, e: Event, teamSession: string)
    requires "" !in t.nodes && (e.callTurnId != "" ==> e.callTurnId in t.nodes)
    ensures LifecycleDone(t, Lifecycle(t, e, teamSession), e, teamSession)
  {
    hide Tracked;
    match e.payload
    case FlowSession(id, status) => TrackStep(t, FlowSessionNode, id, status, 0);
    case TeamSession(id, status) => TrackStep(t, TeamSessionNode, id, status, 0);
    case AgentSession(_, _, _, _, _) => AgentSessionStep(t, e, teamSession);
    case FlowTurn(id, status, attempt) => TrackStep(t, FlowTurnNode, Pick(id, e.flowTurnId), status, attempt);
    case TeamTurn(_, _) => TeamTurnStep(t, e, teamSession);
    case CallStarted(_) => CallStartedStep(t, e, teamSession);
    case CallCompleted(_) => CallCompletedStep(t, e, teamSession);
    case CallWaiting(outcome) => TrackStep(t, CallTurnNode, e.callTurnId, Reports(e).value.status, e.attempt);
    case Other =>
  }

  lemma AgentSessionStep(t: Tree, e: Event, teamSession: string)
    requires "" !in t.nodes && e.payload.AgentSession?
    ensures LifecycleDone(t, Lifecycle(t, e, teamSession), e, teamSession)
  {
    hide Tracked, Linked, Noted, Scoped;
    var id := e.payload.id;
    var u := Tracked(t, AgentSessionNode, id, e.payload.status, 0);
    TrackStep(t, AgentSessionNode, id, e.payload.status, 0);
    if id in u.nodes {
      var info := Scoped(u.nodes[id].info, e).(teamSessionId := e.payload.teamSessionId, callId := e.payload.callId, agentId := e.payload.agentId);
      NoteStep(u, id, info);
      LinkStep(Noted(u, id, info), id, teamSession);
    }
  }

  lemma TeamTurnStep(t: Tree, e: Event, teamSession: string)
    requires "" !in t.nodes && e.payload.TeamTurn?
    ensures LifecycleDone(t, Lifecycle(t, e, teamSession), e, teamSession)
  {
    hide Tracked;
    var report := Reports(e).value;
    TrackStep(t, TeamTurnNode, report.id, report.status, e.attempt);
  }

  lemma CallStartedStep(t: Tree, e: Event, teamSession: string)
    requires "" !in t.nodes && e.payload.CallStarted? && (e.callTurnId != "" ==> e.callTurnId in t.nodes)
    ensures LifecycleDone(t, Lifecycle(t, e, teamSession), e, teamSession)
  {
    hide Tracked, Noted;
    var call := e.payload.call;
    var u := if call.Some? then Ensured(t, CallTurnNode, e.callTurnId) else t;
    assert u == t;
    var named := call.Some? && Found(u, CallTurnNode, e.callTurnId) != "";
    var v := if named then AgentNoted(u, e.callTurnId, call.value) else u;
    if named { NoteStep(u, e.callTurnId, InfoOf(u, e.callTurnId).(agentId := Pick(InfoOf(u, e.callTurnId).agentId, call.value))); }
    TrackStep(v, CallTurnNode, e.callTurnId, "running", e.attempt);
  }

  lemma CallCompletedStep(t: Tree, e: Event, teamSession: string)
    requires "" !in t.nodes && e.payload.CallCompleted?
    ensures LifecycleDone(t, Lifecycle(t, e, teamSession), e, teamSession)
  {
    hide Tracked, Noted;
    if e.payload.outcome.Some? {
      var result := e.payload.outcome.value;
      var id := Pick(result.callTurnId, e.callTurnId);
      var u := Tracked(t, CallTurnNode, id, result.status, e.attempt);
      TrackStep(t, CallTurnNode, id, result.status, e.attempt);
      NoteStep(u, id, InfoOf(u, id).(agentId := Pick(InfoOf(u, id).agentId, result.agentId)));
    }
  }

  // One event.

  /**
   * Owners, for every tree and every event: a node that has an owner keeps it; one without gets the owner of the first
   * of the event's bonds that ties it, and stays without if there is none.
   */
  lemma {:induction false} OwnersAfter(t: Tree, e: Event)
    requires "" !in t.nodes
    ensures var u := Added(t, e);
            && Extends(t, u) && "" !in u.nodes
            && forall id :: ParentOf(u, id) == if ParentOf(t, id) != "" then ParentOf(t, id) else Given(u, Bonds(e), id)
  {
    hide Enveloped, InScope, Lifecycle, Bounded, Given, Ties, Bonds, OwnedBy, LifecycleDone, SameOwners, Reports;
    var s, u := Enveloped(t, e), Added(t, e);
    var v, w := InScope(s, e), Lifecycle(InScope(s, e), e, s.teamSession);
    EnvelopeNodes(t, e);
    ScopeStep(s, e);
    LifecycleStep(v, e, s.teamSession);
    BoundStep(w, e);
    LifecycleExtends(v, w, e, s.teamSession);
    ExtendsOn(s.tree, v, w);
    ExtendsOn(s.tree, w, u);
    ExtendsOn(t, s.tree, u);
    EnvelopeOwners(t, e, u);
    LastBond(t, s.tree, v, w, u, e, s.teamSession);
    forall id ensures ParentOf(u, id) == if ParentOf(t, id) != "" then ParentOf(t, id) else Given(u, Bonds(e), id) {
      OwnedAt(t, u, u, Bonds(e), id);
    }
  }

  lemma OwnedAt(t: Tree, now: Tree, u: Tree, bonds: seq<Bond>, id: string)
    requires OwnedBy(t, now, u, bonds)
    ensures ParentOf(now, id) == if ParentOf(t, id) != "" then ParentOf(t, id) else Given(u, bonds, id)
  {
  }

  lemma LifecycleExtends(t: Tree, u: Tree, e: Event, teamSession: string)
    requires LifecycleDone(t, u, e, teamSession)
    ensures Extends(t, u) && "" !in u.nodes
  {
  }

  /** Behind the envelope only an agent's session is linked. */
  lemma LastBond(t: Tree, now: Tree, v: Tree, w: Tree, u: Tree, e: Event, teamSession: string)
    requires OwnedBy(t, now, u, EnvelopeBonds(e)) && SameOwners(now, v) && LifecycleDone(v, w, e, teamSession) && SameOwners(w, u)
    requires u.nodes.Keys == w.nodes.Keys && "" !in u.nodes && Extends(now, u)
    requires (e.teamSessionId != "" ==> e.teamSessionId in now.nodes) && teamSession == Found(now, TeamSessionNode, e.teamSessionId)
    ensures OwnedBy(t, u, u, Bonds(e))
  {
    hide Given, Ties, EnvelopeBonds, Reports, AgentBond, LifecycleDone, OwnedBy, Found;
    if e.payload.AgentSession? {
      AgentTie(now, u, e, teamSession);
      forall x ensures ParentOf(u, x) ==
        if x == AgentBond(e).id && Ties(u, AgentBond(e)) && ParentOf(now, x) == "" then AgentBond(e).owner else ParentOf(now, x)
      {
        AgentLinked(v, w, e, teamSession, x);
      }
      BondStep(t, now, u, u, EnvelopeBonds(e), AgentBond(e));
    } else {
      assert EnvelopeBonds(e) + [] == EnvelopeBonds(e);
      forall x ensures ParentOf(u, x) == ParentOf(now, x) { NothingLinked(v, w, e, teamSession, x); }
      SameOwned(t, now, u, EnvelopeBonds(e));
    }
  }

  lemma AgentLinked(v: Tree, w: Tree, e: Event, teamSession: string, x: string)
    requires LifecycleDone(v, w, e, teamSession) && e.payload.AgentSession?
    ensures ParentOf(w, x) ==
      if x == AgentBond(e).id && x in w.nodes && teamSession in w.nodes && x != teamSession && ParentOf(v, x) == "" then teamSession
      else ParentOf(v, x)
  {
  }

  lemma NothingLinked(v: Tree, w: Tree, e: Event, teamSession: string, x: string)
    requires LifecycleDone(v, w, e, teamSession) && !e.payload.AgentSession?
    ensures ParentOf(w, x) == ParentOf(v, x)
  {
  }

  lemma SameOwned(t: Tree, now: Tree, u: Tree, bonds: seq<Bond>)
    requires OwnedBy(t, now, u, bonds) && SameOwners(now, u)
    ensures OwnedBy(t, u, u, bonds)
  {
  }

  lemma BoundStep(t: Tree, e: Event)
    ensures var u := Bounded(t, Owner(e), e.seqNo);
            Extends(t, u) && u.nodes.Keys == t.nodes.Keys && SameOwners(t, u)
  {
    hide Noted;
    var info := InfoOf(t, Owner(e));
    NoteStep(t, Owner(e), info.(firstSeq := if info.firstSeq == 0 || e.seqNo < info.firstSeq then e.seqNo else info.firstSeq,
                                lastSeq := if e.seqNo > info.lastSeq then e.seqNo else info.lastSeq));
  }

  lemma AgentTie(now: Tree, u: Tree, e: Event, teamSession: string)
    requires e.payload.AgentSession? && Extends(now, u) && "" !in u.nodes
    requires (e.teamSessionId != "" ==> e.teamSessionId in now.nodes) && teamSession == Found(now, TeamSessionNode, e.teamSessionId)
    ensures Ties(u, AgentBond(e)) <==> AgentBond(e).id in u.nodes && teamSession in u.nodes && AgentBond(e).id != teamSession
    ensures Ties(u, AgentBond(e)) ==> teamSession == AgentBond(e).owner
  {
  }

  /** Nodes: those there were, and one for every id the event mentions, under the kind it is first mentioned with. */
  lemma {:induction false} NodesAfter(t: Tree, e: Event)
    requires "" !in t.nodes
    ensures var u := Added(t, e);
            && (forall k :: k in u.nodes <==> k in t.nodes || (k != "" && Mentioned(e, k)))
            && forall k :: k in u.nodes ==>
                 u.nodes[k].kind == if k in t.nodes then t.nodes[k].kind else KindGiven(Mentions(e), k)
  {
    hide Enveloped, InScope, Lifecycle, Noted, Given, Ties, KindGiven, Reports, OwnedBy, Mentioned, Mentions, EnvelopeIdsOf, FirstKind, Owner;
    var s := Enveloped(t, e);
    EnvelopeNodes(t, e);
    ScopeStep(s, e);
    LifecycleStep(InScope(s, e), e, s.teamSession);
    BoundStep(Lifecycle(InScope(s, e), e, s.teamSession), e);
    var u := Added(t, e);
    forall k ensures k in u.nodes <==> k in t.nodes || (k != "" && Mentioned(e, k)) { KindOfMention(e, k); }
    forall k | k in u.nodes ensures u.nodes[k].kind == if k in t.nodes then t.nodes[k].kind else KindGiven(Mentions(e), k) {
      KindOfMention(e, k);
    }
  }

  // What the nodes note.

  /** The envelope names the id under this kind. */
  predicate InEnvelope(e: Event, kind: Kind, id: string) {
    id != "" &&
    match kind
    case FlowSessionNode => id == e.flowSessionId
    case FlowTurnNode => id == e.flowTurnId
    case TeamSessionNode => id == e.teamSessionId
    case TeamTurnNode => id == e.teamTurnId
    case CallTurnNode => id == e.callTurnId
    case AgentSessionNode => false
  }

  predicate NamesAgent(e: Event, id: string) {
    e.payload.AgentSession? && id == e.payload.id && id != ""
  }

  /** The node whose state the event reports, if it is of the right kind. */
  predicate ReportedAt(e: Event, kind: Kind, id: string) {
    Reports(e).Some? && id == Reports(e).value.id && id != "" && kind == Reports(e).value.kind
  }

  /** The most specific node an event is addressed to. */
  predicate Addressed(e: Event, id: string) {
    if e.callTurnId != "" then id == e.callTurnId
    else if e.teamTurnId != "" then id == e.teamTurnId
    else if e.flowTurnId != "" then id == e.flowTurnId
    else id == e.flowSessionId
  }

  /** The agent that a call's start or completion names for a node. */
  function AgentNamed(e: Event, kind: Kind, id: string): string {
    match e.payload
    case CallStarted(Some(agent)) => if kind == CallTurnNode && id == e.callTurnId then agent else ""
    case CallCompleted(Some(result)) =>
      if id == (if result.callTurnId != "" then result.callTurnId else e.callTurnId) then result.agentId else ""
    case _ => ""
  }

  function Newer(now: string, was: string): string {
    if now == "" then was else now
  }

  /**
   * What a node knows behind an event: the nodes of the envelope, and the agent's session, take over the ids the event
   * carries; the reported node its status and attempt; a call the first agent that is named for it.
   */
  predicate NoteAt(was: Info, now: Info, e: Event, kind: Kind, id: string) {
    var agent := NamesAgent(e, id);
    var scoped := agent || InEnvelope(e, kind, id);
    && now.flowSessionId == (if scoped then Newer(e.flowSessionId, was.flowSessionId) else was.flowSessionId)
    && now.flowTurnId == (if scoped then Newer(e.flowTurnId, was.flowTurnId) else was.flowTurnId)
    && now.teamTurnId == (if scoped then Newer(e.teamTurnId, was.teamTurnId) else was.teamTurnId)
    && now.teamId == (if scoped then Newer(e.teamId, was.teamId) else was.teamId)
    && now.teamSessionId ==
         (if agent then e.payload.teamSessionId else if scoped then Newer(e.teamSessionId, was.teamSessionId) else was.teamSessionId)
    && now.callId == (if agent then e.payload.callId else if scoped then Newer(e.callId, was.callId) else was.callId)
    && now.agentId == (if agent then e.payload.agentId else if was.agentId == "" then AgentNamed(e, kind, id) else was.agentId)
    && now.status == (if ReportedAt(e, kind, id) then Newer(Reports(e).value.status, was.status) else was.status)
    && now.attempt == (if ReportedAt(e, kind, id) && Reports(e).value.attempt > 0 then Reports(e).value.attempt
                       else if scoped && e.attempt > 0 then e.attempt else was.attempt)
  }

  /** The span of sequence numbers of the addressed node takes the event in, and no other span moves. */
  predicate SpanAt(was: Info, now: Info, e: Event, addressed: bool) {
    && now.firstSeq == (if addressed && (was.firstSeq == 0 || e.seqNo < was.firstSeq) then e.seqNo else was.firstSeq)
    && now.lastSeq == (if addressed && e.seqNo > was.lastSeq then e.seqNo else was.lastSeq)
  }

  /** Notes: what every node knows behind an event, from what it knew before. */
  lemma {:induction false} NotesAfter(t: Tree, e: Event)
    requires "" !in t.nodes
    ensures var u := Added(t, e);
            forall k :: k in u.nodes ==>
              NoteAt(InfoOf(t, k), InfoOf(u, k), e, u.nodes[k].kind, k) && SpanAt(InfoOf(t, k), InfoOf(u, k), e, Addressed(e, k))
  {
    hide Enveloped, InScope, Lifecycle, Bounded, Given, Bonds, Reports, NoteAt, SpanAt, Scoped, Lived, Addressed, AgentNamed;
    var s, u := Enveloped(t, e), Added(t, e);
    var v, w := InScope(s, e), Lifecycle(InScope(s, e), e, s.teamSession);
    EnvelopeNodes(t, e);
    EnvelopeScope(t, e);
    EnvelopeInfo(t, e);
    ScopeStep(s, e);
    LifecycleStep(v, e, s.teamSession);
    BoundStep(w, e);
    LifecycleExtends(v, w, e, s.teamSession);
    forall k | k in u.nodes
      ensures NoteAt(InfoOf(t, k), InfoOf(u, k), e, u.nodes[k].kind, k) && SpanAt(InfoOf(t, k), InfoOf(u, k), e, Addressed(e, k))
    {
      ScopeInfo(s, e, k);
      LifecycleInfo(v, e, s.teamSession, k);
      BoundInfo(w, e, k);
      KindThen(t, s, u, e, k);
      NoteChain(InfoOf(t, k), e, u.nodes[k].kind, k);
      BoundKeeps(Lived(InScopeInfo(InfoOf(t, k), e, u.nodes[k].kind, k), e, u.nodes[k].kind, k), e, u.nodes[k].kind, k, InfoOf(t, k));
    }
  }

  /** The three steps an event takes with one node. */
  function InScopeInfo(was: Info, e: Event, kind: Kind, id: string): Info {
    if InEnvelope(e, kind, id) then Scoped(was, e) else was
  }

  function Lived(was: Info, e: Event, kind: Kind, id: string): Info {
    var told := if ReportedAt(e, kind, id) then Stated(was, Reports(e).value.status, Reports(e).value.attempt) else was;
    if NamesAgent(e, id) then
      Scoped(told, e).(teamSessionId := e.payload.teamSessionId, callId := e.payload.callId, agentId := e.payload.agentId)
    else told.(agentId := Pick(told.agentId, AgentNamed(e, kind, id)))
  }

  function Stated(was: Info, status: string, attempt: int): Info {
    was.(status := Pick(status, was.status), attempt := if attempt > 0 then attempt else was.attempt)
  }

  function Spanned(was: Info, e: Event, id: string): Info {
    if id == Owner(e) then
      was.(firstSeq := if was.firstSeq == 0 || e.seqNo < was.firstSeq then e.seqNo else was.firstSeq,
           lastSeq := if e.seqNo > was.lastSeq then e.seqNo else was.lastSeq)
    else was
  }

  lemma NoteChain(was: Info, e: Event, kind: Kind, id: string)
    ensures var now := Lived(InScopeInfo(was, e, kind, id), e, kind, id);
            NoteAt(was, now, e, kind, id) && now.firstSeq == was.firstSeq && now.lastSeq == was.lastSeq
  {
    hide InEnvelope, Reports, AgentNamed;
    ReportIsNoScope(e, id);
    AgentsAreNamed(e, kind, id);
  }

  /** A report on an agent's session brings no attempt, and names no other agent. */
  lemma ReportIsNoScope(e: Event, id: string)
    ensures NamesAgent(e, id) ==> Reports(e).Some? && Reports(e).value.attempt == 0
  {
  }

  lemma AgentsAreNamed(e: Event, kind: Kind, id: string)
    ensures NamesAgent(e, id) ==> AgentNamed(e, kind, id) == ""
  {
  }

  lemma BoundKeeps(was: Info, e: Event, kind: Kind, id: string, first: Info)
    requires NoteAt(first, was, e, kind, id) && was.firstSeq == first.firstSeq && was.lastSeq == first.lastSeq
    ensures NoteAt(first, Spanned(was, e, id), e, kind, id) && SpanAt(first, Spanned(was, e, id), e, Addressed(e, id))
  {
    hide InEnvelope, Reports, AgentNamed, NamesAgent, ReportedAt;
  }

  /** A node's kind is the one it had in the envelope; one that comes later is not in the envelope. */
  lemma KindThen(t: Tree, s: Scope, u: Tree, e: Event, k: string)
    requires EnvelopePlaced(t, e, s) && Extends(s.tree, u) && k in u.nodes
    ensures k in s.tree.nodes ==> u.nodes[k].kind == s.tree.nodes[k].kind
    ensures k !in s.tree.nodes ==> !InEnvelope(e, u.nodes[k].kind, k)
  {
    EnvelopeIdIs(e, k);
    hide EnvelopeIdsOf;
  }

  lemma NoteInfo(t: Tree, id: string, info: Info, k: string)
    ensures InfoOf(Noted(t, id, info), k) == if k == id && k in t.nodes then info else InfoOf(t, k)
  {
  }

  lemma AttachInfo(t: Tree, kind: Kind, id: string, parent: string)
    ensures forall k :: InfoOf(Ensured(t, kind, id), k) == InfoOf(t, k) && InfoOf(Attached(t, kind, id, parent), k) == InfoOf(t, k)
  {
  }

  lemma EnvelopeInfo(t: Tree, e: Event)
    ensures forall k :: InfoOf(Enveloped(t, e).tree, k) == InfoOf(t, k)
  {
    hide Attached, Ensured, Found;
    var n := StepsOf(t, e);
    AttachInfo(t, FlowSessionNode, e.flowSessionId, "");
    AttachInfo(n.t1, FlowTurnNode, e.flowTurnId, Found(n.t1, FlowSessionNode, e.flowSessionId));
    AttachInfo(n.t2, TeamSessionNode, e.teamSessionId, Found(n.t1, FlowSessionNode, e.flowSessionId));
    AttachInfo(n.t3, TeamTurnNode, e.teamTurnId, Found(n.t2, FlowTurnNode, e.flowTurnId));
    AttachInfo(n.t4, CallTurnNode, e.callTurnId, Found(n.t4, TeamTurnNode, e.teamTurnId));
  }

  /** The nodes whose scope is noted are those of the envelope. */
  ghost predicate ScopeFound(s: Scope, e: Event) {
    && s.flowSession == Found(s.tree, FlowSessionNode, e.flowSessionId) && s.flowTurn == Found(s.tree, FlowTurnNode, e.flowTurnId)
    && s.teamSession == Found(s.tree, TeamSessionNode, e.teamSessionId) && s.teamTurn == Found(s.tree, TeamTurnNode, e.teamTurnId)
    && s.callTurn == Found(s.tree, CallTurnNode, e.callTurnId)
  }

  lemma {:induction false} EnvelopeScope(t: Tree, e: Event)
    requires "" !in t.nodes
    ensures ScopeFound(Enveloped(t, e), e)
  {
    hide Attached, Ensured, Found, Extends;
    var n := StepsOf(t, e);
    EnsuredHere(t, FlowSessionNode, e.flowSessionId);
    AttachedHere(n.t1, n.t2, FlowTurnNode, e.flowTurnId, Found(n.t1, FlowSessionNode, e.flowSessionId));
    AttachedHere(n.t2, n.t3, TeamSessionNode, e.teamSessionId, Found(n.t1, FlowSessionNode, e.flowSessionId));
    AttachedHere(n.t3, n.t4, TeamTurnNode, e.teamTurnId, Found(n.t2, FlowTurnNode, e.flowTurnId));
    AttachedHere(n.t4, n.t5, CallTurnNode, e.callTurnId, Found(n.t4, TeamTurnNode, e.teamTurnId));
    ExtendsOn(n.t3, n.t4, n.t5); ExtendsOn(n.t2, n.t3, n.t5); ExtendsOn(n.t1, n.t2, n.t5);
    FoundLater(n.t1, n.t5, FlowSessionNode, e.flowSessionId);
    FoundLater(n.t2, n.t5, FlowTurnNode, e.flowTurnId);
    FoundLater(n.t3, n.t5, TeamSessionNode, e.teamSessionId);
    FoundLater(n.t4, n.t5, TeamTurnNode, e.teamTurnId);
  }

  lemma ScopedTwice(info: Info, e: Event)
    ensures Scoped(Scoped(info, e), e) == Scoped(info, e)
  {
  }

  lemma ScopeNotedInfo(t: Tree, id: string, e: Event, k: string)
    ensures InfoOf(ScopeNoted(t, id, e), k) == if k == id && k in t.nodes then Scoped(InfoOf(t, k), e) else InfoOf(t, k)
    ensures ScopeNoted(t, id, e).nodes.Keys == t.nodes.Keys
  {
    hide Noted;
    NoteStep(t, id, Scoped(InfoOf(t, id), e));
    NoteInfo(t, id, Scoped(InfoOf(t, id), e), k);
  }

  lemma ScopeInfo(s: Scope, e: Event, k: string)
    requires ScopeFound(s, e) && "" !in s.tree.nodes
    ensures InfoOf(InScope(s, e), k) ==
      if k in s.tree.nodes && InEnvelope(e, s.tree.nodes[k].kind, k) then Scoped(InfoOf(s.tree, k), e) else InfoOf(s.tree, k)
  {
    hide ScopeNoted, Scoped;
    var t1 := ScopeNoted(s.tree, s.flowSession, e);
    var t2 := ScopeNoted(t1, s.flowTurn, e);
    var t3 := ScopeNoted(t2, s.teamSession, e);
    var t4 := ScopeNoted(t3, s.teamTurn, e);
    ScopeNotedInfo(s.tree, s.flowSession, e, k);
    ScopeNotedInfo(t1, s.flowTurn, e, k);
    ScopeNotedInfo(t2, s.teamSession, e, k);
    ScopeNotedInfo(t3, s.teamTurn, e, k);
    ScopeNotedInfo(t4, s.callTurn, e, k);
    ScopedTwice(InfoOf(s.tree, k), e);
  }

  lemma TrackInfo(t: Tree, kind: Kind, id: string, status: string, attempt: int, k: string)
    ensures var u := Tracked(t, kind, id, status, attempt);
            InfoOf(u, k) == if k == id && id != "" && Is(u, kind, id) then Stated(InfoOf(t, k), status, attempt) else InfoOf(t, k)
  {
    hide Noted, Stated;
    var u := Ensured(t, kind, id);
    if Found(u, kind, id) != "" {
      NoteStep(u, id, Stated(u.nodes[id].info, status, attempt));
      NoteInfo(u, id, Stated(u.nodes[id].info, status, attempt), k);
      StatedIs(u.nodes[id].info, status, attempt);
    }
  }

  lemma StatedIs(info: Info, status: string, attempt: int)
    ensures Stated(info, status, attempt) == info.(status := Pick(status, info.status), attempt := if attempt > 0 then attempt else info.attempt)
  {
  }

  /** One node behind a report. */
  ghost predicate LivedAt(t: Tree, u: Tree, e: Event, k: string) {
    k in u.nodes ==> InfoOf(u, k) == Lived(InfoOf(t, k), e, u.nodes[k].kind, k)
  }

  lemma {:induction false} LifecycleInfo(t: Tree, e: Event, teamSession: string, k: string)
    requires "" !in t.nodes && (e.callTurnId != "" ==> e.callTurnId in t.nodes)
    ensures LivedAt(t, Lifecycle(t, e, teamSession), e, k)
  {
    hide Tracked, Stated;
    match e.payload
    case FlowSession(id, status) => TrackStep(t, FlowSessionNode, id, status, 0); TrackInfo(t, FlowSessionNode, id, status, 0, k);
    case TeamSession(id, status) => TrackStep(t, TeamSessionNode, id, status, 0); TrackInfo(t, TeamSessionNode, id, status, 0, k);
    case AgentSession(_, _, _, _, _) => AgentSessionInfo(t, e, teamSession, k);
    case FlowTurn(id, status, attempt) =>
      TrackStep(t, FlowTurnNode, Pick(id, e.flowTurnId), status, attempt);
      TrackInfo(t, FlowTurnNode, Pick(id, e.flowTurnId), status, attempt, k);
    case TeamTurn(_, _) => TeamTurnInfo(t, e, teamSession, k);
    case CallStarted(_) => CallStartedInfo(t, e, teamSession, k);
    case CallCompleted(_) => CallCompletedInfo(t, e, teamSession, k);
    case CallWaiting(_) => CallWaitingInfo(t, e, teamSession, k);
    case Other =>
  }

  lemma TeamTurnInfo(t: Tree, e: Event, teamSession: string, k: string)
    requires "" !in t.nodes && e.payload.TeamTurn?
    ensures LivedAt(t, Lifecycle(t, e, teamSession), e, k)
  {
    hide Tracked, Stated;
    var report := Reports(e).value;
    TrackStep(t, TeamTurnNode, report.id, report.status, e.attempt);
    TrackInfo(t, TeamTurnNode, report.id, report.status, e.attempt, k);
  }

  lemma CallWaitingInfo(t: Tree, e: Event, teamSession: string, k: string)
    requires "" !in t.nodes && e.payload.CallWaiting?
    ensures LivedAt(t, Lifecycle(t, e, teamSession), e, k)
  {
    hide Tracked, Stated;
    TrackStep(t, CallTurnNode, e.callTurnId, Reports(e).value.status, e.attempt);
    TrackInfo(t, CallTurnNode, e.callTurnId, Reports(e).value.status, e.attempt, k);
  }

  lemma LinkInfo(t: Tree, child: string, parent: string, k: string)
    ensures InfoOf(Linked(t, child, parent), k) == InfoOf(t, k)
  {
  }

  lemma AgentSessionInfo(t: Tree, e: Event, teamSession: string, k: string)
    requires "" !in t.nodes && e.payload.AgentSession?
    ensures LivedAt(t, Lifecycle(t, e, teamSession), e, k)
  {
    hide Tracked, Linked, Noted, Scoped, Stated;
    var id := e.payload.id;
    var u := Tracked(t, AgentSessionNode, id, e.payload.status, 0);
    TrackStep(t, AgentSessionNode, id, e.payload.status, 0);
    TrackInfo(t, AgentSessionNode, id, e.payload.status, 0, k);
    if id in u.nodes {
      var info := Scoped(u.nodes[id].info, e).(teamSessionId := e.payload.teamSessionId, callId := e.payload.callId, agentId := e.payload.agentId);
      NoteStep(u, id, info);
      NoteInfo(u, id, info, k);
      LinkStep(Noted(u, id, info), id, teamSession);
      LinkInfo(Noted(u, id, info), id, teamSession, k);
    }
  }

  lemma CallStartedInfo(t: Tree, e: Event, teamSession: string, k: string)
    requires "" !in t.nodes && e.payload.CallStarted? && (e.callTurnId != "" ==> e.callTurnId in t.nodes)
    ensures LivedAt(t, Lifecycle(t, e, teamSession), e, k)
  {
    hide Tracked, Noted;
    var call := e.payload.call;
    assert Ensured(t, CallTurnNode, e.callTurnId) == t;
    var named := call.Some? && Found(t, CallTurnNode, e.callTurnId) != "";
    var v := if named then AgentNoted(t, e.callTurnId, call.value) else t;
    if named {
      NoteStep(t, e.callTurnId, InfoOf(t, e.callTurnId).(agentId := Pick(InfoOf(t, e.callTurnId).agentId, call.value)));
      NoteInfo(t, e.callTurnId, InfoOf(t, e.callTurnId).(agentId := Pick(InfoOf(t, e.callTurnId).agentId, call.value)), k);
    }
    TrackStep(v, CallTurnNode, e.callTurnId, "running", e.attempt);
    TrackInfo(v, CallTurnNode, e.callTurnId, "running", e.attempt, k);
  }

  lemma CallCompletedInfo(t: Tree, e: Event, teamSession: string, k: string)
    requires "" !in t.nodes && e.payload.CallCompleted?
    ensures LivedAt(t, Lifecycle(t, e, teamSession), e, k)
  {
    hide Tracked, Noted;
    if e.payload.outcome.Some? {
      var result := e.payload.outcome.value;
      var id := Pick(result.callTurnId, e.callTurnId);
      var u := Tracked(t, CallTurnNode, id, result.status, e.attempt);
      TrackStep(t, CallTurnNode, id, result.status, e.attempt);
      TrackInfo(t, CallTurnNode, id, result.status, e.attempt, k);
      NoteStep(u, id, InfoOf(u, id).(agentId := Pick(InfoOf(u, id).agentId, result.agentId)));
      NoteInfo(u, id, InfoOf(u, id).(agentId := Pick(InfoOf(u, id).agentId, result.agentId)), k);
    }
  }

  lemma BoundInfo(t: Tree, e: Event, k: string)
    requires k in t.nodes
    ensures InfoOf(Bounded(t, Owner(e), e.seqNo), k) == Spanned(InfoOf(t, k), e, k)
  {
    hide Noted;
    var info := InfoOf(t, Owner(e));
    NoteInfo(t, Owner(e), info.(firstSeq := if info.firstSeq == 0 || e.seqNo < info.firstSeq then e.seqNo else info.firstSeq,
                                lastSeq := if e.seqNo > info.lastSeq then e.seqNo else info.lastSeq), k);
  }

  predicate Mentioned(e: Event, id: string) {
    exists i :: 0 <= i < |Mentions(e)| && Mentions(e)[i].1 == id
  }

  function KindGiven(mentions: seq<(Kind, string)>, id: string): Kind {
    if mentions == [] then CallTurnNode else if mentions[0].1 == id then mentions[0].0 else KindGiven(mentions[1..], id)
  }

  predicate KindIs(e: Event, id: string) {
    && (Mentioned(e, id) <==> id in EnvelopeIdsOf(e) || (Reports(e).Some? && id == Reports(e).value.id))
    && (id in EnvelopeIdsOf(e) ==> KindGiven(Mentions(e), id) == FirstKind(e, id))
    && (id !in EnvelopeIdsOf(e) && Reports(e).Some? && id == Reports(e).value.id ==> KindGiven(Mentions(e), id) == Reports(e).value.kind)
  }

  lemma KindOfMention(e: Event, id: string)
    ensures KindIs(e, id)
  {
    hide Reports, KindGiven;
    KindOfFive(EnvelopeMentions(e), if Reports(e).Some? then [(Reports(e).value.kind, Reports(e).value.id)] else [], id);
    MentionedIff(e, id);
  }

  /** The kind is that of the first mention. */
  lemma KindOfFive(five: seq<(Kind, string)>, tail: seq<(Kind, string)>, id: string)
    requires |five| == 5
    ensures KindGiven(five + tail, id) ==
      if five[0].1 == id then five[0].0 else if five[1].1 == id then five[1].0 else if five[2].1 == id then five[2].0
      else if five[3].1 == id then five[3].0 else if five[4].1 == id then five[4].0 else KindGiven(tail, id)
    ensures tail != [] && tail[0].1 == id ==> KindGiven(tail, id) == tail[0].0
  {
    hide KindGiven;
    var m := five + tail;
    assert m == [five[0]] + m[1..] && m[1..] == [five[1]] + m[2..] && m[2..] == [five[2]] + m[3..];
    assert m[3..] == [five[3]] + m[4..] && m[4..] == [five[4]] + tail;
    KindOfFirst(five[0], m[1..], id);
    KindOfFirst(five[1], m[2..], id);
    KindOfFirst(five[2], m[3..], id);
    KindOfFirst(five[3], m[4..], id);
    KindOfFirst(five[4], tail, id);
    if tail != [] { assert tail == [tail[0]] + tail[1..]; KindOfFirst(tail[0], tail[1..], id); }
  }

  lemma KindOfFirst(first: (Kind, string), rest: seq<(Kind, string)>, id: string)
    ensures KindGiven([first] + rest, id) == if first.1 == id then first.0 else KindGiven(rest, id)
  {
    assert ([first] + rest)[1..] == rest;
  }

  lemma MentionedIff(e: Event, id: string)
    ensures Mentioned(e, id) <==> id in EnvelopeIdsOf(e) || (Reports(e).Some? && id == Reports(e).value.id)
  {
    hide Reports;
    var m := Mentions(e);
    assert m[0].1 == e.flowSessionId && m[1].1 == e.flowTurnId && m[2].1 == e.teamSessionId && m[3].1 == e.teamTurnId && m[4].1 == e.callTurnId;
    assert Reports(e).Some? ==> |m| == 6 && m[5].1 == Reports(e).value.id;
  }

  // Whole logs.

  function MentionSet(e: Event): set<(Kind, string)> {
    set m | m in Mentions(e) && m.1 != ""
  }

  /** Every id a log mentions, with its kind. */
  function AllMentions(events: seq<Event>): set<(Kind, string)> {
    if events == [] then {} else AllMentions(events[..|events| - 1]) + MentionSet(events[|events| - 1])
  }

  /** No id stands for two kinds of nodes. */
  predicate OneKind(mentions: set<(Kind, string)>) {
    forall m, n :: m in mentions && n in mentions && m.1 == n.1 ==> m.0 == n.0
  }

  /** The owner that an event names for an id. */
  function Named(bonds: seq<Bond>, id: string): string {
    if bonds == [] then ""
    else if bonds[0].id == id && bonds[0].owner != "" then bonds[0].owner
    else Named(bonds[1..], id)
  }

  /** The owner in the first event of the log that names one. */
  function FirstOwner(events: seq<Event>, id: string): string {
    if events == [] then ""
    else
      var before := FirstOwner(events[..|events| - 1], id);
      if before != "" then before else Named(Bonds(events[|events| - 1]), id)
  }

  lemma {:induction false} KindGivenIsMention(mentions: seq<(Kind, string)>, i: nat)
    requires i < |mentions|
    ensures (KindGiven(mentions, mentions[i].1), mentions[i].1) in mentions
  {
    if mentions[0].1 != mentions[i].1 {
      assert mentions[1..][i - 1] == mentions[i];
      KindGivenIsMention(mentions[1..], i - 1);
    }
  }

  ghost predicate HoldsMentions(t: Tree, mentions: set<(Kind, string)>) {
    && "" !in t.nodes && (forall m :: m in mentions ==> Is(t, m.0, m.1))
    && forall k :: k in t.nodes ==> (t.nodes[k].kind, k) in mentions
  }

  /** The nodes of a log's graph are the ids it mentions, under their kinds. */
  lemma {:induction false} NodesOfLog(events: seq<Event>)
    requires OneKind(AllMentions(events))
    ensures HoldsMentions(Built(EMPTY, events), AllMentions(events))
  {
    hide Added, Mentions, MentionSet;
    if events != [] {
      var n := |events| - 1;
      NodesOfLog(events[..n]);
      NodesNext(Built(EMPTY, events[..n]), events[n], AllMentions(events[..n]));
    }
  }

  lemma NodesNext(t: Tree, e: Event, mentions: set<(Kind, string)>)
    requires HoldsMentions(t, mentions) && OneKind(mentions + MentionSet(e))
    ensures HoldsMentions(Added(t, e), mentions + MentionSet(e))
  {
    hide Added, Mentions, KindGiven;
    var u := Added(t, e);
    NodesAfter(t, e);
    forall k | k != "" && Mentioned(e, k) ensures (KindGiven(Mentions(e), k), k) in MentionSet(e) {
      var i :| 0 <= i < |Mentions(e)| && Mentions(e)[i].1 == k;
      KindGivenIsMention(Mentions(e), i);
    }
    forall m | m in MentionSet(e) ensures Is(u, m.0, m.1) {
      var i :| 0 <= i < |Mentions(e)| && Mentions(e)[i] == m;
      assert Mentioned(e, m.1);
    }
  }

  /** Both ends of every bond are mentioned, and they are of different kinds. */
  lemma BondsMentioned(e: Event, i: nat)
    requires i < |Bonds(e)|
    ensures var b := Bonds(e)[i];
            && (b.id != "" ==> (b.kind, b.id) in MentionSet(e)) && (b.owner != "" ==> (b.above, b.owner) in MentionSet(e))
            && b.kind != b.above
  {
    var m := Mentions(e);
    assert m[0] == (FlowSessionNode, e.flowSessionId) && m[1] == (FlowTurnNode, e.flowTurnId) && m[2] == (TeamSessionNode, e.teamSessionId);
    assert m[3] == (TeamTurnNode, e.teamTurnId) && m[4] == (CallTurnNode, e.callTurnId);
    if e.payload.AgentSession? { assert m[5] == (AgentSessionNode, e.payload.id); }
  }

  /** Where ids keep to their kinds, every named owner is the owner. */
  lemma {:induction false} GivenIsNamed(u: Tree, bonds: seq<Bond>, id: string)
    requires forall i :: 0 <= i < |bonds| ==> (Ties(u, bonds[i]) <==> bonds[i].id != "" && bonds[i].owner != "")
    requires id != ""
    ensures Given(u, bonds, id) == Named(bonds, id)
  {
    hide Ties;
    if bonds != [] {
      forall i | 0 <= i < |bonds| - 1 ensures bonds[1..][i] == bonds[i + 1] {}
      GivenIsNamed(u, bonds[1..], id);
    }
  }

  lemma BondsTie(u: Tree, e: Event, mentions: set<(Kind, string)>)
    requires HoldsMentions(u, mentions) && OneKind(mentions) && MentionSet(e) <= mentions
    ensures forall i :: 0 <= i < |Bonds(e)| ==> (Ties(u, Bonds(e)[i]) <==> Bonds(e)[i].id != "" && Bonds(e)[i].owner != "")
  {
    hide Bonds, MentionSet;
    forall i | 0 <= i < |Bonds(e)| ensures Ties(u, Bonds(e)[i]) <==> Bonds(e)[i].id != "" && Bonds(e)[i].owner != "" {
      BondsMentioned(e, i);
    }
  }

  /**
   * In a log whose ids keep to their kinds, a node's owner is the one that the first event to name one names: a flow
   * turn's and a team session's their flow session, a team turn's its flow turn, a call turn's its team turn, an agent
   * session's its team session.
   */
  lemma {:induction false} OwnersOfLog(events: seq<Event>)
    requires OneKind(AllMentions(events))
    ensures forall id :: id != "" ==> ParentOf(Built(EMPTY, events), id) == FirstOwner(events, id)
  {
    hide Added, Bonds, MentionSet, Given, Named;
    if events != [] {
      var n := |events| - 1;
      var t, u, e := Built(EMPTY, events[..n]), Built(EMPTY, events), events[n];
      OwnersOfLog(events[..n]);
      NodesOfLog(events[..n]);
      NodesOfLog(events);
      OwnersAfter(t, e);
      BondsTie(u, e, AllMentions(events));
      forall id | id != "" ensures ParentOf(u, id) == FirstOwner(events, id) { GivenIsNamed(u, Bonds(e), id); }
    }
  }

  /** A named owner comes with the kinds of its bond. */
  lemma {:induction false} NamedKinds(e: Event, bonds: seq<Bond>, id: string)
    requires Named(bonds, id) != "" && id != "" && forall i :: 0 <= i < |bonds| ==> bonds[i] in Bonds(e)
    ensures exists b :: b in Bonds(e) && b.id == id && b.owner == Named(bonds, id)
  {
    hide Bonds;
    if !(bonds[0].id == id && bonds[0].owner != "") {
      forall i | 0 <= i < |bonds| - 1 ensures bonds[1..][i] in Bonds(e) { assert bonds[1..][i] == bonds[i + 1]; }
      NamedKinds(e, bonds[1..], id);
    }
  }

  /** The bond by which the log first names an owner; both its ends are mentioned. */
  lemma {:induction false} FirstBond(events: seq<Event>, id: string) returns (b: Bond)
    requires id != "" && FirstOwner(events, id) != ""
    ensures b.id == id && b.owner == FirstOwner(events, id)
    ensures (b.kind, id) in AllMentions(events) && (b.above, b.owner) in AllMentions(events)
    ensures b.kind == CallTurnNode <==> b.above == TeamTurnNode
    ensures b.kind == TeamTurnNode <==> b.above == FlowTurnNode
  {
    hide Bonds, MentionSet, Named;
    var n := |events| - 1;
    if FirstOwner(events[..n], id) != "" {
      b := FirstBond(events[..n], id);
    } else {
      NamedKinds(events[n], Bonds(events[n]), id);
      b :| b in Bonds(events[n]) && b.id == id && b.owner == FirstOwner(events, id);
      var i :| 0 <= i < |Bonds(events[n])| && Bonds(events[n])[i] == b;
      BondsMentioned(events[n], i);
      LevelOfBond(events[n], i);
    }
  }

  lemma LevelOfBond(e: Event, i: nat)
    requires i < |Bonds(e)|
    ensures var b := Bonds(e)[i];
            (b.kind == CallTurnNode <==> b.above == TeamTurnNode) && (b.kind == TeamTurnNode <==> b.above == FlowTurnNode)
  {
  }
}
