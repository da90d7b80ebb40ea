/** What a session still owes its caller, folded from the event log. */
module BackgroundWork {
  import opened Wrappers
  import opened Text

  datatype Kind =
    | FlowStarted | FlowCompleted | FlowWaitingInput | FlowWaitingTool | FlowWaitingApproval
    | MailEnqueued | MailClaimed | MailDelivered | MailDead
    | TeamStarted | TeamCompleted | TeamWaitingInput | TeamWaitingTool | TeamWaitingApproval
    | Unrelated

  /** `activates` tells whether the turn in the payload is routed to another Team. */
  datatype Event = Event(seqNo: int, kind: Kind, flowTurnId: string, teamTurnId: string, messageId: string, activates: bool)

  datatype Key = FlowKey(id: string) | MailKey(id: string) | TeamKey(id: string)

  predicate EndsFlow(kind: Kind) {
    kind.FlowCompleted? || kind.FlowWaitingInput? || kind.FlowWaitingTool? || kind.FlowWaitingApproval?
  }

  predicate EndsTeam(kind: Kind) {
    kind.TeamCompleted? || kind.TeamWaitingInput? || kind.TeamWaitingTool? || kind.TeamWaitingApproval?
  }

  /** The piece of work an event opens or closes. */
  function Subject(e: Event): Option<Key> {
    if e.kind.FlowStarted? || EndsFlow(e.kind) then
      if Trim(e.flowTurnId) != "" then Some(FlowKey(Trim(e.flowTurnId))) else None
    else if e.kind.MailEnqueued? || e.kind.MailClaimed? || e.kind.MailDelivered? || e.kind.MailDead? then
      if e.messageId != "" then Some(MailKey(e.messageId)) else None
    else if e.kind.TeamStarted? || EndsTeam(e.kind) then
      if e.teamTurnId != "" then Some(TeamKey(e.teamTurnId)) else None
    else None
  }

  predicate Opens(e: Event) {
    e.kind.FlowStarted? || e.kind.MailEnqueued? || e.kind.MailClaimed? || e.kind.TeamStarted?
  }

  datatype Work = Work(mail: set<string>, teams: set<string>, flows: set<string>, lastTerminal: Option<Event>)
  {
    predicate Has(key: Key) {
      match key
      case MailKey(id) => id in mail
      case TeamKey(id) => id in teams
      case FlowKey(id) => id in flows
    }

    /** pending */
    predicate Pending() {
      mail != {} || teams != {} || flows != {} || (lastTerminal.Some? && lastTerminal.value.activates)
    }
  }

  const NO_WORK: Work := Work({}, {}, {}, None)

  lemma SameWork(a: Work, b: Work)
    requires a.lastTerminal == b.lastTerminal && forall key :: a.Has(key) <==> b.Has(key)
    ensures a == b
  {
    forall id ensures id in a.mail <==> id in b.mail { assert a.Has(MailKey(id)) <==> b.Has(MailKey(id)); }
    forall id ensures id in a.teams <==> id in b.teams { assert a.Has(TeamKey(id)) <==> b.Has(TeamKey(id)); }
    forall id ensures id in a.flows <==> id in b.flows { assert a.Has(FlowKey(id)) <==> b.Has(FlowKey(id)); }
  }

  /** One event's effect: it opens or closes its subject, and a finished turn is remembered. */
  function After(w: Work, e: Event): (r: Work)
    ensures forall key :: r.Has(key) <==> if Subject(e) == Some(key) then Opens(e) else w.Has(key)
    ensures r.lastTerminal == if EndsFlow(e.kind) then Some(e) else w.lastTerminal
  {
    var t := if EndsFlow(e.kind) then w.(lastTerminal := Some(e)) else w;
    match Subject(e)
    case None => t
    case Some(MailKey(id)) => t.(mail := if Opens(e) then t.mail + {id} else t.mail - {id})
    case Some(TeamKey(id)) => t.(teams := if Opens(e) then t.teams + {id} else t.teams - {id})
    case Some(FlowKey(id)) => t.(flows := if Opens(e) then t.flows + {id} else t.flows - {id})
  }

  /** backgroundWorkFromEvents */
  function Fold(w: Work, events: seq<Event>): Work {
    if events == [] then w else After(Fold(w, events[..|events| - 1]), events[|events| - 1])
  }

  lemma FoldNext(w: Work, events: seq<Event>, e: Event)
    ensures Fold(w, events + [e]) == After(Fold(w, events), e)
  {
    assert (events + [e])[..|events|] == events;
  }

  lemma {:induction false} FoldConcat(w: Work, a: seq<Event>, b: seq<Event>)
    ensures Fold(w, a + b) == Fold(Fold(w, a), b)
  {
    if b == [] {
      assert a + b == a;
    } else {
      assert (a + b)[..|a + b| - 1] == a + b[..|b| - 1];
      FoldConcat(w, a, b[..|b| - 1]);
    }
  }

  /** The tracker: three sets and the last terminal event, changed in place by each event. */
  class BackgroundTracker {
    var openMail: set<string>
    var openTeams: set<string>
    var openFlows: set<string>
    var lastTerminal: Option<Event>

    constructor ()
      ensures Now() == NO_WORK
    {
      openMail, openTeams, openFlows, lastTerminal := {}, {}, {}, None;
    }

    function Now(): Work
      reads this
    {
      Work(openMail, openTeams, openFlows, lastTerminal)
    }

    method Apply(e: Event)
      modifies this
      ensures Now() == After(old(Now()), e)
    {
      match e.kind {
        case FlowStarted =>
          var id := Trim(e.flowTurnId);
          if id != "" { openFlows := openFlows + {id}; }
        case FlowCompleted | FlowWaitingInput | FlowWaitingTool | FlowWaitingApproval =>
          var id := Trim(e.flowTurnId);
          if id != "" { openFlows := openFlows - {id}; }
          lastTerminal := Some(e);
        case MailEnqueued | MailClaimed =>
          if e.messageId != "" { openMail := openMail + {e.messageId}; }
        case MailDelivered | MailDead =>
          if e.messageId != "" { openMail := openMail - {e.messageId}; }
        case TeamStarted =>
          if e.teamTurnId != "" { openTeams := openTeams + {e.teamTurnId}; }
        case TeamCompleted | TeamWaitingInput | TeamWaitingTool | TeamWaitingApproval =>
          if e.teamTurnId != "" { openTeams := openTeams - {e.teamTurnId}; }
        case Unrelated =>
      }
    }

    method FromEvents(events: seq<Event>)
      requires Now() == NO_WORK
      modifies this
      ensures Now() == Fold(NO_WORK, events)
    {
      assert events[..0] == [];
      for i := 0 to |events|
        invariant Now() == Fold(NO_WORK, events[..i])
      {
        Apply(events[i]);
        FoldNext(NO_WORK, events[..i], events[i]);
        assert events[..i + 1] == events[..i] + [events[i]];
      }
      assert events[..|events|] == events;
    }
  }

  // What the fold means.

  /** Work begins: a turn starts, a message is put into a mailbox or taken out for delivery. */
  predicate Begins(e: Event, key: Key) {
    match key
    case FlowKey(id) => e.kind == FlowStarted && Trim(e.flowTurnId) == id != ""
    case MailKey(id) => (e.kind == MailEnqueued || e.kind == MailClaimed) && e.messageId == id != ""
    case TeamKey(id) => e.kind == TeamStarted && e.teamTurnId == id != ""
  }

  /** Work is over: the turn is completed or waits for somebody, the message is delivered or given up. */
  predicate Ends(e: Event, key: Key) {
    match key
    case FlowKey(id) =>
      (e.kind == FlowCompleted || e.kind == FlowWaitingInput || e.kind == FlowWaitingTool || e.kind == FlowWaitingApproval)
      && Trim(e.flowTurnId) == id
    case MailKey(id) => (e.kind == MailDelivered || e.kind == MailDead) && e.messageId == id
    case TeamKey(id) =>
      (e.kind == TeamCompleted || e.kind == TeamWaitingInput || e.kind == TeamWaitingTool || e.kind == TeamWaitingApproval)
      && e.teamTurnId == id
  }

  /** Begun at `i` and not over since. */
  predicate OpenSince(events: seq<Event>, i: nat, key: Key)
    requires i < |events|
  {
    Begins(events[i], key) && forall j :: i < j < |events| ==> !Ends(events[j], key)
  }

  lemma BeginsAndEnds(w: Work, e: Event, key: Key)
    requires !w.Has(FlowKey("")) && !w.Has(MailKey("")) && !w.Has(TeamKey(""))
    ensures After(w, e).Has(key) <==> Begins(e, key) || (w.Has(key) && !Ends(e, key))
    ensures After(w, e).lastTerminal ==
      if e.kind == FlowCompleted || e.kind == FlowWaitingInput || e.kind == FlowWaitingTool || e.kind == FlowWaitingApproval then Some(e)
      else w.lastTerminal
    ensures !After(w, e).Has(FlowKey("")) && !After(w, e).Has(MailKey("")) && !After(w, e).Has(TeamKey(""))
  {
    hide Trim;
  }

  /** A piece of work is open exactly when an event began it and no later one ended it. */
  lemma {:induction false} OpenWorkIff(events: seq<Event>, key: Key)
    ensures Fold(NO_WORK, events).Has(key) <==> exists i :: 0 <= i < |events| && OpenSince(events, i, key)
    ensures !Fold(NO_WORK, events).Has(FlowKey("")) && !Fold(NO_WORK, events).Has(MailKey("")) && !Fold(NO_WORK, events).Has(TeamKey(""))
  {
    hide Begins, Ends, After;
    if events != [] {
      var n := |events| - 1;
      var init, e := events[..n], events[n];
      OpenWorkIff(init, key);
      BeginsAndEnds(Fold(NO_WORK, init), e, key);
      if Begins(e, key) { assert OpenSince(events, n, key); }
      forall i | 0 <= i < n ensures OpenSince(events, i, key) <==> OpenSince(init, i, key) && !Ends(e, key) {
        OpenSinceLater(events, i, key);
      }
      if Fold(NO_WORK, init).Has(key) && !Ends(e, key) {
        var i :| 0 <= i < |init| && OpenSince(init, i, key);
        assert OpenSince(events, i, key);
      }
    }
  }

  lemma OpenSinceLater(events: seq<Event>, i: nat, key: Key)
    requires i < |events| - 1
    ensures OpenSince(events, i, key) <==> OpenSince(events[..|events| - 1], i, key) && !Ends(events[|events| - 1], key)
  {
    hide Begins, Ends;
    var init := events[..|events| - 1];
    forall j | 0 <= j < |init| ensures init[j] == events[j] {}
  }

  predicate Mentions(events: seq<Event>, key: Key) {
    exists i :: 0 <= i < |events| && Subject(events[i]) == Some(key)
  }

  predicate Finishes(events: seq<Event>) {
    exists i :: 0 <= i < |events| && EndsFlow(events[i].kind)
  }

  predicate LastTerminalAt(events: seq<Event>, i: nat)
    requires i < |events|
  {
    EndsFlow(events[i].kind) && forall j :: i < j < |events| ==> !EndsFlow(events[j].kind)
  }

  lemma {:induction false} TerminalIff(events: seq<Event>)
    ensures match Fold(NO_WORK, events).lastTerminal
            case Some(e) => exists i :: 0 <= i < |events| && events[i] == e && LastTerminalAt(events, i)
            case None => !Finishes(events)
  {
    if events != [] {
      var n := |events| - 1;
      var init, last := events[..n], events[n];
      TerminalIff(init);
      if EndsFlow(last.kind) {
        assert LastTerminalAt(events, n);
      } else if Fold(NO_WORK, init).lastTerminal.Some? {
        var i :| 0 <= i < |init| && init[i] == Fold(NO_WORK, init).lastTerminal.value && LastTerminalAt(init, i);
        assert events[i] == init[i] && LastTerminalAt(events, i);
      } else {
        forall i | 0 <= i < |events| ensures !EndsFlow(events[i].kind) {
          if i < n { assert init[i] == events[i]; }
        }
      }
    }
  }

  /** pending holds exactly when something was begun and has not ended since, or the last finished turn hands over. */
  lemma {:induction false} PendingIff(events: seq<Event>)
    ensures Fold(NO_WORK, events).Pending() <==>
      || (exists i, key :: 0 <= i < |events| && OpenSince(events, i, key))
      || (exists i :: 0 <= i < |events| && LastTerminalAt(events, i) && events[i].activates)
  {
    hide OpenSince, LastTerminalAt;
    var w := Fold(NO_WORK, events);
    TerminalIff(events);
    OpenSomething(w);
    if exists key :: w.Has(key) {
      var key :| w.Has(key);
      OpenWorkIff(events, key);
    }
    forall i, key | 0 <= i < |events| && OpenSince(events, i, key) ensures w.mail != {} || w.teams != {} || w.flows != {} {
      OpenWorkIff(events, key);
      assert w.Has(key);
    }
    forall i | 0 <= i < |events| && LastTerminalAt(events, i) ensures w.lastTerminal == Some(events[i]) {
      OneLastTerminal(events, i, w.lastTerminal);
    }
  }

  lemma OneLastTerminal(events: seq<Event>, i: nat, last: Option<Event>)
    requires i < |events| && LastTerminalAt(events, i)
    requires match last
             case Some(e) => exists k :: 0 <= k < |events| && events[k] == e && LastTerminalAt(events, k)
             case None => !Finishes(events)
    ensures last == Some(events[i])
  {
  }

  lemma OpenSomething(w: Work)
    ensures (w.mail != {} || w.teams != {} || w.flows != {}) <==> exists key :: w.Has(key)
  {
    if w.mail != {} { var id :| id in w.mail; assert w.Has(MailKey(id)); }
    if w.teams != {} { var id :| id in w.teams; assert w.Has(TeamKey(id)); }
    if w.flows != {} { var id :| id in w.flows; assert w.Has(FlowKey(id)); }
  }

  // Re-delivery.

  /** Both states agree, but for what the events in `rest` will still set. */
  ghost predicate Lags(w: Work, full: Work, rest: seq<Event>) {
    && (forall key :: !Mentions(rest, key) ==> (w.Has(key) <==> full.Has(key)))
    && (!Finishes(rest) ==> w.lastTerminal == full.lastTerminal)
  }

  lemma CaughtUp(w: Work, full: Work)
    requires Lags(w, full, [])
    ensures w == full
  {
    SameWork(w, full);
  }

  /** Where a log ends with `rest`, the fold has each subject of `rest` as its last event in there left it. */
  lemma {:induction false} LagShrinks(seed: Work, xs: seq<Event>, e: Event, rest: seq<Event>, w: Work)
    requires Lags(w, Fold(seed, xs + [e] + rest), [e] + rest)
    ensures Lags(After(w, e), Fold(seed, xs + [e] + rest), rest)
  {
    var full := Fold(seed, xs + [e] + rest);
    forall key | !Mentions(rest, key) ensures After(w, e).Has(key) <==> full.Has(key) {
      MentionsCons(e, rest, key);
      if Subject(e) == Some(key) { LastMention(seed, xs, e, rest, key); }
    }
    if !Finishes(rest) {
      FinishesCons(e, rest);
      if EndsFlow(e.kind) { LastFinish(seed, xs, e, rest); }
    }
  }

  lemma MentionsCons(e: Event, rest: seq<Event>, key: Key)
    ensures Mentions([e] + rest, key) <==> Subject(e) == Some(key) || Mentions(rest, key)
  {
    if Mentions(rest, key) { var i :| 0 <= i < |rest| && Subject(rest[i]) == Some(key); assert ([e] + rest)[i + 1] == rest[i]; }
    assert ([e] + rest)[0] == e;
  }

  lemma FinishesCons(e: Event, rest: seq<Event>)
    ensures Finishes([e] + rest) <==> EndsFlow(e.kind) || Finishes(rest)
  {
    if Finishes(rest) { var i :| 0 <= i < |rest| && EndsFlow(rest[i].kind); assert ([e] + rest)[i + 1] == rest[i]; }
    assert ([e] + rest)[0] == e;
  }

  lemma {:induction false} LastMention(seed: Work, xs: seq<Event>, e: Event, rest: seq<Event>, key: Key)
    requires Subject(e) == Some(key) && !Mentions(rest, key)
    ensures Fold(seed, xs + [e] + rest).Has(key) <==> Opens(e)
  {
    if rest == [] {
      assert xs + [e] + rest == xs + [e];
      FoldNext(seed, xs, e);
    } else {
      var n := |rest| - 1;
      assert xs + [e] + rest == (xs + [e] + rest[..n]) + [rest[n]];
      FoldNext(seed, xs + [e] + rest[..n], rest[n]);
      forall i | 0 <= i < n ensures Subject(rest[..n][i]) != Some(key) { assert rest[..n][i] == rest[i]; }
      LastMention(seed, xs, e, rest[..n], key);
    }
  }

  lemma {:induction false} LastFinish(seed: Work, xs: seq<Event>, e: Event, rest: seq<Event>)
    requires EndsFlow(e.kind) && !Finishes(rest)
    ensures Fold(seed, xs + [e] + rest).lastTerminal == Some(e)
  {
    if rest == [] {
      assert xs + [e] + rest == xs + [e];
      FoldNext(seed, xs, e);
    } else {
      var n := |rest| - 1;
      assert xs + [e] + rest == (xs + [e] + rest[..n]) + [rest[n]];
      FoldNext(seed, xs + [e] + rest[..n], rest[n]);
      forall i | 0 <= i < n ensures !EndsFlow(rest[..n][i].kind) { assert rest[..n][i] == rest[i]; }
      LastFinish(seed, xs, e, rest[..n]);
    }
  }

  /** Delivering the end of the log again leaves the state as it was. */
  lemma {:induction false} RedeliveryKeeps(seed: Work, xs: seq<Event>, s: seq<Event>, w: Work)
    requires Lags(w, Fold(seed, xs + s), s)
    ensures Fold(w, s) == Fold(seed, xs + s)
    decreases s
  {
    if s == [] {
      CaughtUp(w, Fold(seed, xs + s));
    } else {
      assert s == [s[0]] + s[1..] && xs + s == xs + [s[0]] + s[1..];
      LagShrinks(seed, xs, s[0], s[1..], w);
      RedeliveryKeeps(seed, xs + [s[0]], s[1..], After(w, s[0]));
      FoldConcat(w, [s[0]], s[1..]);
      FoldNext(w, [], s[0]);
      assert [] + [s[0]] == [s[0]];
    }
  }

  /** Tracking with re-delivered events equals one batch fold. */
  lemma {:induction false} IncrementalIsBatch(seed: Work, prefix: seq<Event>, s: seq<Event>, ys: seq<Event>)
    ensures Fold(seed, prefix + s + s + ys) == Fold(seed, prefix + s + ys)
  {
    var w := Fold(seed, prefix + s);
    RedeliveryKeeps(seed, prefix, s, w);
    FoldConcat(seed, prefix + s, s);
    FoldConcat(seed, prefix + s + s, ys);
    FoldConcat(seed, prefix + s, ys);
  }
}
