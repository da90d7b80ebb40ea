/** The model/tool loop of one agent turn, its suspension and its resumption. */
module TurnLoop {
  import opened Wrappers
  import opened Text
  import opened Messages
  import opened ContextLayers
  import opened Pairing
  import opened ContextConfig
  import opened ContextManagement
  import opened ToolCalls
  import opened Checkpoints
  import opened ModelRequests
  import opened TurnOutcomes
  import opened RoundRules

  datatype Saved = NoStore | SaveFailed | SavedAs(checkpoint: Checkpoint)

  /** One tool message for each call, in order and under its id. */
  predicate RepliesTo(calls: seq<ToolCall>, replies: seq<Message>) {
    |replies| == |calls| && forall i :: 0 <= i < |calls| ==> replies[i] == ToolMessage(calls[i].id, replies[i].content)
  }

  /** What a resumption appends: the awaited result, if one was awaited, and the user's input, if there is any. */
  ghost predicate AnswerLogged(pending: Pending, request: ResumeRequest, standing: Standing, hitl: bool, before: seq<Message>, after: seq<Message>) {
    exists content :: AwaitedText(pending, request, standing, hitl, content)
                      && after == before + AwaitedResult(pending, content) + UserInput(request.input)
  }

  ghost predicate ResultLogged(pending: Pending, request: ResumeRequest, standing: Standing, hitl: bool, before: seq<Message>, after: seq<Message>) {
    exists content :: AwaitedText(pending, request, standing, hitl, content) && after == before + AwaitedResult(pending, content)
  }

  lemma InputFollows(pending: Pending, request: ResumeRequest, standing: Standing, hitl: bool, before: seq<Message>, after: seq<Message>)
    requires ResultLogged(pending, request, standing, hitl, before, after)
    ensures AnswerLogged(pending, request, standing, hitl, before, after + UserInput(request.input))
  {
    hide AwaitedText, AwaitedResult, UserInput;
  }

  /** A checkpoint that cannot be taken up, or does not fit, ends the resumption there. */
  lemma LoadResolved(checkpoint: Checkpoint, request: ResumeRequest, standing: Standing, hitl: bool)
    ensures !standing.compatible ==> forall halted :: Resolved(checkpoint, request, standing, hitl, Some(Aborted(Restoring(Unfinished))), [], halted)
    ensures standing.compatible ==> Resolved(checkpoint, request, standing, hitl, Some(Aborted(Restoring(checkpoint.pending))), [], true)
  {
    hide Admits;
  }

  /** Only input that does not fit ends it behind an answer that let it go on. */
  lemma HeardResolved(checkpoint: Checkpoint, request: ResumeRequest, standing: Standing, hitl: bool, ended: Option<Outcome>, ran: seq<ToolCall>,
                      halted: bool)
    requires Resolved(checkpoint, request, standing, hitl, None, ran, false)
    requires ended.Some? ==> ended.value == Aborted(Resumption) && halted
    ensures Resolved(checkpoint, request, standing, hitl, ended, ran, halted)
  {
    hide Admits;
  }

  function AwaitedResult(pending: Pending, content: string): seq<Message> {
    match pending
    case PendingApproval(_, call) => [ToolMessage(call.id, content)]
    case PendingTool(_, callId) => [ToolMessage(callId, content)]
    case _ => []
  }

  function UserInput(input: string): seq<Message> {
    if Blank(input) then [] else [Plain(User, input)]
  }

  /** A whole exchange was logged: the response under its calls' final ids, then one tool message for each of them. */
  ghost predicate ExchangeLogged(round: nat, response: Response, before: seq<Message>, after: seq<Message>) {
    exists replies ::
      && RepliesTo(Identified(response.calls, round), replies)
      && after == before + [CallerMessage(response.text, Identified(response.calls, round))] + replies
  }

  /**
   * What an execution starts from: whether its context may be extended, whether its anchor is no empty
   * summary, by how many model rounds its count is ahead, and how many tool calls were charged before.
   */
  datatype Origin = Origin(ready: bool, plain: bool, lag: int, calls: nat)

  /** A prompt the loop may extend. */
  predicate Ready(prompt: seq<Message>) {
    Good(prompt, multiset{}) && HasAnchor(prompt)
  }

  predicate EndsReporting(outcome: Outcome, place: Place) {
    (outcome.Aborted? || outcome.Failed?) && outcome.place == place
  }

  const COMPLETION: string := "## Completion Feedback\n"

  /** Every round before the last went on; the last one ended the turn, or the limit was reached. */
  predicate Trailed(trail: seq<RoundResult>, begun: nat, limit: int, outcome: Outcome, end: int) {
    && (forall i :: 0 <= i < |trail| - 1 ==> trail[i].NextRound?)
    && if trail != [] && trail[|trail| - 1].End? then outcome == trail[|trail| - 1].outcome
       else
         && end == begun + |trail| >= limit
         && (outcome == Finished(false) || (outcome.Failed? && outcome.place == RoundLimit(end - limit)))
  }

  /** The input is checked in the first round of an execution, before the model is asked, and in no other. */
  predicate Guarded(story: Story, first: bool, result: RoundResult) {
    && (first && story.guardedInput ==> story.heard == [])
    && (story.heard == [] && result == End(Finished(false)) ==> first && story.guardedInput)
  }

  lemma GuardTold(agent: Agent, round: nat, limit: nat, first: bool, retries: nat, usage: Usage, after: Usage, loop: LoopState,
                  story: Story, result: RoundResult, halted: bool, unsaved: bool)
    requires RoundTold(agent, round, limit, first, retries, usage, after, loop, story, result, halted, unsaved)
    ensures Guarded(story, first, result)
  {
    hide ReplyTold, Exhausted, GaveUp;
  }

  lemma DecisiveConcludes(agent: Agent, results: seq<ToolResult>, i: nat, loop: LoopState, outcome: Outcome, unsaved: bool)
    requires FirstDecisive(results, i) && DecidedBy(results[i], outcome, unsaved)
    ensures Concluded(agent, results, loop, End(outcome), unsaved)
  {
    hide DecidedBy;
    forall k: nat | FirstDecisive(results, k) ensures k == i {}
  }

  lemma NoneConcludes(agent: Agent, results: seq<ToolResult>, loop: LoopState, result: RoundResult, unsaved: bool)
    requires NoneDecides(results)
    requires if !agent.Stuck(loop) then result.NextRound?
             else if agent.askWhenStuck then result.End? && Suspends(result.outcome, PendingInput, unsaved)
             else FailsAt(result, Stuck)
    ensures Concluded(agent, results, loop, result, unsaved)
  {
    hide DecidedBy;
  }

  lemma SuspendsFor(outcome: Outcome, pending: Pending, unsaved: bool)
    requires Suspends(outcome, pending, unsaved)
    ensures if outcome.Waiting? then outcome.pending == pending else outcome == Aborted(Suspending(pending)) && unsaved
  {
  }

  lemma AllReplied(calls: seq<ToolCall>, results: seq<ToolResult>)
    requires |calls| == |results| == |Reports(calls, results, |calls|)|
    requires forall i :: 0 <= i < |calls| ==> Reports(calls, results, |calls|)[i] == ToolMessage(calls[i].id, results[i].content)
    ensures RepliesTo(calls, Reports(calls, results, |calls|))
  {
  }

  lemma UnusableTold(agent: Agent, round: nat, limit: nat, retries: nat, usage: Usage, after: Usage, loop: LoopState, response: Response,
                     story: Story, result: RoundResult, halted: bool, unsaved: bool)
    requires !response.Usable(agent) && UnusableEnds(agent, response, retries < 1 && round + 1 < limit, result, halted)
    ensures ReplyTold(agent, round, limit, retries, usage, after, loop, response, story, result, halted, unsaved)
  {
  }

  lemma FinalTold(agent: Agent, round: nat, limit: nat, retries: nat, usage: Usage, after: Usage, loop: LoopState, response: Response,
                  story: Story, result: RoundResult, halted: bool, unsaved: bool)
    requires response.Usable(agent) && response.calls == []
    requires FinalEnds(agent, story.judged, retries < 1 && round + 1 < limit, round + 1 < limit, loop, result, halted)
    ensures ReplyTold(agent, round, limit, retries, usage, after, loop, response, story, result, halted, unsaved)
  {
  }

  lemma TextCounted(was: LoopState, text: string, response: Response, story: Story, halted: bool, loop: LoopState)
    requires response.calls == [] && story.batch.None?
    requires loop == was.(sameModelTexts :=
      if !Blank(response.text) && Trim(response.text) == Trim(text) then was.sameModelTexts + 1 else 1)
    ensures forall round: nat, over :: LoopCounted(was, text, response, Identified(response.calls, round), story, halted, over, loop)
  {
    hide Trim;
  }

  datatype Reaction = Use | GiveUp | Again | Mended

  /** An empty reply is asked for again, a refusal only if it may be, an overflow, once, when a compaction mends it. */
  predicate ReactsTo(reply: Reply, contextRecovered: bool, left: bool, reaction: Reaction, unmended: bool, halted: bool) {
    match reply
    case Nothing => reaction == GiveUp
    case Answered(answer) =>
      if answer.calls == [] && Blank(answer.text) && !answer.truncated && left then reaction == Again || (halted && reaction == GiveUp)
      else reaction == Use
    case Refused(contextLimit, retryable) =>
      && reaction != Use
      && (reaction == Mended ==> contextLimit && !contextRecovered)
      && (reaction == Again ==> retryable && left)
      && (reaction == GiveUp && !halted ==> (!retryable || !left) && (contextLimit ==> contextRecovered || unmended))
  }

  lemma ReactedTo(agent: Agent, heard: seq<Reply>, modelRetries: nat, recovered: bool, reaction: Reaction, unmended: bool, halted: bool)
    requires heard != [] && |heard| == modelRetries + 1 + (if recovered then 1 else 0)
    requires modelRetries <= (if agent.Retries() < 0 then 0 else agent.Retries())
    requires ReactsTo(heard[|heard| - 1], recovered, modelRetries < agent.Retries(), reaction, unmended, halted)
    ensures |heard| <= RequestsPerRound(agent.maxModelRetries)
    ensures match reaction
            case Use => heard[|heard| - 1].Answered? && Heeded(agent, heard, recovered, heard[|heard| - 1].response)
            case GiveUp => halted || GaveUp(agent, heard, recovered, unmended)
            case Again => Retryable(heard[|heard| - 1]) && modelRetries < agent.Retries()
            case Mended => Retryable(heard[|heard| - 1]) && !recovered
  {
    hide Blank;
  }

  /** All of them belong to this round and show this usage. */
  predicate SentIn(requests: seq<ModelRequest>, round: nat, usage: Usage) {
    forall i :: 0 <= i < |requests| ==> requests[i].round == round && requests[i].usage == usage
  }

  lemma NothingReported(usage: Usage, results: seq<ToolResult>)
    ensures Reported(usage, results, 0) == usage
  {
  }

  function WithResult(usage: Usage, result: ToolResult): Usage {
    usage.(toolOutput := usage.toolOutput + |result.content|, fileChanges := usage.fileChanges + result.fileChanges)
  }

  lemma ReportedNext(usage: Usage, results: seq<ToolResult>, i: nat)
    requires i < |results|
    ensures Reported(usage, results, i + 1) ==
      if results[i].next == WaitApproval then Reported(usage, results, i) else WithResult(Reported(usage, results, i), results[i])
  {
  }

  /** One execution of a turn: from a fresh prompt or a checkpoint to its outcome. */
  class Turn {
    const agent: Agent
    const maxRounds: nat
    const manager: MessageContextManager
    var usage: Usage
    var loop: LoopState
    var lastText: string
    var lastModelText: string
    var structuredRetries: nat
    var requests: seq<ModelRequest>
    var charged: seq<ToolCall>
    var ran: seq<ToolCall>
    var delegated: bool
    ghost var halted: bool
    ghost var unsaved: bool
    ghost var start: Origin
    ghost var owed: multiset<string>

    constructor (agent: Agent, requested: int, cost: Message -> nat, toolTokens: nat)
      ensures this.agent == agent && maxRounds == agent.RoundLimit(requested)
      ensures fresh(manager) && manager.active == [] && manager.removals == 0
      ensures manager.config == agent.context.WithDefaults() && manager.toolTokens == toolTokens
      ensures usage == NO_USAGE && requests == [] && charged == [] && ran == [] && !delegated && !halted && !unsaved
      ensures loop == NEW_LOOP && lastText == "" && lastModelText == "" && structuredRetries == 0
    {
      this.agent := agent;
      maxRounds := agent.RoundLimit(requested);
      var compactor: seq<Group> -> Option<string> := *;
      manager := new MessageContextManager(agent.context, cost, toolTokens, compactor);
      usage, loop, lastText, lastModelText, structuredRetries := NO_USAGE, NEW_LOOP, "", "", 0;
      requests, charged, ran, delegated := [], [], [], false;
      halted, unsaved := false, false;
      start, owed := Origin(false, false, 0, 0), multiset{};
    }

    /** Nothing can take the pairing away: there is no empty summary at the anchor, or none can be given up, or none was. */
    ghost predicate Kept()
      reads this`start, manager`removals
    {
      start.ready && (start.plain || KeepsSummaries(manager.config, manager.toolTokens) || manager.removals == 0)
    }

    /** The context lacks exactly the results that are owed. */
    ghost predicate Owing()
      reads this`start, this`owed, manager
    {
      Kept() ==> Good(manager.active, owed) && (start.plain ==> PlainAnchor(manager.active))
    }

    /** It is one the loop may go on with. */
    ghost predicate Open()
      reads this`start, this`owed, manager
    {
      Owing() && (Kept() ==> HasAnchor(manager.active))
    }

    /** The model rounds counted before `round`, and the tool calls charged. */
    ghost predicate Counted(round: int)
      reads this`start, this`usage, this`charged
    {
      && usage.modelRounds == round + start.lag && usage.toolCalls == start.calls + |charged|
      && (charged == [] || usage.ToolsWithin(agent.limits))
    }

    /** How an execution ends: what it says of its context and its checkpoint is so. */
    ghost predicate Ends(outcome: Outcome, end: int)
      reads this`start, this`owed, this`usage, this`delegated, manager
    {
      && outcome.Proper() && Owing() && (!delegated ==> owed == outcome.Owes())
      && Booked(outcome, end, start.lag, usage.toolCalls)
      && (outcome.Failed? && outcome.left.Some? ==> outcome.left.value.messages == Persisted(manager.active))
      && (Kept() && !delegated ==> Leaves(outcome, Persisted(manager.active), start.plain))
    }

    /** `halted` keeps that a message did not fit, or that the turn was cancelled or out of time. */
    method Add(message: Message) returns (ok: bool)
      requires Open() && Messages.Step(Owed(owed), message).Owed? && (message.injected ==> !message.IsCaller())
      modifies this`owed, this`halted, manager
      ensures halted == (old(halted) || !ok)
      ensures if ok then !manager.ExceedsHardLimit() else manager.cancelled || manager.ExceedsHardLimit()
      ensures manager.compactions >= old(manager.compactions) && (old(manager.cancelled) ==> manager.cancelled)
      ensures Open() && owed == Messages.Step(Owed(old(owed)), message).ids
      ensures manager.canonical == old(manager.canonical) + [message] && manager.removals >= old(manager.removals)
    {
      hide Good, HasAnchor, PlainAnchor, Appended, BlankMarked;
      ghost var before := owed;
      var err;
      ghost var plan;
      owed := Messages.Step(Owed(before), message).ids;
      err, plan := manager.AddMessageContext(message, before, owed);
      ok := err == NoError;
      if err != NoError { halted := true; }
    }

    /** A message nobody has to answer with a tool result. */
    method Say(role: Role, text: string) returns (ok: bool)
      requires Open() && owed == multiset{} && role != Tool
      modifies this`owed, this`halted, manager
      ensures halted == (old(halted) || !ok)
      ensures Open() && owed == multiset{}
      ensures manager.canonical == old(manager.canonical) + [Plain(role, text)] && manager.removals >= old(manager.removals)
      ensures manager.compactions >= old(manager.compactions) && (old(manager.cancelled) ==> manager.cancelled)
    {
      hide Open;
      ok := Add(Plain(role, text));
    }

    method Settle(id: string, content: string) returns (ok: bool)
      requires Open() && id in owed
      modifies this`owed, this`halted, manager
      ensures halted == (old(halted) || !ok)
      ensures Open() && owed == old(owed) - multiset{id}
      ensures manager.canonical == old(manager.canonical) + [ToolMessage(id, content)] && manager.removals >= old(manager.removals)
    {
      hide Open;
      ok := Add(ToolMessage(id, content));
    }

    /** saveCheckpoint, as the checkpoint reads when it is loaded again. */
    method SaveCheckpoint(nextRound: nat, text: string, pending: Pending, loop: LoopState) returns (saved: Saved)
      modifies this`unsaved
      ensures unsaved == (old(unsaved) || !saved.SavedAs?)
      ensures saved.SavedAs? ==>
        saved.checkpoint == Checkpoint(nextRound, text, Persisted(manager.active), usage, pending, loop)
    {
      saved := *;
      if saved.SavedAs? {
        saved := SavedAs(Checkpoint(nextRound, text, Persisted(manager.active), usage, pending, loop));
      } else {
        unsaved := true;
      }
    }

    /** A stored context is as good as the one it was taken from. */
    lemma StoredEnds(outcome: Outcome, end: int)
      requires Open() && outcome.Proper() && (!delegated ==> owed == outcome.Owes())
      requires outcome.Left().Some? ==> outcome.Left().value.messages == Persisted(manager.active)
      requires Booked(outcome, end, start.lag, usage.toolCalls)
      ensures Ends(outcome, end)
    {
      hide Good, HasAnchor, PlainAnchor, Booked;
      if Kept() && !delegated { WrittenStaysGood(manager.active, owed); }
    }

    /** A turn that ends without a checkpoint. */
    lemma Over(outcome: Outcome, end: int)
      requires Open() && outcome.Proper() && outcome.Left().None? && (!delegated ==> owed == outcome.Owes())
      ensures Ends(outcome, end)
    {
      hide Open, Ends;
      StoredEnds(outcome, end);
    }

    /** resultWithCheckpoint: the turn has failed, with what it had so far kept beside it. */
    method Fail(nextRound: nat, text: string, place: Place, loop: LoopState) returns (outcome: Outcome)
      requires Open() && place.Proper() && owed == place.Owes() && usage.modelRounds == nextRound + place.Repeats() + start.lag
      modifies this`unsaved
      ensures outcome.Failed? && outcome.place == place && Ends(outcome, nextRound + place.Repeats())
      ensures outcome.left.None? ==> unsaved
      ensures outcome.left.Some? ==>
        outcome.left.value == Checkpoint(nextRound, text, Persisted(manager.active), usage, Unfinished, loop)
    {
      hide Open, Ends;
      var saved := SaveCheckpoint(nextRound, text, Unfinished, loop);
      outcome := Failed(place, if saved.SavedAs? then Some(saved.checkpoint) else None);
      StoredEnds(outcome, nextRound + place.Repeats());
    }

    lemma SuspendedEnds(outcome: Outcome, nextRound: nat, text: string, pending: Pending, loop: LoopState)
      requires Open() && (!delegated ==> owed == pending.Owes()) && usage.modelRounds == nextRound + start.lag
      requires outcome == Aborted(Suspending(pending)) || outcome == Waiting(pending, None)
               || outcome == Waiting(pending, Some(Checkpoint(nextRound, text, Persisted(manager.active), usage, pending, loop)))
      ensures Ends(outcome, nextRound)
    {
      hide Open, Ends, Pending.Owes, Persisted;
      StoredEnds(outcome, nextRound);
    }

    /** saveWaitingCheckpoint, saveApprovalCheckpoint and saveToolCheckpoint. Only an approval insists on a store. */
    method Suspend(nextRound: nat, text: string, pending: Pending, loop: LoopState) returns (outcome: Outcome)
      requires Open() && (!delegated ==> owed == pending.Owes()) && usage.modelRounds == nextRound + start.lag
      modifies this`unsaved
      ensures Suspends(outcome, pending, unsaved) && (outcome.Waiting? && outcome.checkpoint.None? ==> unsaved)
      ensures outcome.Waiting? && outcome.checkpoint.Some? ==>
        outcome.checkpoint.value == Checkpoint(nextRound, text, Persisted(manager.active), usage, pending, loop)
      ensures outcome.Waiting? && pending.PendingApproval? ==> outcome.checkpoint.Some?
      ensures Ends(outcome, nextRound)
    {
      hide Open, Ends, Booked, Place.Proper, Place.Owes, Pending.Owes, Persisted;
      var saved := SaveCheckpoint(nextRound, text, pending, loop);
      match saved {
        case SaveFailed => outcome := Aborted(Suspending(pending));
        case NoStore => outcome := if pending.PendingApproval? then Aborted(Suspending(pending)) else Waiting(pending, None);
        case SavedAs(checkpoint) => outcome := Waiting(pending, Some(checkpoint));
      }
      SuspendedEnds(outcome, nextRound, text, pending, loop);
    }

    // One round.

    /** Compaction is never fatal here: the request may still fit. */
    method Compact(forced: bool) returns (ok: bool)
      requires Open() && owed == multiset{}
      modifies manager
      ensures Open() && manager.removals >= old(manager.removals)
      ensures if ok then !manager.ExceedsHardLimit() else manager.cancelled || manager.ExceedsHardLimit()
      ensures if forced || old(manager.NeedsCompaction()) then manager.compactions > old(manager.compactions) || manager.cancelled
              else manager.compactions == old(manager.compactions)
      ensures ok && forced ==> manager.compactions > old(manager.compactions)
      ensures manager.compactions >= old(manager.compactions) && (old(manager.cancelled) ==> manager.cancelled)
    {
      hide Good, HasAnchor, PlainAnchor;
      var err := manager.Compact(forced, multiset{});
      ok := err == NoError;
    }

    lemma Sendable(request: ModelRequest)
      requires Open() && owed == multiset{} && request.messages == manager.active
      ensures Kept() ==> AllPaired([request])
    {
      hide Quiet, Anchored, HasAnchor, PlainAnchor;
    }

    method Send(round: nat, added: seq<ModelRequest>) returns (sent: seq<ModelRequest>)
      requires Open() && owed == multiset{} && SentIn(added, round, usage) && (Kept() ==> AllPaired(added))
      modifies this`requests
      ensures exists request :: sent == added + [request] && requests == old(requests) + [request]
      ensures SentIn(sent, round, usage) && (Kept() ==> AllPaired(sent))
    {
      hide Open, AllPaired, Kept;
      var request := ModelRequest(round, manager.active, usage);
      Sendable(request);
      AllPairedConcat(added, [request]);
      requests := requests + [request];
      sent := added + [request];
    }

    /** What a reply of the provider leads to; `left` tells whether it may be tried again. */
    method React(reply: Reply, contextRecovered: bool, left: bool) returns (reaction: Reaction, ghost unmended: bool)
      requires Open() && owed == multiset{} && !halted
      modifies this`owed, this`halted, manager
      ensures Open() && owed == multiset{} && manager.removals >= old(manager.removals) && (halted ==> reaction == GiveUp)
      ensures ReactsTo(reply, contextRecovered, left, reaction, unmended, halted)
      ensures !halted && unmended && reaction == GiveUp ==> manager.cancelled || manager.ExceedsHardLimit()
      ensures manager.compactions >= old(manager.compactions) + (if reaction == Mended then 1 else 0)
      ensures old(manager.cancelled) ==> manager.cancelled
    {
      hide Open, Blank, MessageContextManager.ExceedsHardLimit, MessageContextManager.NeedsCompaction;
      reaction, unmended := GiveUp, false;
      match reply {
        case Nothing => return;
        case Answered(answer) =>
          if !(answer.calls == [] && Blank(answer.text) && !answer.truncated && left) { return Use, false; }
          var hint: string := *;
          var said := Say(User, hint);
          if !said { return; }
        case Refused(contextLimit, retryable) =>
          if contextLimit && !contextRecovered {
            var mended := Compact(true);
            if mended { return Mended, false; }
            unmended := true;
          }
          if !left || !retryable { return; }
      }
      var cancelled: bool := *;
      if cancelled { halted := true; } else { reaction := Again; }
    }

    /** The retry loop around model.Chat. */
    method CallModel(round: nat) returns (ok: bool, response: Response, added: seq<ModelRequest>, ghost heard: seq<Reply>, ghost recovered: bool,
                                          ghost unmended: bool)
      requires Open() && owed == multiset{} && !halted
      modifies this`requests, this`owed, this`halted, manager
      ensures Open() && owed == multiset{} && manager.removals >= old(manager.removals)
      ensures requests == old(requests) + added && 0 < |added| <= RequestsPerRound(agent.maxModelRetries)
      ensures SentIn(added, round, usage)
      ensures Kept() ==> AllPaired(added)
      ensures |heard| == |added| && forall i :: 0 <= i < |heard| - 1 ==> Retryable(heard[i])
      ensures if ok then !halted && Heeded(agent, heard, recovered, response) else halted || GaveUp(agent, heard, recovered, unmended)
      ensures !ok && !halted && unmended ==> manager.cancelled || manager.ExceedsHardLimit()
      ensures manager.compactions >= old(manager.compactions) + (if recovered then 1 else 0) && (old(manager.cancelled) ==> manager.cancelled)
    {
      assert AllPaired([]) && SentIn([], round, usage);
      hide Open, AllPaired, Kept, SentIn, ReactsTo, GaveUp, Heeded, Retryable, RequestsPerRound, MessageContextManager.ExceedsHardLimit;
      ok, added, heard, recovered, unmended := false, [], [], false, false;
      response := *;
      var contextRecovered, modelRetries := false, 0;
      var maxRetries := agent.maxModelRetries;
      if maxRetries == 0 { maxRetries := 2; }
      while true
        invariant Open() && owed == multiset{} && manager.removals >= old(manager.removals) && !halted
        invariant requests == old(requests) + added && |heard| == |added| && recovered == contextRecovered
        invariant |added| == modelRetries + if contextRecovered then 1 else 0
        invariant 0 <= modelRetries && modelRetries <= (if maxRetries < 0 then 0 else maxRetries)
        invariant SentIn(added, round, usage)
        invariant manager.compactions >= old(manager.compactions) + (if recovered then 1 else 0) && (old(manager.cancelled) ==> manager.cancelled)
        invariant forall i :: 0 <= i < |heard| ==> Retryable(heard[i])
        invariant Kept() ==> AllPaired(added)
        decreases (if maxRetries < 0 then 0 else maxRetries) - modelRetries + if contextRecovered then 0 else 1
      {
        added := Send(round, added);
        var reply: Reply := *;
        heard := heard + [reply];
        var reaction;
        reaction, unmended := React(reply, contextRecovered, modelRetries < maxRetries);
        ReactedTo(agent, heard, modelRetries, contextRecovered, reaction, unmended, halted);
        match reaction {
          case Use =>
            ok, response := true, reply.response;
            return;
          case GiveUp => return;
          case Again => modelRetries := modelRetries + 1;
          case Mended => contextRecovered, recovered := true, true;
        }
      }
    }

    /** checkUsage */
    method CheckUsage() returns (within: bool)
      ensures within <==> usage.Within(agent.limits)
    {
      var limits := agent.limits;
      if limits.maxInputTokens > 0 && usage.inputTokens > limits.maxInputTokens { return false; }
      if limits.maxOutputTokens > 0 && usage.outputTokens > limits.maxOutputTokens { return false; }
      if limits.maxFileChanges > 0 && usage.fileChanges > limits.maxFileChanges { return false; }
      if limits.maxToolOutput > 0 && usage.toolOutput > limits.maxToolOutput { return false; }
      within := true;
    }

    /** stuckReason */
    method StuckReason() returns (stuck: bool)
      ensures stuck <==> agent.Stuck(loop)
    {
      if agent.maxSameToolCalls > 0 && loop.sameToolCalls >= agent.maxSameToolCalls { return true; }
      if agent.maxNoProgressRounds > 0 && loop.noProgressRounds >= agent.maxNoProgressRounds { return true; }
      stuck := agent.maxSameModelTexts > 0 && loop.sameModelTexts >= agent.maxSameModelTexts;
    }

    /** What stands in front of the model call: cancellation, the budget, and the check of the input. */
    method Head(round: nat, first: bool, guarded: bool) returns (ended: Option<Outcome>)
      requires Open() && owed == multiset{} && Counted(round) && !halted
      modifies this`halted, this`unsaved
      ensures ended.Some? ==> Ends(ended.value, round) && HeadEnds(agent, first, guarded, usage, ended.value, halted)
      ensures ended.None? ==> !Exhausted(agent, usage) && !(first && guarded) && !halted && unsaved == old(unsaved)
    {
      hide Open, Ends;
      var timeUp: bool, cancelled: bool := *, *;
      if cancelled {
        halted := true;
        Over(Aborted(RoundHead), round);
        return Some(Aborted(RoundHead));
      }
      if timeUp || (agent.limits.maxModelRounds > 0 && usage.modelRounds >= agent.limits.maxModelRounds) {
        if timeUp { halted := true; }
        var outcome := Fail(round, lastText, RoundHead, loop);
        return Some(outcome);
      }
      if first && guarded {
        Over(Finished(false), round);
        return Some(Finished(false));
      }
      ended := None;
    }

    /** Everything before the reply is looked at: budget, compaction, the call itself and its charge. */
    method Ask(round: nat, first: bool) returns (ended: Option<Outcome>, response: Response, added: seq<ModelRequest>, ghost story: Story)
      requires Open() && owed == multiset{} && Counted(round) && !halted
      modifies this`requests, this`usage, this`owed, this`halted, this`unsaved, manager
      ensures requests == old(requests) + added && |added| <= RequestsPerRound(agent.maxModelRetries)
      ensures forall i :: 0 <= i < |added| ==> added[i].round == round && added[i].usage == old(usage)
      ensures Kept() ==> AllPaired(added)
      ensures manager.removals >= old(manager.removals)
      ensures |story.heard| == |added| && story.batch == None
      ensures ended.Some? ==> Ends(ended.value, if added == [] then round else round + 1)
      ensures ended.Some? && story.reply.None? ==> usage == old(usage) && UnansweredEnds(agent, first, usage, story, ended.value, halted)
      ensures ended.Some? && story.reply.Some? ==> !Spent(old(usage), story.reply.value).Within(agent.limits) && FailsAt(End(ended.value), Reply)
      ensures ended.None? ==> Open() && owed == multiset{} && Counted(round + 1) && usage.Within(agent.limits) && added != [] && !halted
      ensures ended.None? ==> story.reply == Some(response) && unsaved == old(unsaved)
      ensures added != [] && old(manager.NeedsCompaction()) ==> manager.compactions > old(manager.compactions) || manager.cancelled
      ensures story.reply.Some? ==>
        && usage == Spent(old(usage), story.reply.value) && !Exhausted(agent, old(usage)) && !(first && story.guardedInput)
        && Heeded(agent, story.heard, story.recovered, story.reply.value)
    {
      hide Open, Good, HasAnchor, Ends, GaveUp, Heeded, HeadEnds, Exhausted, Spent, Usage.Within;
      response, added := *, [];
      var guarded: bool := *;
      story := *;
      story := story.(guardedInput := guarded, heard := [], recovered := false, unmended := false, reply := None, batch := None);
      ended := Head(round, first, guarded);
      if ended.Some? { return; }
      if manager.NeedsCompaction() { var ignored := Compact(false); }
      var ok;
      ghost var heard, recovered, unmended;
      ok, response, added, heard, recovered, unmended := CallModel(round);
      story := story.(heard := heard, recovered := recovered, unmended := unmended);
      if !ok {
        Over(Aborted(Reply), round + 1);
        ended := Some(Aborted(Reply));
        return;
      }
      story := story.(reply := Some(response));
      ended := Charge(round, response);
    }

    /** The reply is charged before anybody looks at it. */
    method Charge(round: nat, response: Response) returns (ended: Option<Outcome>)
      requires Open() && owed == multiset{} && Counted(round)
      modifies this`usage, this`unsaved
      ensures usage == Spent(old(usage), response)
      ensures ended.Some? ==> Ends(ended.value, round + 1) && !usage.Within(agent.limits) && FailsAt(End(ended.value), Reply)
      ensures ended.None? ==> Counted(round + 1) && usage.Within(agent.limits) && unsaved == old(unsaved)
    {
      hide Open, Ends;
      usage := usage.(modelRounds := usage.modelRounds + 1, inputTokens := usage.inputTokens + response.inputTokens,
                      outputTokens := usage.outputTokens + response.outputTokens);
      var within := CheckUsage();
      ended := None;
      if !within {
        var outcome := Fail(round + 1, response.text, Reply, loop);
        ended := Some(outcome);
      }
    }

    /** The model is shown its own text and told what was wrong with it. */
    method Retry(round: nat, text: string, feedback: string) returns (result: RoundResult)
      requires Open() && owed == multiset{} && !halted
      modifies this`lastText, this`owed, this`halted, manager
      ensures result.NextRound? ==> Open() && owed == multiset{} && !halted && lastText == text
      ensures result.NextRound? ==> manager.canonical == old(manager.canonical) + [Plain(Assistant, text), Plain(User, feedback)]
      ensures manager.removals >= old(manager.removals) && Retried(result, halted)
      ensures result.End? ==> Ends(result.outcome, round + 1)
    {
      hide Open, Ends;
      var ok := Say(Assistant, text);
      if ok { ok := Say(User, feedback); }
      if !ok {
        Over(Aborted(Reply), round + 1);
        return End(Aborted(Reply));
      }
      lastText := text;
      result := NextRound;
    }

    /** A reply that was cut off, or that carries neither text nor calls. */
    method Unusable(round: nat, response: Response) returns (result: RoundResult)
      requires Open() && owed == multiset{} && Counted(round + 1) && !halted
      modifies this`lastText, this`structuredRetries, this`owed, this`halted, this`unsaved, manager
      ensures result.NextRound? ==> Open() && owed == multiset{} && round + 1 < maxRounds && !halted && unsaved == old(unsaved)
      ensures manager.removals >= old(manager.removals)
      ensures result.End? ==> Ends(result.outcome, round + 1)
      ensures UnusableEnds(agent, response, old(structuredRetries) < 1 && round + 1 < maxRounds, result, halted)
      ensures structuredRetries == old(structuredRetries) + if result.NextRound? || (result.End? && result.outcome.Aborted?) then 1 else 0
    {
      hide Open, Ends;
      if agent.structured && response.truncated {
        if structuredRetries < 1 && round + 1 < maxRounds {
          structuredRetries := structuredRetries + 1;
          var feedback: string := *;
          result := Retry(round, response.text, feedback);
        } else {
          Over(Finished(false), round + 1);
          result := End(Finished(false));
        }
      } else {
        var outcome := Fail(round + 1, lastText, Reply, loop);
        result := End(outcome);
      }
    }

    method CountText(text: string)
      modifies this`loop, this`lastText, this`lastModelText
      ensures loop == old(loop).(sameModelTexts :=
        if !Blank(text) && Trim(text) == Trim(old(lastModelText)) then old(loop).sameModelTexts + 1 else 1)
      ensures lastText == text
      ensures lastModelText == if !Blank(text) && Trim(text) == Trim(old(lastModelText)) then old(lastModelText) else text
    {
      lastText := text;
      if !Blank(text) && Trim(text) == Trim(lastModelText) {
        loop := loop.(sameModelTexts := loop.sameModelTexts + 1);
      } else {
        loop := loop.(sameModelTexts := 1);
        lastModelText := text;
      }
    }

    /** A reply without tool calls ends the turn, unless it has to be mended or completed first. */
    method FinalAnswer(round: nat, response: Response, judged: Judgement) returns (result: RoundResult)
      requires Open() && owed == multiset{} && Counted(round + 1) && !halted
      modifies this`lastText, this`structuredRetries, this`owed, this`halted, this`unsaved, manager
      ensures result.NextRound? ==> Open() && owed == multiset{} && round + 1 < maxRounds && !halted && unsaved == old(unsaved)
      ensures manager.removals >= old(manager.removals)
      ensures result.End? ==> Ends(result.outcome, round + 1)
      ensures FinalEnds(agent, judged, old(structuredRetries) < 1 && round + 1 < maxRounds, round + 1 < maxRounds, loop, result, halted)
      ensures structuredRetries ==
        old(structuredRetries)
        + if !judged.guarded && agent.structured && !judged.valid && old(structuredRetries) < 1 && round + 1 < maxRounds then 1 else 0
    {
      hide Open, Ends;
      if judged.guarded {
        Over(Finished(false), round + 1);
        return End(Finished(false));
      }
      if agent.structured && !judged.valid {
        if structuredRetries < 1 && round + 1 < maxRounds {
          structuredRetries := structuredRetries + 1;
          var feedback: string := *;
          result := Retry(round, response.text, feedback);
        } else {
          Over(Finished(false), round + 1);
          result := End(Finished(false));
        }
        return;
      }
      if judged.completion != "" && round + 1 < maxRounds {
        result := Retry(round, response.text, COMPLETION + judged.completion);
      } else if judged.completion != "" || (agent.maxSameModelTexts > 0 && loop.sameModelTexts >= agent.maxSameModelTexts) {
        var outcome := Fail(round + 1, response.text, Reply, loop);
        result := End(outcome);
      } else {
        Over(Finished(true), round + 1);
        result := End(Finished(true));
      }
    }

    // Tool calls.

    /** beforeTool, addTool and the repetition counter. */
    method ChargeTools(round: nat, response: Response) returns (over: bool, calls: seq<ToolCall>)
      requires response.calls != [] && Counted(round + 1) && !halted
      modifies this`usage, this`charged, this`loop, this`halted
      ensures over <==> halted || Beyond(agent.limits, old(usage), response.calls)
      ensures over ==> usage == old(usage) && charged == old(charged) && loop == old(loop)
      ensures !over ==> calls == Identified(response.calls, round) && charged == old(charged) + calls
      ensures !over ==> usage == old(usage).(toolCalls := old(usage).toolCalls + |calls|) && usage.ToolsWithin(agent.limits)
      ensures !over ==> loop == old(loop).(signature := Signature(calls),
        sameToolCalls := if Signature(calls) == old(loop).signature then old(loop).sameToolCalls + 1 else 1)
      ensures Counted(round + 1)
    {
      hide WithId;
      var timeUp: bool := *;
      if timeUp { halted := true; }
      calls := response.calls;
      over := timeUp || (agent.limits.maxToolCalls > 0 && usage.toolCalls + |calls| > agent.limits.maxToolCalls);
      if !over {
        calls := EnsureToolCallIds(calls, round);
        assert calls == Identified(response.calls, round);
        charged := charged + calls;
        usage := usage.(toolCalls := usage.toolCalls + |calls|);
        var signature := Signature(calls);
        loop := loop.(signature := signature, sameToolCalls := if signature == loop.signature then loop.sameToolCalls + 1 else 1);
      }
    }

    /** The asynchronous path: the call must stand alone, and the turn ends here whatever happens. */
    method StartAsync(round: nat, text: string, calls: seq<ToolCall>, call: ToolCall, starting: Starting) returns (outcome: Outcome)
      requires call in calls && Open() && owed == multiset(IdsOf(calls)) && Counted(round + 1)
      modifies this`unsaved
      ensures Ends(outcome, round + 1)
      ensures AsyncEnds(agent, starting, calls, call, outcome, unsaved)
      ensures outcome.Failed? ==> outcome.place == AsyncStart(calls)
      ensures outcome.Aborted? || outcome.Waiting? ==> |calls| == 1 && outcome.Owes() == multiset{call.id}
    {
      hide Open, Ends, ToolDecision, IdsOf;
      var decision := ToolDecision(starting.answer, agent.hitl);
      if |calls| != 1 || !starting.runner {
        outcome := Fail(round, text, AsyncStart(calls), NEW_LOOP);
        return;
      }
      OnlyId(calls);
      if decision == None || decision == Some(Deny) {
        outcome := Fail(round, text, AsyncStart(calls), loop);
      } else if decision == Some(RequireApproval) {
        outcome := Suspend(round + 1, text, PendingApproval(starting.base + ":approval:" + call.id, call), loop);
      } else if starting.hookFailed || !starting.started {
        outcome := Fail(round, text, AsyncStart(calls), NEW_LOOP);
      } else {
        outcome := Suspend(round + 1, text, PendingTool(starting.base + ":" + call.id, call.id), NEW_LOOP);
      }
    }

    /** One tool message for every result but those that wait for approval. */
    method ReportResults(round: nat, text: string, calls: seq<ToolCall>, results: seq<ToolResult>) returns (failed: Option<Outcome>)
      requires |calls| == |results| && Open() && owed == multiset(IdsOf(calls)) && usage.Within(agent.limits) && Counted(round + 1)
      modifies this`usage, this`owed, this`halted, this`unsaved, manager
      ensures Counted(round + 1) && usage.toolCalls == old(usage).toolCalls && manager.removals >= old(manager.removals)
      ensures failed.None? ==> Open() && owed == Unreported(calls, results, |calls|) && usage.Within(agent.limits)
      ensures failed.None? ==> usage == Reported(old(usage), results, |results|) && halted == old(halted) && unsaved == old(unsaved)
      ensures failed.None? ==> manager.canonical == old(manager.canonical) + Reports(calls, results, |calls|)
      ensures failed.Some? ==> Ends(failed.value, round + 1)
      ensures failed.Some? ==> halted || (!usage.Within(agent.limits) && failed.value.Failed?)
      ensures failed.Some? ==> exists i :: 0 < i <= |calls| && EndsReporting(failed.value, Reporting(calls, results, i))
    {
      hide Open, Unreported, Reports, IdsOf, Ends, StillOwed, Place.Owes, Place.Proper, EndsReporting, Reported;
      ghost var before := manager.canonical;
      ReportStart(calls, results);
      NothingReported(usage, results);
      for i := 0 to |calls|
        invariant Open() && owed == StillOwed(calls, results, i) && usage.Within(agent.limits) && Counted(round + 1)
        invariant usage == Reported(old(usage), results, i) && halted == old(halted) && unsaved == old(unsaved)
        invariant usage.toolCalls == old(usage).toolCalls && manager.removals >= old(manager.removals)
        invariant manager.canonical == before + Reports(calls, results, i)
      {
        ReportStep(calls, results, i);
        ReportingOwes(calls, results, i + 1);
        ReportedNext(old(usage), results, i);
        failed := ReportOne(round, text, calls[i].id, results[i], Reporting(calls, results, i + 1));
        if failed.Some? { return; }
      }
      ReportEnd(calls, results);
      failed := None;
    }

    method ReportOne(round: nat, text: string, id: string, result: ToolResult, place: Place)
      returns (failed: Option<Outcome>)
      requires Open() && id in owed && place.Reporting? && place.Proper()
      requires place.Owes() == (if result.next == WaitApproval then owed else owed - multiset{id})
      requires usage.Within(agent.limits) && Counted(round + 1)
      modifies this`usage, this`owed, this`halted, this`unsaved, manager
      ensures Counted(round + 1) && usage.toolCalls == old(usage).toolCalls && manager.removals >= old(manager.removals)
      ensures manager.canonical == old(manager.canonical) + if result.next == WaitApproval then [] else [ToolMessage(id, result.content)]
      ensures failed.None? ==> Open() && owed == place.Owes() && usage.Within(agent.limits) && halted == old(halted) && unsaved == old(unsaved)
      ensures failed.None? ==> usage == if result.next == WaitApproval then old(usage) else WithResult(old(usage), result)
      ensures failed.Some? ==> EndsReporting(failed.value, place) && Ends(failed.value, round + 1)
      ensures failed.Some? ==> halted || (!usage.Within(agent.limits) && failed.value.Failed?)
    {
      hide Open, Ends, IdsOf, StillOwed, Place.Owes, Place.Proper;
      if result.next == WaitApproval { return None; }
      var ok := Settle(id, result.content);
      if !ok {
        Over(Aborted(place), round + 1);
        return Some(Aborted(place));
      }
      usage := usage.(toolOutput := usage.toolOutput + |result.content|, fileChanges := usage.fileChanges + result.fileChanges);
      var within := CheckUsage();
      if !within {
        var outcome := Fail(round + 1, text, place, NEW_LOOP);
        return Some(outcome);
      }
      failed := None;
    }

    method CountProgress(results: seq<ToolResult>)
      modifies this`loop
      ensures loop == old(loop).(noProgressRounds :=
        if exists i :: 0 <= i < |results| && (results[i].success || results[i].effects) then 0 else old(loop).noProgressRounds + 1)
    {
      var progress := false;
      for i := 0 to |results|
        invariant progress <==> exists k :: 0 <= k < i && (results[k].success || results[k].effects)
      {
        if results[i].success || results[i].effects { progress := true; }
      }
      loop := loop.(noProgressRounds := if progress then 0 else loop.noProgressRounds + 1);
    }

    /** The first result that decides the turn does; otherwise the loop goes on unless it is stuck. */
    method Conclude(round: nat, calls: seq<ToolCall>, results: seq<ToolResult>, ghost gate: Option<nat>) returns (result: RoundResult)
      requires |calls| == |results| && Open() && owed == Unreported(calls, results, |calls|) && Counted(round + 1)
      requires gate.Some? ==> HeldAt(calls, results, gate.value)
      requires gate.None? && !delegated ==> NoneWaits(results, |results|)
      requires delegated ==> !NoneWaits(results, |results|)
      modifies this`unsaved
      ensures Concluded(agent, results, loop, result, unsaved)
      ensures result.NextRound? ==> owed == multiset{} && !agent.Stuck(loop) && unsaved == old(unsaved)
      ensures delegated ==> result.End? && result.outcome.MayDelegate()
      ensures result.NextRound? ==> RepliesTo(calls, Reports(calls, results, |calls|))
      ensures result.End? ==> Ends(result.outcome, round + 1)
    {
      hide Open, Unreported, Reports, Ends, Concluded, RepliesTo, Suspends;
      UnreportedIff(calls, results, |calls|);
      for i := 0 to |results|
        invariant unsaved == old(unsaved) && forall k :: 0 <= k < i ==> !Decides(results[k])
      {
        var decisive := results[i];
        if decisive.wantsInput {
          var outcome := Suspend(round + 1, lastText, PendingInput, loop);
          SuspendsFor(outcome, PendingInput, unsaved);
          DecisiveConcludes(agent, results, i, loop, outcome, unsaved);
          return End(outcome);
        }
        match decisive.next {
          case NoNext =>
          case Proceed =>
          case WaitApproval =>
            if decisive.approval.None? {
              Over(Aborted(Suspending(PendingInput)), round + 1);
              DecisiveConcludes(agent, results, i, loop, Aborted(Suspending(PendingInput)), unsaved);
              return End(Aborted(Suspending(PendingInput)));
            }
            var base: string := *;
            var call := decisive.approval.value;
            if !delegated { OneUnreported(calls, results, gate.value, |calls|); }
            var pending := PendingApproval(base + ":approval:" + call.id, call);
            var outcome := Suspend(round + 1, lastText, pending, loop);
            SuspendsFor(outcome, pending, unsaved);
            DecisiveConcludes(agent, results, i, loop, outcome, unsaved);
            return End(outcome);
          case _ =>
            Over(Finished(true), round + 1);
            DecisiveConcludes(agent, results, i, loop, Finished(true), unsaved);
            return End(Finished(true));
        }
      }
      EachIsReported(calls, results, |calls|);
      AllReplied(calls, results);
      var stuck := StuckReason();
      if !stuck {
        NoneConcludes(agent, results, loop, NextRound, unsaved);
        return NextRound;
      }
      var outcome;
      if agent.askWhenStuck {
        outcome := Suspend(round + 1, lastText, PendingInput, loop);
      } else {
        outcome := Fail(round + 1, lastText, Stuck, loop);
      }
      result := End(outcome);
      NoneConcludes(agent, results, loop, result, unsaved);
    }

    /** A reply with tool calls: charge them, record them, run them, report them. */
    method ToolRound(round: nat, response: Response, starting: Starting) returns (result: RoundResult, ghost batch: Option<seq<ToolResult>>)
      requires response.calls != [] && Open() && owed == multiset{} && !delegated && !halted
      requires Counted(round + 1) && usage.Within(agent.limits)
      modifies this`usage, this`charged, this`loop, this`ran, this`delegated, this`owed, this`halted, this`unsaved, manager
      ensures result.NextRound? ==>
        Open() && owed == multiset{} && !agent.Stuck(loop) && usage.Within(agent.limits) && !halted && unsaved == old(unsaved)
      ensures result.NextRound? ==> ExchangeLogged(round, response, old(manager.canonical), manager.canonical)
      ensures Counted(round + 1) && manager.removals >= old(manager.removals) && (delegated ==> result.End? && result.outcome.MayDelegate())
      ensures result.End? ==> Ends(result.outcome, round + 1)
      ensures ToolTold(old(usage), Identified(response.calls, round), starting, batch, result)
      ensures LoopOfTools(old(loop), Identified(response.calls, round), batch, Beyond(agent.limits, old(usage), response.calls))
      ensures ran == old(ran) || BatchRanSome(Identified(response.calls, round), old(ran), ran)
      ensures batch.Some? ==>
        BatchRanSome(Identified(response.calls, round), old(ran), ran) &&
        usage == Reported(old(usage).(toolCalls := old(usage).toolCalls + |response.calls|), batch.value, |batch.value|)
    {
      hide Open, Ends, WithId, RepliesTo, ExchangeLogged, IdsOf, StillOwed, OwedBy, NoneWaits, Concluded, Reported, BatchRanSome;
      batch := None;
      var over, calls := ChargeTools(round, response);
      if over {
        var outcome := Fail(round, response.text, ToolBudget, loop);
        return End(outcome), batch;
      }
      ghost var before := manager.canonical;
      result, batch := CallTools(round, response.text, calls, starting);
      if result.NextRound? {
        ghost var replies :| RepliesTo(calls, replies) && manager.canonical == before + [CallerMessage(response.text, calls)] + replies;
        LogsExchange(round, response, before, replies);
      }
    }

    /** ToolEnds, as this turn stands. */
    ghost predicate ToolTold(before: Usage, calls: seq<ToolCall>, starting: Starting, batch: Option<seq<ToolResult>>, result: RoundResult)
      reads this`usage, this`loop, this`halted, this`unsaved
    {
      && (Beyond(agent.limits, before, calls) ==> FailsAt(result, ToolBudget))
      && (!Beyond(agent.limits, before, calls) && !halted ==>
            match agent.AsyncCall(calls)
            case Some(call) => result.End? && AsyncEnds(agent, starting, calls, call, result.outcome, unsaved)
            case None =>
              batch.Some? || (!usage.Within(agent.limits) && result.End? && result.outcome.Failed? && result.outcome.place.Reporting?))
      && (batch.Some? ==> |batch.value| == |calls| && agent.AsyncCall(calls) == None && Concluded(agent, batch.value, loop, result, unsaved))
    }

    /** LoopCounted, for the counters that calls and results move. */
    ghost predicate LoopOfTools(before: LoopState, calls: seq<ToolCall>, batch: Option<seq<ToolResult>>, over: bool)
      reads this`loop, this`halted
    {
      && loop.sameModelTexts == before.sameModelTexts
      && (!over && !halted ==>
            && loop.signature == Signature(calls)
            && loop.sameToolCalls == if Signature(calls) == before.signature then before.sameToolCalls + 1 else 1)
      && (batch.Some? ==>
            loop.noProgressRounds ==
              if exists i :: 0 <= i < |batch.value| && (batch.value[i].success || batch.value[i].effects) then 0
              else before.noProgressRounds + 1)
    }

    method CallTools(round: nat, text: string, calls: seq<ToolCall>, starting: Starting)
      returns (result: RoundResult, ghost batch: Option<seq<ToolResult>>)
      requires calls != [] && Open() && owed == multiset{} && Counted(round + 1) && usage.Within(agent.limits) && !delegated && !halted
      modifies this`usage, this`loop, this`ran, this`delegated, this`owed, this`halted, this`unsaved, manager
      ensures result.NextRound? ==>
        Open() && owed == multiset{} && !agent.Stuck(loop) && usage.Within(agent.limits) && !halted && unsaved == old(unsaved)
      ensures result.NextRound? ==> exists replies ::
        RepliesTo(calls, replies) && manager.canonical == old(manager.canonical) + [CallerMessage(text, calls)] + replies
      ensures Counted(round + 1) && manager.removals >= old(manager.removals) && (delegated ==> result.End? && result.outcome.MayDelegate())
      ensures result.End? ==> Ends(result.outcome, round + 1)
      ensures !halted ==>
        match agent.AsyncCall(calls)
        case Some(call) => result.End? && AsyncEnds(agent, starting, calls, call, result.outcome, unsaved)
        case None => batch.Some? || (!usage.Within(agent.limits) && result.End? && result.outcome.Failed? && result.outcome.place.Reporting?)
      ensures batch.Some? ==>
        && |batch.value| == |calls| && agent.AsyncCall(calls) == None && Concluded(agent, batch.value, loop, result, unsaved)
        && usage == Reported(old(usage), batch.value, |batch.value|)
      ensures batch.Some? ==>
        && BatchRanSome(calls, old(ran), ran)
        && loop.noProgressRounds ==
             if exists i :: 0 <= i < |batch.value| && (batch.value[i].success || batch.value[i].effects) then 0
             else old(loop).noProgressRounds + 1
      ensures loop == old(loop).(noProgressRounds := loop.noProgressRounds)
      ensures ran == old(ran) || BatchRanSome(calls, old(ran), ran)
    {
      hide Open, Ends, RepliesTo, IdsOf, StillOwed, OwedBy, NoneWaits, Concluded, Reported, BatchRanSome;
      batch := None;
      CallerOwes(text, calls);
      var ok := Add(CallerMessage(text, calls));
      if !ok {
        Over(Aborted(Calling(calls)), round + 1);
        return End(Aborted(Calling(calls))), batch;
      }
      var asyncCall := agent.AsyncCall(calls);
      if asyncCall.Some? {
        var outcome := StartAsync(round, text, calls, asyncCall.value, starting);
        return End(outcome), batch;
      }
      result, batch := RunBatch(round, text, calls);
    }

    method RunBatch(round: nat, text: string, calls: seq<ToolCall>) returns (result: RoundResult, ghost batch: Option<seq<ToolResult>>)
      requires Open() && owed == multiset(IdsOf(calls)) && Counted(round + 1) && usage.Within(agent.limits) && !delegated && !halted
      modifies this`usage, this`loop, this`ran, this`delegated, this`owed, this`halted, this`unsaved, manager
      ensures result.NextRound? ==>
        Open() && owed == multiset{} && !agent.Stuck(loop) && usage.Within(agent.limits) && !halted && unsaved == old(unsaved)
      ensures result.NextRound? ==> exists replies :: RepliesTo(calls, replies) && manager.canonical == old(manager.canonical) + replies
      ensures Counted(round + 1) && manager.removals >= old(manager.removals) && (delegated ==> result.End? && result.outcome.MayDelegate())
      ensures result.End? ==> Ends(result.outcome, round + 1)
      ensures batch.None? ==> halted || (!usage.Within(agent.limits) && result.End? && result.outcome.Failed? && result.outcome.place.Reporting?)
      ensures batch.Some? ==>
        && |batch.value| == |calls| && Concluded(agent, batch.value, loop, result, unsaved)
        && usage == Reported(old(usage), batch.value, |batch.value|)
        && loop.noProgressRounds ==
             if exists i :: 0 <= i < |batch.value| && (batch.value[i].success || batch.value[i].effects) then 0
             else old(loop).noProgressRounds + 1
      ensures loop == old(loop).(noProgressRounds := loop.noProgressRounds)
      ensures BatchRanSome(calls, old(ran), ran)
    {
      hide Open, Ends, HeldAt, Unreported, IdsOf, Reports, RepliesTo, Concluded, Reported, BatchRanSome, Outcome.MayDelegate, StillOwed,
        NoneWaits, Usage.Within, Agent.Stuck;
      batch := None;
      var results, asked;
      ghost var gate;
      results, asked, gate := RunTools(calls);
      var failed := ReportResults(round, text, calls, results);
      if failed.Some? { return End(failed.value), batch; }
      CountProgress(results);
      delegated := asked;
      batch := Some(results);
      result := Conclude(round, calls, results, gate);
    }

    /** The calls of a batch, at the gates of this moment. */
    method RunTools(calls: seq<ToolCall>) returns (results: seq<ToolResult>, asked: bool, ghost gate: Option<nat>)
      modifies this`ran
      ensures |results| == |calls| && BatchRanSome(calls, old(ran), ran)
      ensures gate.Some? ==> !asked && HeldAt(calls, results, gate.value)
      ensures gate.None? ==> (asked <==> !NoneWaits(results, |results|))
    {
      hide HeldAt, IdsOf, AdmittedOf, Gates.Verdict, Gates.NeedsApproval, Gates.EarlierGate, BatchRanSome;
      var policy: ToolCall -> Answer := *;
      var called;
      ghost var objected;
      results, gate, objected, called, asked := ExecuteToolCalls(Gates(agent.tools, policy, agent.hitl), calls);
      BatchSo(policy, calls, objected, gate, called, ran);
      ran := ran + called;
    }

    /** Exactly the admitted calls of a batch ran, or none where one needs approval. */
    ghost predicate BatchRan(policy: ToolCall -> Answer, calls: seq<ToolCall>, objected: set<nat>, before: seq<ToolCall>, after: seq<ToolCall>) {
      var gates := Gates(agent.tools, policy, agent.hitl);
      after == before + if exists i :: 0 <= i < |calls| && gates.NeedsApproval(calls, i) then [] else AdmittedOf(gates, calls, objected, |calls|)
    }

    ghost predicate BatchRanSome(calls: seq<ToolCall>, before: seq<ToolCall>, after: seq<ToolCall>) {
      exists policy, objected :: BatchRan(policy, calls, objected, before, after)
    }

    lemma BatchSo(policy: ToolCall -> Answer, calls: seq<ToolCall>, objected: set<nat>, gate: Option<nat>, called: seq<ToolCall>,
                  before: seq<ToolCall>)
      requires gate.Some? <==> exists i :: 0 <= i < |calls| && Gates(agent.tools, policy, agent.hitl).NeedsApproval(calls, i)
      requires called == if gate.Some? then [] else AdmittedOf(Gates(agent.tools, policy, agent.hitl), calls, objected, |calls|)
      ensures BatchRanSome(calls, before, before + called)
    {
      hide Gates.NeedsApproval, AdmittedOf;
      assert BatchRan(policy, calls, objected, before, before + called);
    }

    lemma RanOn(calls: seq<ToolCall>, before: seq<ToolCall>, after: seq<ToolCall>)
      requires BatchRanSome(calls, before, after)
      ensures before <= after
    {
    }

    lemma LogsExchange(round: nat, response: Response, before: seq<Message>, replies: seq<Message>)
      requires RepliesTo(Identified(response.calls, round), replies)
      ensures ExchangeLogged(round, response, before,
                             before + [CallerMessage(response.text, Identified(response.calls, round))] + replies)
    {
    }

    lemma CallerOwes(text: string, calls: seq<ToolCall>)
      requires calls != []
      ensures Messages.Step(CLEAR, CallerMessage(text, calls)) == Owed(multiset(IdsOf(calls)))
    {
    }

    /** The reply: mended if it cannot be used, taken as the answer, or its calls carried out. */
    method TakeReply(round: nat, response: Response, ghost before: Usage, ghost asked: Story) returns (result: RoundResult, ghost story: Story)
      requires Open() && owed == multiset{} && Counted(round + 1) && usage.Within(agent.limits) && !delegated && !halted
      requires usage == Spent(before, response) && asked.batch == None
      modifies this, manager
      ensures requests == old(requests) && start == old(start) && manager.removals >= old(manager.removals)
      ensures delegated ==> result.End? && result.outcome.MayDelegate()
      ensures Counted(round + 1)
      ensures result.NextRound? ==>
        Open() && owed == multiset{} && usage.Within(agent.limits) && !halted && unsaved == old(unsaved)
      ensures result.End? ==> Ends(result.outcome, round + 1)
      ensures story == asked.(judged := story.judged, starting := story.starting, batch := story.batch)
      ensures ReplyTold(agent, round, maxRounds, old(structuredRetries), before, usage, loop, response, story, result, halted, unsaved)
      ensures old(ran) <= ran
      ensures ran == old(ran) || BatchRanSome(Identified(response.calls, round), old(ran), ran)
      ensures story.batch.Some? ==> BatchRanSome(Identified(response.calls, round), old(ran), ran)
      ensures response.Usable(agent) ==>
        LoopCounted(old(loop), old(lastModelText), response, Identified(response.calls, round), story, halted,
                    Beyond(agent.limits, before, response.calls), loop)
      ensures story.batch.Some? ==>
        usage == Reported(Spent(before, response).(toolCalls := before.toolCalls + |response.calls|), story.batch.value, |story.batch.value|)
    {
      hide Open, Ends, Concluded, Reported, AsyncEnds, WithId, FinalEnds, UnusableEnds, BatchRanSome, Signature, Trim, ReplyTold, ToolTold,
        LoopOfTools, LoopCounted, Identified, Usage.Within, Outcome.MayDelegate, Blank, Agent.Stuck, ExchangeLogged, Beyond, Spent,
        Counted, Usage.ToolsWithin;
      story := asked;
      if (agent.structured && response.truncated) || (response.calls == [] && Blank(response.text)) {
        ghost var mended := structuredRetries;
        result := Unusable(round, response);
        UnusableTold(agent, round, maxRounds, mended, before, usage, loop, response, story, result, halted, unsaved);
        return;
      }
      result, story := TakeUsable(round, response, before, asked);
    }

    /** A reply that can be used is taken as the answer, or its calls are carried out. */
    method TakeUsable(round: nat, response: Response, ghost before: Usage, ghost asked: Story) returns (result: RoundResult, ghost story: Story)
      requires Open() && owed == multiset{} && Counted(round + 1) && usage.Within(agent.limits) && !delegated && !halted
      requires usage == Spent(before, response) && asked.batch == None && response.Usable(agent)
      modifies this, manager
      ensures requests == old(requests) && start == old(start) && manager.removals >= old(manager.removals)
      ensures delegated ==> result.End? && result.outcome.MayDelegate()
      ensures Counted(round + 1)
      ensures result.NextRound? ==>
        Open() && owed == multiset{} && usage.Within(agent.limits) && !halted && unsaved == old(unsaved)
      ensures result.End? ==> Ends(result.outcome, round + 1)
      ensures story == asked.(judged := story.judged, starting := story.starting, batch := story.batch)
      ensures ReplyTold(agent, round, maxRounds, old(structuredRetries), before, usage, loop, response, story, result, halted, unsaved)
      ensures old(ran) <= ran
      ensures ran == old(ran) || BatchRanSome(Identified(response.calls, round), old(ran), ran)
      ensures story.batch.Some? ==> BatchRanSome(Identified(response.calls, round), old(ran), ran)
      ensures LoopCounted(old(loop), old(lastModelText), response, Identified(response.calls, round), story, halted,
                    Beyond(agent.limits, before, response.calls), loop)
      ensures story.batch.Some? ==>
        usage == Reported(Spent(before, response).(toolCalls := before.toolCalls + |response.calls|), story.batch.value, |story.batch.value|)
    {
      hide Open, Ends, Concluded, Reported, AsyncEnds, WithId, FinalEnds, UnusableEnds, BatchRanSome, Signature, Trim, ReplyTold, ToolTold,
        LoopOfTools, LoopCounted, Identified, Usage.Within, Outcome.MayDelegate, Blank, Agent.Stuck, ExchangeLogged, Beyond, Spent,
        Counted, Usage.ToolsWithin;
      story := asked;
      ghost var counted, text := loop, lastModelText;
      CountText(response.text);
      var judged: Judgement := *;
      story := story.(judged := judged);
      if response.calls == [] {
        ghost var mended := structuredRetries;
        result := FinalAnswer(round, response, judged);
        FinalTold(agent, round, maxRounds, mended, before, usage, loop, response, story, result, halted, unsaved);
        TextCounted(counted, text, response, story, halted, loop);
      } else {
        result, story := CarryOut(round, response, before, story, counted, text);
      }
    }

    /** The calls of a reply, behind its text. */
    method CarryOut(round: nat, response: Response, ghost before: Usage, ghost asked: Story, ghost counted: LoopState, ghost text: string)
      returns (result: RoundResult, ghost story: Story)
      requires Open() && owed == multiset{} && Counted(round + 1) && usage.Within(agent.limits) && !delegated && !halted
      requires usage == Spent(before, response) && response.Usable(agent) && response.calls != [] && asked.batch == None
      requires loop == counted.(sameModelTexts :=
        if !Blank(response.text) && Trim(response.text) == Trim(text) then counted.sameModelTexts + 1 else 1)
      modifies this`usage, this`charged, this`loop, this`ran, this`delegated, this`owed, this`halted, this`unsaved, manager
      ensures Counted(round + 1) && manager.removals >= old(manager.removals) && (delegated ==> result.End? && result.outcome.MayDelegate())
      ensures result.NextRound? ==> Open() && owed == multiset{} && usage.Within(agent.limits) && !halted && unsaved == old(unsaved)
      ensures result.End? ==> Ends(result.outcome, round + 1)
      ensures story == asked.(starting := story.starting, batch := story.batch)
      ensures forall retries :: ReplyTold(agent, round, maxRounds, retries, before, usage, loop, response, story, result, halted, unsaved)
      ensures old(ran) <= ran && (ran == old(ran) || BatchRanSome(Identified(response.calls, round), old(ran), ran))
      ensures story.batch.Some? ==>
        && BatchRanSome(Identified(response.calls, round), old(ran), ran)
        && usage == Reported(Spent(before, response).(toolCalls := before.toolCalls + |response.calls|), story.batch.value, |story.batch.value|)
      ensures LoopCounted(counted, text, response, Identified(response.calls, round), story, halted,
                          Beyond(agent.limits, before, response.calls), loop)
    {
      hide Open, Ends, Concluded, Reported, AsyncEnds, WithId, BatchRanSome, Signature, Trim, Blank, ReplyTold, ToolTold, LoopOfTools, LoopCounted,
        Identified, Usage.Within, Outcome.MayDelegate, Agent.Stuck, ExchangeLogged, Response.Usable;
      ghost var spoken, called := loop, ran;
      var starting: Starting := *;
      ghost var batch;
      result, batch := ToolRound(round, response, starting);
      if ran != called { RanOn(Identified(response.calls, round), called, ran); }
      story := asked.(starting := starting, batch := batch);
      forall retries ensures ReplyTold(agent, round, maxRounds, retries, before, usage, loop, response, story, result, halted, unsaved) {
        ToolsTold(round, retries, before, response, story, result);
      }
      ToolsCounted(counted, text, spoken, before, round, response, story);
    }

    lemma ToolsTold(round: nat, retries: nat, before: Usage, response: Response, story: Story, result: RoundResult)
      requires response.Usable(agent) && response.calls != []
      requires ToolTold(Spent(before, response), Identified(response.calls, round), story.starting, story.batch, result)
      ensures ReplyTold(agent, round, maxRounds, retries, before, usage, loop, response, story, result, halted, unsaved)
    {
      hide Concluded, AsyncEnds, Identified;
    }

    lemma ToolsCounted(was: LoopState, text: string, spoken: LoopState, before: Usage, round: nat, response: Response, story: Story)
      requires response.calls != []
      requires spoken == was.(sameModelTexts :=
        if !Blank(response.text) && Trim(response.text) == Trim(text) then was.sameModelTexts + 1 else 1)
      requires LoopOfTools(spoken, Identified(response.calls, round), story.batch, Beyond(agent.limits, before, response.calls))
      ensures LoopCounted(was, text, response, Identified(response.calls, round), story, halted, Beyond(agent.limits, before, response.calls), loop)
    {
      hide Trim, Signature;
    }

    /** One round of the loop; the input is checked in the first round of an execution only. */
    method RunRound(round: nat, first: bool) returns (result: RoundResult, added: seq<ModelRequest>, ghost story: Story)
      requires Open() && owed == multiset{} && Counted(round) && !delegated && !halted
      modifies this, manager
      ensures requests == old(requests) + added && |added| <= RequestsPerRound(agent.maxModelRetries)
      ensures forall i :: 0 <= i < |added| ==> added[i].round == round && added[i].usage == old(usage)
      ensures Kept() ==> AllPaired(added)
      ensures start == old(start) && manager.removals >= old(manager.removals) && (delegated ==> result.End? && result.outcome.MayDelegate())
      ensures usage.toolCalls == start.calls + |charged| && (charged == [] || usage.ToolsWithin(agent.limits))
      ensures result.NextRound? ==>
        Open() && owed == multiset{} && Counted(round + 1) && usage.Within(agent.limits) && added != [] && !halted && unsaved == old(unsaved)
      ensures result.End? ==> Ends(result.outcome, if added == [] then round else round + 1)
      ensures |story.heard| == |added|
      ensures RoundTold(agent, round, maxRounds, first, old(structuredRetries), old(usage), usage, loop, story, result, halted, unsaved)
      ensures old(ran) <= ran
      ensures ran == old(ran) || (story.reply.Some? && BatchRanSome(Identified(story.reply.value.calls, round), old(ran), ran))
      ensures story.batch.Some? ==> story.reply.Some? && BatchRanSome(Identified(story.reply.value.calls, round), old(ran), ran)
      ensures story.reply.Some? && Spent(old(usage), story.reply.value).Within(agent.limits) && story.reply.value.Usable(agent) ==>
        LoopCounted(old(loop), old(lastModelText), story.reply.value, Identified(story.reply.value.calls, round), story, halted,
                    Beyond(agent.limits, old(usage), story.reply.value.calls), loop)
      ensures story.batch.Some? && story.reply.Some? ==>
        usage == Reported(Spent(old(usage), story.reply.value).(toolCalls := old(usage).toolCalls + |story.reply.value.calls|),
                          story.batch.value, |story.batch.value|)
    {
      hide Open, Ends, Reported, UnansweredEnds, Heeded, ReplyTold, LoopCounted, BatchRanSome, Exhausted, Identified, AllPaired;
      var ended, response;
      ended, response, added, story := Ask(round, first);
      if ended.Some? { return End(ended.value), added, story; }
      result, story := TakeReply(round, response, old(usage), story);
    }

    /** The record kept so far, from round `begun` up to but not including `round`. */
    ghost predicate Record(begun: nat, round: nat)
      reads this
    {
      Recorded(requests, begun, round, start.lag, start.calls, agent.limits, RequestsPerRound(agent.maxModelRetries))
    }

    /** One turn of the loop, with what is recorded of it. */
    method Step(begun: nat, round: nat) returns (result: RoundResult, next: nat, ghost story: Story)
      requires begun <= round < maxRounds && Open() && owed == multiset{} && Counted(round) && !delegated && !halted
      requires (round > begun ==> usage.Within(agent.limits)) && Record(begun, round) && (Kept() ==> AllPaired(requests))
      modifies this, manager
      ensures round <= next <= round + 1 && Record(begun, next) && (Kept() ==> AllPaired(requests))
      ensures usage.toolCalls == start.calls + |charged| && (charged == [] || usage.ToolsWithin(agent.limits))
      ensures start == old(start) && manager.removals >= old(manager.removals) && old(ran) <= ran
      ensures delegated ==> result.End? && result.outcome.MayDelegate()
      ensures result.NextRound? ==>
        next == round + 1 && Open() && owed == multiset{} && Counted(next) && usage.Within(agent.limits) && !delegated && !halted
      ensures result.End? ==> Ends(result.outcome, next)
      ensures Guarded(story, round == begun, result)
    {
      hide Open, Ends, Recorded, RoundTold, Guarded, LoopCounted, BatchRanSome, Identified, Reported, AllPaired;
      ghost var before, spent, mended := requests, usage, structuredRetries;
      var added;
      result, added, story := RunRound(round, round == begun);
      GuardTold(agent, round, maxRounds, round == begun, mended, spent, usage, loop, story, result, halted, unsaved);
      RecordedNext(before, added, begun, round, spent, start.calls, agent.limits, RequestsPerRound(agent.maxModelRetries));
      AllPairedConcat(before, added);
      next := if added != [] then round + 1 else round;
    }

    /** The loop of Run, from round `begun` to an outcome, before round `end`. */
    method Rounds(begun: nat) returns (outcome: Outcome, end: nat, ghost trail: seq<RoundResult>, ghost stories: seq<Story>)
      requires Open() && owed == multiset{} && Counted(begun) && requests == [] && !delegated && !halted
      modifies this, manager
      ensures begun <= end && (end <= maxRounds || end == begun) && Record(begun, end)
      ensures usage.toolCalls == start.calls + |charged| && (charged == [] || usage.ToolsWithin(agent.limits))
      ensures Kept() ==> AllPaired(requests)
      ensures start == old(start) && manager.removals >= old(manager.removals) && (delegated ==> outcome.MayDelegate())
      ensures old(ran) <= ran && Ends(outcome, end)
      ensures Trailed(trail, begun, maxRounds, outcome, end) && |stories| == |trail|
      ensures forall i :: 0 <= i < |trail| ==> Guarded(stories[i], i == 0, trail[i])
    {
      hide Open, Ends, Recorded, Guarded, Counted, Usage.Within;
      trail, stories := [], [];
      var round := begun;
      NothingRecorded(begun, start.lag, start.calls, agent.limits, RequestsPerRound(agent.maxModelRetries));
      while round < maxRounds
        invariant begun <= round && (round <= maxRounds || round == begun)
        invariant Open() && owed == multiset{} && Counted(round)
        invariant round > begun ==> usage.Within(agent.limits)
        invariant Record(begun, round) && (Kept() ==> AllPaired(requests))
        invariant start == old(start) && manager.removals >= old(manager.removals) && !delegated && !halted
        invariant old(ran) <= ran && |trail| == round - begun && forall i :: 0 <= i < |trail| ==> trail[i].NextRound?
        invariant |stories| == |trail| && forall i :: 0 <= i < |trail| ==> Guarded(stories[i], i == 0, trail[i])
        decreases maxRounds - round
      {
        var result, next;
        ghost var story;
        result, next, story := Step(begun, round);
        trail, stories := trail + [result], stories + [story];
        round := next;
        if result.End? { return result.outcome, round, trail, stories; }
      }
      end := round;
      outcome := RunOut(round);
    }

    /** The rounds are used up. */
    method RunOut(round: nat) returns (outcome: Outcome)
      requires Open() && owed == multiset{} && Counted(round) && round >= maxRounds
      modifies this`unsaved
      ensures Ends(outcome, round)
      ensures outcome == Finished(false) || (outcome.Failed? && outcome.place == RoundLimit(round - maxRounds))
      ensures usage.toolCalls == start.calls + |charged| && (charged == [] || usage.ToolsWithin(agent.limits))
    {
      hide Open, Ends;
      var guarded: bool := *;
      if guarded {
        outcome := Finished(false);
        Over(outcome, round);
      } else {
        outcome := Fail(maxRounds, lastText, RoundLimit(round - maxRounds), loop);
      }
    }

    // Entering the loop.

    /** A fresh turn fills an empty context with the rendered prompt, message by message. */
    method Begin(prompt: seq<Message>) returns (ended: Option<Outcome>)
      requires manager.active == [] && usage == NO_USAGE && charged == [] && !halted
      modifies this`start, this`owed, this`halted, manager
      ensures halted == ended.Some? && (halted ==> manager.cancelled || manager.ExceedsHardLimit())
      ensures start == Origin(Ready(prompt), PlainAnchor(prompt), 0, 0) && manager.removals >= old(manager.removals)
      ensures ended.None? ==> Open() && owed == multiset{} && Counted(0) && manager.canonical == old(manager.canonical) + prompt
      ensures ended.Some? ==> Ends(ended.value, 0)
      ensures ended.Some? ==> exists n :: 0 < n <= |prompt| && ended.value == Aborted(Filling(prompt[..n]))
    {
      hide Good, HasAnchor, PlainAnchor, OwedBy, Ready;
      start, owed := Origin(Ready(prompt), PlainAnchor(prompt), 0, 0), multiset{};
      EmptyIsGood();
      assert prompt[..0] == [];
      for i := 0 to |prompt|
        invariant start == Origin(Ready(prompt), PlainAnchor(prompt), 0, 0) && manager.removals >= old(manager.removals)
        invariant owed == OwedBy(prompt[..i]) && Owing() && !halted
        invariant Kept() && HasAnchor(prompt[..i]) ==> HasAnchor(manager.active)
        invariant manager.canonical == old(manager.canonical) + prompt[..i]
      {
        assert prompt[..i + 1] == prompt[..i] + [prompt[i]];
        var failed := Fill(prompt, i);
        if failed {
          ended := Some(Aborted(Filling(prompt[..i + 1])));
          Unanchored(ended.value);
          return;
        }
      }
      assert prompt[..|prompt|] == prompt;
      if start.ready { ReadyOwesNothing(prompt); }
      owed := multiset{};
      ended := None;
    }

    method Fill(prompt: seq<Message>, i: nat) returns (failed: bool)
      requires i < |prompt| && start == Origin(Ready(prompt), PlainAnchor(prompt), 0, 0)
      requires owed == OwedBy(prompt[..i]) && Owing()
      requires Kept() && HasAnchor(prompt[..i]) ==> HasAnchor(manager.active)
      modifies this`owed, this`halted, manager
      ensures manager.removals >= old(manager.removals) && halted == (old(halted) || failed)
      ensures if failed then manager.cancelled || manager.ExceedsHardLimit() else !manager.ExceedsHardLimit()
      ensures manager.canonical == old(manager.canonical) + [prompt[i]]
      ensures owed == OwedBy(prompt[..i + 1]) && Owing()
      ensures Kept() && HasAnchor(prompt[..i + 1]) ==> HasAnchor(manager.active)
    {
      hide Good, HasAnchor, PlainAnchor, OwedBy, Ready, MayFollow, StaysPlain, Appended;
      ghost var before := owed;
      owed := OwedBy(prompt[..i + 1]);
      if start.ready {
        PrefixStep(prompt, i);
        if HasAnchor(prompt[..i]) ==> HasAnchor(manager.active) { PrefixMayFollow(prompt, i, manager.active); }
      }
      var err;
      ghost var plan;
      err, plan := manager.AddMessageContext(prompt[i], before, owed);
      failed := err != NoError;
      if err != NoError { halted := true; }
    }

    /** An execution that ended before there was anything to go on with. */
    lemma Unanchored(outcome: Outcome)
      requires Owing() && outcome.Aborted? && outcome.Proper() && owed == outcome.Owes()
      ensures forall end :: Ends(outcome, end)
    {
      hide Good, HasAnchor, PlainAnchor;
      if Kept() { WrittenStaysGood(manager.active, owed); }
    }

    /** The checkpoint's context takes the place of the empty one, unless the checkpoint is refused or does not fit. */
    method Load(checkpoint: Checkpoint, request: ResumeRequest, compatible: bool) returns (ended: Option<Outcome>)
      requires manager.active == [] && !halted
      modifies this`start, this`owed, this`halted, manager
      ensures start == From(checkpoint, request) && manager.removals == old(manager.removals) && manager.canonical == old(manager.canonical)
      ensures ended.None? ==> Open() && owed == checkpoint.pending.Owes() && compatible && !halted
      ensures ended.Some? ==> Ends(ended.value, checkpoint.nextRound)
      ensures ended.Some? ==>
        ended.value == Aborted(Restoring(if compatible then checkpoint.pending else Unfinished)) && (compatible ==> halted)
      ensures compatible ==> (ended.Some? <==> manager.ExceedsHardLimit())
    {
      hide Open, Ends, From, StoredMessages;
      start, owed := From(checkpoint, request), multiset{};
      if !compatible {
        ended := Some(Aborted(Restoring(Unfinished)));
        NothingLoaded(checkpoint.nextRound);
        return;
      }
      var err := manager.RestoreActive(checkpoint.messages);
      owed := checkpoint.pending.Owes();
      Loaded(checkpoint, request);
      ended := None;
      if err != NoError {
        halted := true;
        ended := Some(Aborted(Restoring(checkpoint.pending)));
        Over(ended.value, checkpoint.nextRound);
      }
    }

    lemma NothingLoaded(end: int)
      requires manager.active == [] && owed == multiset{}
      ensures Ends(Aborted(Restoring(Unfinished)), end)
    {
      hide Good, HasAnchor, PlainAnchor, Ends;
      EmptyIsGood();
      Unanchored(Aborted(Restoring(Unfinished)));
    }

    lemma Loaded(checkpoint: Checkpoint, request: ResumeRequest)
      requires start == From(checkpoint, request) && owed == checkpoint.pending.Owes()
      requires manager.active == StoredMessages(checkpoint.messages, manager.config)
      ensures Open()
    {
      hide Good, HasAnchor, PlainAnchor, StoredMessages;
      if start.ready { ReadStaysGood(checkpoint.messages, manager.config, owed); }
    }

    /** A resumed turn restores the context and appends what it was waiting for. */
    method Restore(checkpoint: Checkpoint, request: ResumeRequest, standing: Standing) returns (ended: Option<Outcome>)
      requires manager.active == [] && charged == [] && ran == [] && !delegated && !halted
      modifies this`start, this`owed, this`usage, this`loop, this`lastText, this`lastModelText, this`ran, this`halted, this`unsaved, manager
      ensures start == From(checkpoint, request) && manager.removals >= old(manager.removals)
      ensures ended.None? ==> Open() && owed == multiset{} && Counted(checkpoint.nextRound) && !halted
      ensures ended.None? ==> loop == checkpoint.loop && lastText == lastModelText == checkpoint.lastText
      ensures ended.None? && request.Answers(checkpoint.pending) ==>
        AnswerLogged(checkpoint.pending, request, standing, agent.hitl, old(manager.canonical), manager.canonical)
      ensures ended.Some? ==> Ends(ended.value, checkpoint.nextRound)
      ensures Resolved(checkpoint, request, standing, agent.hitl, ended, ran, halted)
      ensures ended.Some? && !ended.value.Aborted? ==> usage.toolCalls == checkpoint.usage.toolCalls
    {
      hide Open, Ends, Good, HasAnchor, PlainAnchor, Trim, ToolDecision, From, MessageContextManager.ExceedsHardLimit, AnswerLogged, ResultLogged,
        UserInput, Counted, Resolved;
      LoadResolved(checkpoint, request, standing, agent.hitl);
      ended := Load(checkpoint, request, standing.compatible);
      if ended.Some? { return; }
      usage, loop := checkpoint.usage, checkpoint.loop;
      lastText, lastModelText := checkpoint.lastText, checkpoint.lastText;
      CountedFrom(checkpoint, request);
      ghost var before := manager.canonical;
      ended := Answer(checkpoint, request, standing);
      if ended.Some? { return; }
      ghost var answered := manager.canonical;
      ended := Hear(checkpoint, request);
      HeardResolved(checkpoint, request, standing, agent.hitl, ended, ran, halted);
      if ended.None? && request.Answers(checkpoint.pending) { InputFollows(checkpoint.pending, request, standing, agent.hitl, before, answered); }
    }

    lemma CountedFrom(checkpoint: Checkpoint, request: ResumeRequest)
      requires start == From(checkpoint, request) && usage == checkpoint.usage && charged == []
      ensures Counted(checkpoint.nextRound)
    {
    }

    /** The user's input comes last. */
    method Hear(checkpoint: Checkpoint, request: ResumeRequest) returns (ended: Option<Outcome>)
      requires Open() && !halted && start == From(checkpoint, request) && (request.Answers(checkpoint.pending) ==> owed == multiset{})
      modifies this`owed, this`halted, manager
      ensures manager.removals >= old(manager.removals)
      ensures ended.None? ==> Open() && owed == multiset{} && !halted && manager.canonical == old(manager.canonical) + UserInput(request.input)
      ensures ended.Some? ==> ended.value == Aborted(Resumption) && halted && Ends(ended.value, checkpoint.nextRound)
    {
      hide Open, Ends, Good, HasAnchor, PlainAnchor, Trim;
      ghost var before := manager.canonical;
      if !request.Answers(checkpoint.pending) {
        owed := multiset{};
        NothingPromised();
      }
      ended := None;
      if !Blank(request.input) {
        var ok := Say(User, request.input);
        if !ok {
          ended := Some(Aborted(Resumption));
          Over(ended.value, checkpoint.nextRound);
          return;
        }
      }
      assert manager.canonical == before + UserInput(request.input);
    }

    lemma NothingPromised()
      requires !start.ready
      ensures Open()
    {
    }

    /** The wait is not over: the same checkpoint is given back. */
    lemma StillWaits(checkpoint: Checkpoint, request: ResumeRequest)
      requires Open() && start == From(checkpoint, request) && owed == checkpoint.pending.Owes() && usage == checkpoint.usage
      ensures Ends(Waiting(checkpoint.pending, Some(checkpoint)), checkpoint.nextRound)
    {
      hide Good, HasAnchor, PlainAnchor;
      if Kept() { WrittenStaysGood(manager.active, owed); }
    }

    /** The approval or the tool task that the checkpoint waits for, as far as the request brings it. */
    method Answer(checkpoint: Checkpoint, request: ResumeRequest, standing: Standing) returns (ended: Option<Outcome>)
      requires Open() && start == From(checkpoint, request) && owed == checkpoint.pending.Owes()
      requires usage == checkpoint.usage && Counted(checkpoint.nextRound) && ran == [] && !halted && standing.compatible
      modifies this`owed, this`usage, this`ran, this`halted, this`unsaved, manager
      ensures manager.removals >= old(manager.removals) && usage.toolCalls == old(usage).toolCalls
      ensures ended.None? ==> Open() && Counted(checkpoint.nextRound) && !halted
      ensures ended.None? && request.Answers(checkpoint.pending) ==>
        owed == multiset{} && ResultLogged(checkpoint.pending, request, standing, agent.hitl, old(manager.canonical), manager.canonical)
      ensures ended.Some? ==> Ends(ended.value, checkpoint.nextRound)
      ensures Resolved(checkpoint, request, standing, agent.hitl, ended, ran, halted)
    {
      hide Open, Ends, Admits, Counted;
      var pending := checkpoint.pending;
      ghost var before, content := manager.canonical, "";
      if request.approvalId != "" {
        if !pending.PendingApproval? || pending.requestId != request.approvalId {
          Over(Aborted(Restoring(pending)), checkpoint.nextRound);
          return Some(Aborted(Restoring(pending)));
        }
        if request.approval.None? {
          StillWaits(checkpoint, request);
          return Some(Waiting(pending, Some(checkpoint)));
        }
        ended := Approve(checkpoint.nextRound, pending.call, request.approval.value, standing);
        if ended.Some? { return; }
        ghost var result: ToolResult :| manager.canonical == before + [ToolMessage(pending.call.id, result.content)];
        content := result.content;
      }
      if request.taskId != "" {
        if !pending.PendingTool? || pending.taskId != request.taskId || standing.task.Unknown? {
          var place := if pending.PendingApproval? && request.approvalId != "" then Resumption else Restoring(pending);
          Over(Aborted(place), checkpoint.nextRound);
          return Some(Aborted(place));
        }
        if standing.task.StillRunning? {
          StillWaits(checkpoint, request);
          return Some(Waiting(pending, Some(checkpoint)));
        }
        ended := Collect(checkpoint.nextRound, pending.callId, standing.task.completed, standing.task.content);
        if ended.Some? { return; }
        content := standing.task.content;
      }
      assert request.Answers(pending) ==>
        AwaitedText(pending, request, standing, agent.hitl, content) && manager.canonical == before + AwaitedResult(pending, content);
      ended := None;
    }

    /** The decision about the pending call has come: its result is appended, and it is not charged again. */
    method Approve(round: nat, call: ToolCall, approval: Approval, standing: Standing) returns (ended: Option<Outcome>)
      requires Open() && owed == multiset{call.id} && Counted(round) && !halted
      modifies this`usage, this`owed, this`ran, this`halted, this`unsaved, manager
      ensures Open() && owed == multiset{} && manager.removals >= old(manager.removals)
      ensures Counted(round) && usage.toolCalls == old(usage).toolCalls
      ensures ran == old(ran) + if approval.approved && Admits(standing.answer, agent.hitl) then [call] else []
      ensures exists result: ToolResult ::
        && manager.canonical == old(manager.canonical) + [ToolMessage(call.id, result.content)]
        && usage == (if halted then old(usage) else WithResult(old(usage), result))
        && (!approval.approved ==> result == Failure(DENIED + approval.reason))
        && (approval.approved && !Admits(standing.answer, agent.hitl) ==> result == Failure(standing.refusal))
      ensures ended.None? ==> approval.approved && Admits(standing.answer, agent.hitl) && !halted
      ensures ended.Some? ==> EndsResumption(ended.value) && Ends(ended.value, round)
      ensures ended.Some? && ended.value.Aborted? ==> halted
      ensures ended.Some? && ended.value.Failed? ==> !(approval.approved && Admits(standing.answer, agent.hitl))
    {
      hide Open, Ends;
      var rejected, result := RunApproved(call, approval, standing);
      SettlesTheOnly(call.id);
      var ok := Settle(call.id, result.content);
      if !ok {
        Over(Aborted(Resumption), round);
        return Some(Aborted(Resumption));
      }
      usage := usage.(toolOutput := usage.toolOutput + |result.content|, fileChanges := usage.fileChanges + result.fileChanges);
      if rejected {
        var outcome := Fail(round, lastText, Resumption, loop);
        return Some(outcome);
      }
      ended := None;
    }

    /** The call is run if it was approved and the policy still admits it. */
    method RunApproved(call: ToolCall, approval: Approval, standing: Standing) returns (rejected: bool, result: ToolResult)
      modifies this`ran
      ensures rejected <==> !(approval.approved && Admits(standing.answer, agent.hitl))
      ensures ran == old(ran) + if rejected then [] else [call]
      ensures !approval.approved ==> result == Failure(DENIED + approval.reason)
      ensures approval.approved && rejected ==> result == Failure(standing.refusal)
    {
      if !approval.approved { return true, Failure("approval denied: " + approval.reason); }
      var decision := ToolDecision(standing.answer, agent.hitl);
      if decision == None || decision == Some(Deny) { return true, Failure(standing.refusal); }
      rejected := false;
      result := Execute(call);
      ran := ran + [call];
    }

    /** The pending task has ended: its result is appended, and only success lets the turn go on. */
    method Collect(round: nat, callId: string, completed: bool, content: string) returns (ended: Option<Outcome>)
      requires Open() && owed == multiset{callId} && Counted(round) && !halted
      modifies this`owed, this`halted, this`unsaved, manager
      ensures Open() && owed == multiset{} && manager.removals >= old(manager.removals)
      ensures manager.canonical == old(manager.canonical) + [ToolMessage(callId, content)]
      ensures ended.None? ==> completed && !halted
      ensures ended.Some? ==> EndsResumption(ended.value) && Ends(ended.value, round)
      ensures ended.Some? && ended.value.Aborted? ==> halted
      ensures ended.Some? && ended.value.Failed? ==> !completed
    {
      hide Open, Ends;
      SettlesTheOnly(callId);
      var ok := Settle(callId, content);
      if !ok {
        Over(Aborted(Resumption), round);
        return Some(Aborted(Resumption));
      }
      if !completed {
        var outcome := Fail(round, lastText, Resumption, loop);
        return Some(outcome);
      }
      ended := None;
    }
  }

  /** What a checkpoint and the request that takes it up start from. */
  function From(checkpoint: Checkpoint, request: ResumeRequest): Origin {
    Origin(checkpoint.Settled() && request.Answers(checkpoint.pending), PlainAnchor(checkpoint.messages),
           checkpoint.Lag(), checkpoint.usage.toolCalls)
  }

  lemma SettlesTheOnly(id: string)
    ensures multiset{id} - multiset{id} == multiset{}
  {
  }

  // The prompt of a fresh turn, message by message.

  lemma EmptyIsGood()
    ensures Good([], multiset{}) && PlainAnchor([]) && OwedBy([]) == multiset{}
  {
  }

  lemma {:induction false} PrefixIsGood(msgs: seq<Message>, n: nat)
    requires n <= |msgs| && Good(msgs, multiset{})
    ensures Good(msgs[..n], OwedBy(msgs[..n]))
  {
    hide HasMarker, SplitSummary;
    assert msgs == msgs[..n] + msgs[n..];
    ScanConcat(CLEAR, msgs[..n], msgs[n..]);
    ScanBroken(msgs[n..]);
    QuietConcat(msgs[..n], msgs[n..]);
    if HasAnchor(msgs[..n]) { SystemCountIs(msgs, SystemCount(msgs[..n])); }
  }

  lemma {:induction false} AnchorAppears(msgs: seq<Message>, i: nat)
    requires i < |msgs| && !HasAnchor(msgs[..i])
    ensures if msgs[i].role == System then !HasAnchor(msgs[..i + 1]) else HasAnchor(msgs) && SystemCount(msgs) == i
  {
    var before := msgs[..i];
    forall k | 0 <= k < i ensures msgs[k].role == System { assert before[k] == msgs[k]; }
    if msgs[i].role == System { SystemCountIs(msgs[..i + 1], i + 1); } else { SystemCountIs(msgs, i); }
  }

  lemma {:induction false} PrefixMayFollow(msgs: seq<Message>, i: nat, active: seq<Message>)
    requires i < |msgs| && Good(msgs, multiset{})
    requires HasAnchor(msgs[..i]) ==> HasAnchor(active)
    ensures MayFollow(active, msgs[i])
    ensures HasAnchor(msgs[..i + 1]) ==> HasAnchor(active) || msgs[i].role != System
    ensures PlainAnchor(msgs) && PlainAnchor(active) ==> StaysPlain(active, msgs[i])
  {
    hide HasMarker, SplitSummary, BlankMarked, Scan;
    if !HasAnchor(msgs[..i]) { AnchorAppears(msgs, i); }
  }

  lemma {:induction false} PrefixStep(msgs: seq<Message>, i: nat)
    requires i < |msgs| && Ready(msgs)
    ensures Good(msgs, multiset{})
    ensures Messages.Step(Owed(OwedBy(msgs[..i])), msgs[i]) == Owed(OwedBy(msgs[..i + 1]))
  {
    hide Quiet, Anchored, HasAnchor;
    PrefixIsGood(msgs, i);
    PrefixIsGood(msgs, i + 1);
    assert msgs[..i + 1] == msgs[..i] + [msgs[i]];
    ScanAppend(CLEAR, msgs[..i], msgs[i]);
  }

  lemma ReadyOwesNothing(prompt: seq<Message>)
    requires Ready(prompt)
    ensures OwedBy(prompt) == multiset{} && HasAnchor(prompt)
  {
  }

  // Whole executions, and whole turns across their resumptions.

  /**
   * An execution that may be relied on: it began well, and its anchor is safe, because it is no empty summary or
   * because the limits never have the summaries given up; failing that, because they were not.
   */
  predicate Sure(ready: bool, safe: bool, removals: nat) {
    ready && (safe || removals == 0)
  }

  /** Run without a checkpoint to resume. It stands before round `end` when it ends. */
  method Run(agent: Agent, requested: int, prompt: seq<Message>, cost: Message -> nat, toolTokens: nat)
    returns (outcome: Outcome, requests: seq<ModelRequest>, charged: seq<ToolCall>, ran: seq<ToolCall>, context: seq<Message>, end: nat,
             delegated: bool, ghost removals: nat)
    ensures Recorded(requests, 0, end, 0, 0, agent.limits, RequestsPerRound(agent.maxModelRetries)) && end <= agent.RoundLimit(requested)
    ensures outcome.Proper() && Booked(outcome, end, 0, |charged|)
    ensures charged != [] && agent.limits.maxToolCalls > 0 ==> |charged| <= agent.limits.maxToolCalls
    ensures outcome.Failed? && outcome.left.Some? ==> outcome.left.value.messages == context
    ensures delegated ==> outcome.MayDelegate()
    ensures Sure(Ready(prompt), PlainAnchor(prompt) || agent.NeverGivesUp(toolTokens), removals) ==> AllPaired(requests)
    ensures Sure(Ready(prompt), PlainAnchor(prompt) || agent.NeverGivesUp(toolTokens), removals) && !delegated ==>
      Leaves(outcome, context, PlainAnchor(prompt)) && (Paired(context) <==> outcome.Settles())
  {
    hide Good, HasAnchor, PlainAnchor, Recorded, Leaves, Booked;
    var turn := new Turn(agent, requested, cost, toolTokens);
    var ended := turn.Begin(prompt);
    if ended.None? {
      ghost var trail, stories;
      outcome, end, trail, stories := turn.Rounds(0);
    } else {
      outcome, end := ended.value, 0;
      NothingRecorded(0, 0, 0, agent.limits, RequestsPerRound(agent.maxModelRetries));
    }
    requests, charged, ran, delegated := turn.requests, turn.charged, turn.ran, turn.delegated;
    context, removals := Persisted(turn.manager.active), turn.manager.removals;
    if Sure(Ready(prompt), PlainAnchor(prompt) || agent.NeverGivesUp(toolTokens), removals) && !delegated {
      LeftPaired(outcome, context, PlainAnchor(prompt));
    }
  }

  /** Run with a checkpoint to resume, whatever turn left it, and any request. */
  method Resume(agent: Agent, requested: int, checkpoint: Checkpoint, request: ResumeRequest, standing: Standing, cost: Message -> nat,
                toolTokens: nat)
    returns (outcome: Outcome, requests: seq<ModelRequest>, charged: seq<ToolCall>, ran: seq<ToolCall>, context: seq<Message>, end: nat,
             delegated: bool, ghost removals: nat, ghost halted: bool)
    ensures ResumedAs(checkpoint, request, standing, agent.hitl, outcome, requests, ran, halted)
    ensures checkpoint.nextRound <= end && (end <= agent.RoundLimit(requested) || end == checkpoint.nextRound)
    ensures Recorded(requests, checkpoint.nextRound, end, checkpoint.Lag(), checkpoint.usage.toolCalls, agent.limits,
                     RequestsPerRound(agent.maxModelRetries))
    ensures outcome.Proper() && Booked(outcome, end, checkpoint.Lag(), checkpoint.usage.toolCalls + |charged|)
    ensures charged != [] && agent.limits.maxToolCalls > 0 ==> checkpoint.usage.toolCalls + |charged| <= agent.limits.maxToolCalls
    ensures delegated ==> outcome.MayDelegate()
    ensures var start := From(checkpoint, request);
            && (Sure(start.ready, start.plain || agent.NeverGivesUp(toolTokens), removals) ==> AllPaired(requests))
            && (Sure(start.ready, start.plain || agent.NeverGivesUp(toolTokens), removals) && !delegated ==>
                  Leaves(outcome, context, start.plain) && (Paired(context) <==> outcome.Settles()))
  {
    hide Good, HasAnchor, PlainAnchor, Recorded, Leaves, Booked, Resolved, ResumedAs;
    var turn := new Turn(agent, requested, cost, toolTokens);
    var ended := turn.Restore(checkpoint, request, standing);
    ghost var called, waited := turn.ran, turn.halted;
    if ended.None? {
      ghost var trail, stories;
      outcome, end, trail, stories := turn.Rounds(checkpoint.nextRound);
    } else {
      outcome, end := ended.value, checkpoint.nextRound;
      NothingRecorded(end, checkpoint.Lag(), checkpoint.usage.toolCalls, agent.limits, RequestsPerRound(agent.maxModelRetries));
      if outcome.Aborted? { NothingBooked(outcome, end, checkpoint.Lag(), checkpoint.usage.toolCalls); }
    }
    requests, charged, ran, delegated := turn.requests, turn.charged, turn.ran, turn.delegated;
    context, removals := Persisted(turn.manager.active), turn.manager.removals;
    halted := turn.halted;
    StillResolved(checkpoint, request, standing, agent.hitl, ended, called, waited, halted);
    Witnessed(checkpoint, request, standing, agent.hitl, outcome, requests, ran, halted, called, ended);
    var start := From(checkpoint, request);
    if Sure(start.ready, start.plain || agent.NeverGivesUp(toolTokens), removals) && !delegated { LeftPaired(outcome, context, start.plain); }
  }

  /**
   * A resumed execution runs the awaited call first, and exactly when it was approved and is still admitted. A turn whose
   * call was denied or refused, or whose task failed, ends with that; a wait that is not over gives the checkpoint back.
   */
  ghost predicate ResumedAs(checkpoint: Checkpoint, request: ResumeRequest, standing: Standing, hitl: bool, outcome: Outcome,
                            requests: seq<ModelRequest>, ran: seq<ToolCall>, halted: bool)
  {
    exists first, ended ::
      && Resolved(checkpoint, request, standing, hitl, ended, first, halted)
      && first <= ran && (ended.Some? ==> outcome == ended.value && requests == [] && ran == first)
  }

  lemma StillResolved(checkpoint: Checkpoint, request: ResumeRequest, standing: Standing, hitl: bool, ended: Option<Outcome>,
                      ran: seq<ToolCall>, before: bool, after: bool)
    requires Resolved(checkpoint, request, standing, hitl, ended, ran, before) && (ended.Some? ==> after == before)
    ensures Resolved(checkpoint, request, standing, hitl, ended, ran, after)
  {
    hide Admits;
  }

  lemma Witnessed(checkpoint: Checkpoint, request: ResumeRequest, standing: Standing, hitl: bool, outcome: Outcome, requests: seq<ModelRequest>,
                  ran: seq<ToolCall>, halted: bool, first: seq<ToolCall>, ended: Option<Outcome>)
    requires Resolved(checkpoint, request, standing, hitl, ended, first, halted)
    requires first <= ran && (ended.Some? ==> outcome == ended.value && requests == [] && ran == first)
    ensures ResumedAs(checkpoint, request, standing, hitl, outcome, requests, ran, halted)
  {
    hide Resolved;
  }

  lemma NothingBooked(outcome: Outcome, end: int, lag: int, calls: int)
    requires outcome.Left().None?
    ensures Booked(outcome, end, lag, calls)
  {
  }

  /** No request belongs to a round at the limit or beyond. */
  lemma BelowLimit(requests: seq<ModelRequest>, start: nat, end: nat, limit: nat)
    requires InRounds(requests, start, end) && (end <= limit || end == start)
    ensures InRounds(requests, 0, limit)
  {
    forall i | 0 <= i < |requests| ensures 0 <= requests[i].round < limit {}
  }

  // A turn across its resumptions.

  /** One execution, from its start to its outcome: what it sent and charged, and what it left behind. */
  datatype Execution = Execution(
    outcome: Outcome, requests: seq<ModelRequest>, charged: seq<ToolCall>, ran: seq<ToolCall>, context: seq<Message>, end: nat,
    delegated: bool)
  {
    /** Taken up with a request that brings exactly what is missing. */
    predicate FairlyResumed(request: ResumeRequest) {
      !delegated && outcome.CanResume() && outcome.Left().Some? && request.Answers(outcome.Left().value.pending)
    }

    /** The context and the checkpoint owe what the outcome says. */
    ghost predicate OwesAsSaid(plain: bool) {
      !delegated ==> Leaves(outcome, context, plain) && (Paired(context) <==> outcome.Settles())
    }
  }

  function AllRequests(runs: seq<Execution>): seq<ModelRequest> {
    if runs == [] then [] else AllRequests(runs[..|runs| - 1]) + runs[|runs| - 1].requests
  }

  function AllCharged(runs: seq<Execution>): seq<ToolCall> {
    if runs == [] then [] else AllCharged(runs[..|runs| - 1]) + runs[|runs| - 1].charged
  }

  /** The counted rounds that were taken up again behind these executions, and how often that happened. */
  function Repeated(runs: seq<Execution>): nat {
    if runs == [] then 0 else Repeated(runs[..|runs| - 1]) + runs[|runs| - 1].outcome.Repeats()
  }

  function Repeaters(runs: seq<Execution>): nat {
    if runs == [] then 0 else Repeaters(runs[..|runs| - 1]) + if runs[|runs| - 1].outcome.Repeats() > 0 then 1 else 0
  }

  function Last(runs: seq<Execution>): Execution
    requires runs != []
  {
    runs[|runs| - 1]
  }

  /** Each execution but the last left a checkpoint, and it was taken up with the next request. */
  predicate Fair(runs: seq<Execution>, answers: seq<ResumeRequest>) {
    forall i :: 0 <= i < |runs| - 1 && i < |answers| ==> runs[i].FairlyResumed(answers[i])
  }

  /** The turn was resumed as often as there were requests and something to resume. */
  predicate Resumed(runs: seq<Execution>, answers: seq<ResumeRequest>) {
    && 0 < |runs| <= |answers| + 1
    && (forall i :: 0 <= i < |runs| - 1 ==> runs[i].outcome.Left().Some?)
    && (|runs| <= |answers| ==> Last(runs).outcome.Left().None?)
  }

  /** Whatever policy and tool tasks said meanwhile, each resumption came to what its checkpoint and its request ask for. */
  ghost predicate Followed(runs: seq<Execution>, answers: seq<ResumeRequest>, hitl: bool) {
    forall i :: 0 <= i < |runs| - 1 && i < |answers| && runs[i].outcome.Left().Some? ==>
      ResumedSo(runs[i].outcome.Left().value, answers[i], hitl, runs[i + 1])
  }

  ghost predicate ResumedSo(checkpoint: Checkpoint, request: ResumeRequest, hitl: bool, run: Execution) {
    exists standing, halted :: ResumedAs(checkpoint, request, standing, hitl, run.outcome, run.requests, run.ran, halted)
  }

  lemma NothingFollowed(runs: seq<Execution>, answers: seq<ResumeRequest>, hitl: bool)
    requires |runs| == 1
    ensures Followed(runs, answers, hitl)
  {
  }

  lemma FollowedNext(runs: seq<Execution>, next: Execution, answers: seq<ResumeRequest>, hitl: bool)
    requires runs != [] && |runs| <= |answers| && Followed(runs, answers, hitl) && Last(runs).outcome.Left().Some?
    requires ResumedSo(Last(runs).outcome.Left().value, answers[|runs| - 1], hitl, next)
    ensures Followed(runs + [next], answers, hitl)
  {
    hide ResumedSo;
    var all := runs + [next];
    forall i | 0 <= i < |all| - 1 && i < |answers| && all[i].outcome.Left().Some?
      ensures ResumedSo(all[i].outcome.Left().value, answers[i], hitl, all[i + 1])
    {
      assert all[i] == runs[i];
    }
  }

  lemma ResumedSomehow(checkpoint: Checkpoint, request: ResumeRequest, standing: Standing, hitl: bool, run: Execution, halted: bool)
    requires ResumedAs(checkpoint, request, standing, hitl, run.outcome, run.requests, run.ran, halted)
    ensures ResumedSo(checkpoint, request, hitl, run)
  {
    hide ResumedAs;
  }

  /** Each execution's checkpoint goes on where it ended and counts what all of them counted. */
  predicate AllBooked(runs: seq<Execution>) {
    forall i :: 0 <= i < |runs| ==>
      runs[i].outcome.Proper() && Booked(runs[i].outcome, runs[i].end, Repeated(runs[..i]), |AllCharged(runs[..i + 1])|)
  }

  /**
   * What a turn and its resumptions amount to: the rounds are asked in order, each request shows the rounds and
   * the tool calls counted before it, and each tool call is charged once.
   */
  ghost predicate TurnRecorded(runs: seq<Execution>, limits: Limits, perRound: nat, limit: nat)
    requires runs != []
  {
    var earlier := runs[..|runs| - 1];
    && Chained(AllRequests(runs), Last(runs).end, Repeated(earlier), limits, perRound, Repeaters(earlier))
    && InRounds(AllRequests(runs), 0, limit) && AllBooked(runs)
    && (limits.maxToolCalls > 0 ==> |AllCharged(runs)| <= limits.maxToolCalls)
  }

  /** The requests are paired, and what each execution leaves owes what its outcome says. */
  ghost predicate TurnPaired(runs: seq<Execution>, plain: bool)
    requires runs != []
  {
    AllPaired(AllRequests(runs)) && forall i :: 0 <= i < |runs| ==> runs[i].OwesAsSaid(plain)
  }

  /**
   * A turn and its resumptions, of waits and of failures alike, with whatever requests. As long as every
   * resumption brings exactly what its checkpoint lacks, every request is paired.
   */
  method RunToEnd(agent: Agent, requested: int, prompt: seq<Message>, cost: Message -> nat, toolTokens: nat, answers: seq<ResumeRequest>)
    returns (runs: seq<Execution>, ghost removals: nat)
    ensures Resumed(runs, answers) && Followed(runs, answers, agent.hitl)
    ensures TurnRecorded(runs, agent.limits, RequestsPerRound(agent.maxModelRetries), agent.RoundLimit(requested))
    ensures Sure(Ready(prompt) && Fair(runs, answers), PlainAnchor(prompt) || agent.NeverGivesUp(toolTokens), removals) ==>
      TurnPaired(runs, PlainAnchor(prompt))
  {
    hide Good, HasAnchor, PlainAnchor, Recorded, Chained, Leaves, Booked, TurnRecorded, TurnPaired, AllBooked, Fair, Followed, ResumedAs;
    var outcome, requests, charged, ran, context, end, delegated;
    outcome, requests, charged, ran, context, end, delegated, removals := Run(agent, requested, prompt, cost, toolTokens);
    runs := [Execution(outcome, requests, charged, ran, context, end, delegated)];
    assert Followed(runs, answers, agent.hitl) by { NothingFollowed(runs, answers, agent.hitl); }
    ghost var plain := PlainAnchor(prompt);
    FirstRun(runs[0], agent.limits, RequestsPerRound(agent.maxModelRetries), agent.RoundLimit(requested), plain);
    while |runs| <= |answers| && Last(runs).outcome.Left().Some?
      invariant Followed(runs, answers, agent.hitl)
      invariant 0 < |runs| <= |answers| + 1 && forall i :: 0 <= i < |runs| - 1 ==> runs[i].outcome.Left().Some?
      invariant TurnRecorded(runs, agent.limits, RequestsPerRound(agent.maxModelRetries), agent.RoundLimit(requested))
      invariant Sure(Ready(prompt) && Fair(runs, answers), plain || agent.NeverGivesUp(toolTokens), removals) ==> TurnPaired(runs, plain)
      decreases |answers| - |runs|
    {
      ghost var before := runs;
      var checkpoint, request := Last(runs).outcome.Left().value, answers[|runs| - 1];
      ghost var more;
      var standing: Standing := *;
      ghost var halted;
      outcome, requests, charged, ran, context, end, delegated, more, halted :=
        Resume(agent, requested, checkpoint, request, standing, cost, toolTokens);
      var next := Execution(outcome, requests, charged, ran, context, end, delegated);
      ResumedSomehow(checkpoint, request, standing, agent.hitl, next, halted);
      FollowedNext(runs, next, answers, agent.hitl);
      runs := runs + [next];
      NextRecorded(before, next, agent.limits, RequestsPerRound(agent.maxModelRetries), agent.RoundLimit(requested));
      if Sure(Ready(prompt) && Fair(runs, answers), plain || agent.NeverGivesUp(toolTokens), removals + more) {
        FairBefore(before, next, answers);
        assert AllBooked(before) by { RecordedIsBooked(before, agent.limits, RequestsPerRound(agent.maxModelRetries), agent.RoundLimit(requested)); }
        NextPaired(before, next, request, plain);
      }
      removals := removals + more;
    }
  }

  lemma FirstRun(run: Execution, limits: Limits, perRound: nat, limit: nat, plain: bool)
    requires Recorded(run.requests, 0, run.end, 0, 0, limits, perRound) && run.end <= limit
    requires run.outcome.Proper() && Booked(run.outcome, run.end, 0, |run.charged|)
    requires run.charged != [] && limits.maxToolCalls > 0 ==> |run.charged| <= limits.maxToolCalls
    ensures TurnRecorded([run], limits, perRound, limit)
    ensures AllPaired(run.requests) && run.OwesAsSaid(plain) ==> TurnPaired([run], plain)
  {
    hide Recorded, Chained, Booked, AllPaired, Execution.OwesAsSaid, AllRequests, AllCharged, Repeated, Repeaters, Last, InRounds,
      Outcome.Proper;
    RecordedIsChained(run.requests, run.end, limits, perRound);
    RecordedBelow(run.requests, 0, run.end, 0, 0, limits, perRound, limit);
    AloneIs(run);
    AloneBooked(run);
    assert [run][..|[run]| - 1] == [];
  }

  lemma AloneIs(run: Execution)
    ensures AllRequests([run]) == run.requests && AllCharged([run]) == run.charged && Last([run]) == run
    ensures Repeated([]) == 0 && Repeaters([]) == 0
  {
    AppendRun([], run);
    assert [] + [run] == [run];
    assert [] + run.requests == run.requests && [] + run.charged == run.charged;
  }

  lemma AloneBooked(run: Execution)
    requires run.outcome.Proper() && Booked(run.outcome, run.end, 0, |run.charged|)
    ensures AllBooked([run])
  {
    hide Booked, AllCharged, Repeated, Outcome.Proper;
    AloneIs(run);
    assert [run][..0] == [] && [run][..1] == [run];
  }

  lemma RecordedIsBooked(runs: seq<Execution>, limits: Limits, perRound: nat, limit: nat)
    requires runs != [] && TurnRecorded(runs, limits, perRound, limit)
    ensures AllBooked(runs)
  {
  }

  lemma AppendRun(runs: seq<Execution>, next: Execution)
    ensures AllRequests(runs + [next]) == AllRequests(runs) + next.requests && AllCharged(runs + [next]) == AllCharged(runs) + next.charged
    ensures Repeated(runs + [next]) == Repeated(runs) + next.outcome.Repeats()
    ensures Repeaters(runs + [next]) == Repeaters(runs) + if next.outcome.Repeats() > 0 then 1 else 0
    ensures Last(runs + [next]) == next
  {
    assert (runs + [next])[..|runs|] == runs;
  }

  lemma FairBefore(runs: seq<Execution>, next: Execution, answers: seq<ResumeRequest>)
    requires runs != [] && |runs| <= |answers| && Fair(runs + [next], answers)
    ensures Fair(runs, answers) && Last(runs).FairlyResumed(answers[|runs| - 1])
  {
    var all := runs + [next];
    forall i | 0 <= i < |runs| ensures runs[i].FairlyResumed(answers[i]) { assert all[i] == runs[i]; }
  }

  /** The books go on in the next execution. */
  lemma {:induction false} NextRecorded(runs: seq<Execution>, next: Execution, limits: Limits, perRound: nat, limit: nat)
    requires runs != [] && Last(runs).outcome.Left().Some? && TurnRecorded(runs, limits, perRound, limit)
    requires var checkpoint := Last(runs).outcome.Left().value;
             && checkpoint.nextRound <= next.end && (next.end <= limit || next.end == checkpoint.nextRound)
             && Recorded(next.requests, checkpoint.nextRound, next.end, checkpoint.Lag(), checkpoint.usage.toolCalls, limits, perRound)
             && next.outcome.Proper() && Booked(next.outcome, next.end, checkpoint.Lag(), checkpoint.usage.toolCalls + |next.charged|)
             && (next.charged != [] && limits.maxToolCalls > 0 ==>
                   checkpoint.usage.toolCalls + |next.charged| <= limits.maxToolCalls)
    ensures TurnRecorded(runs + [next], limits, perRound, limit)
  {
    hide Recorded, Chained, AllRequests, AllCharged, Repeated, Repeaters, Last;
    var n := |runs| - 1;
    var earlier, last, checkpoint := runs[..n], Last(runs), Last(runs).outcome.Left().value;
    LastSplits(runs);
    AppendRun(earlier, last);
    AppendRun(runs, next);
    assert Booked(runs[n].outcome, runs[n].end, Repeated(runs[..n]), |AllCharged(runs[..n + 1])|);
    assert runs[..n + 1] == runs;
    ChainedNext(AllRequests(runs), next.requests, last.end, checkpoint.nextRound, next.end, Repeated(earlier), |AllCharged(runs)|,
                limits, perRound, Repeaters(earlier));
    RecordedBelow(next.requests, checkpoint.nextRound, next.end, checkpoint.Lag(), |AllCharged(runs)|, limits, perRound, limit);
    BookedNext(runs, next);
    assert (runs + [next])[..|runs|] == runs;
  }

  lemma LastSplits(runs: seq<Execution>)
    requires runs != []
    ensures runs == runs[..|runs| - 1] + [Last(runs)] && Last(runs) == runs[|runs| - 1]
  {
  }

  lemma BookedNext(runs: seq<Execution>, next: Execution)
    requires AllBooked(runs) && next.outcome.Proper()
    requires Booked(next.outcome, next.end, Repeated(runs), |AllCharged(runs + [next])|)
    ensures AllBooked(runs + [next])
  {
    hide Booked, AllCharged, Repeated;
    var all := runs + [next];
    forall i | 0 <= i < |all|
      ensures all[i].outcome.Proper() && Booked(all[i].outcome, all[i].end, Repeated(all[..i]), |AllCharged(all[..i + 1])|)
    {
      if i < |runs| {
        assert all[..i] == runs[..i] && all[..i + 1] == runs[..i + 1] && all[i] == runs[i];
      } else {
        assert all[..i] == runs && all[..i + 1] == all;
      }
    }
  }

  /** A fair resumption keeps the pairing. */
  lemma {:induction false} NextPaired(runs: seq<Execution>, next: Execution, request: ResumeRequest, plain: bool)
    requires runs != [] && TurnPaired(runs, plain) && Last(runs).FairlyResumed(request) && AllBooked(runs)
    requires var start := From(Last(runs).outcome.Left().value, request);
             start.ready && (plain ==> start.plain) ==> AllPaired(next.requests) && next.OwesAsSaid(start.plain)
    ensures TurnPaired(runs + [next], plain)
  {
    hide Good, HasAnchor, PlainAnchor, Leaves, AllRequests, AllCharged, Repeated, Last, Booked, AllPaired;
    var n, last, checkpoint := |runs| - 1, Last(runs), Last(runs).outcome.Left().value;
    LastSplits(runs);
    assert last.outcome.Proper() && Booked(last.outcome, last.end, Repeated(runs[..n]), |AllCharged(runs[..n + 1])|);
    ReadyToResume(last.outcome, last.end, Repeated(runs[..n]), |AllCharged(runs[..n + 1])|, last.context, request, plain);
    PlainerLeaves(next.outcome, next.context, PlainAnchor(checkpoint.messages), plain);
    AppendRun(runs, next);
    AllPairedConcat(AllRequests(runs), next.requests);
  }

  lemma ReadyToResume(outcome: Outcome, end: int, lag: int, calls: int, context: seq<Message>, request: ResumeRequest, plain: bool)
    requires Leaves(outcome, context, plain) && Booked(outcome, end, lag, calls) && outcome.Proper() && outcome.Left().Some?
    requires outcome.CanResume() && request.Answers(outcome.Left().value.pending)
    ensures From(outcome.Left().value, request).ready && (plain ==> From(outcome.Left().value, request).plain)
  {
    hide Good, HasAnchor, PlainAnchor, Leaves, Booked;
    LeftIsSettledIff(outcome, end, lag, calls, context, plain);
  }

  lemma PlainerLeaves(outcome: Outcome, context: seq<Message>, plain: bool, asked: bool)
    ensures Leaves(outcome, context, plain) && (asked ==> plain) ==> Leaves(outcome, context, asked)
  {
    hide Good, HasAnchor, PlainAnchor;
  }

  lemma RecordedBelow(requests: seq<ModelRequest>, start: nat, end: nat, lag: int, calls: nat, limits: Limits, perRound: nat, limit: nat)
    requires Recorded(requests, start, end, lag, calls, limits, perRound) && (end <= limit || end == start)
    ensures InRounds(requests, 0, limit)
  {
    hide Spread, Covered;
    BelowLimit(requests, start, end, limit);
  }
}
