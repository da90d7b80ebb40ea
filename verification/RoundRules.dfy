/** What one round of a turn, and one resumption, come to, given what the model, the tools and everybody else answered. */
module RoundRules {
  import opened Wrappers
  import opened Text
  import opened Messages
  import opened ContextConfig
  import opened ContextManagement
  import opened ToolCalls
  import opened Checkpoints
  import opened TurnOutcomes

  datatype Agent = Agent(
    maxRounds: int,
    maxModelRetries: int,
    limits: Limits,
    tools: set<string>,
    asyncTools: set<string>,
    hitl: bool,
    structured: bool,
    askWhenStuck: bool,
    maxSameToolCalls: int,
    maxNoProgressRounds: int,
    maxSameModelTexts: int,
    context: Config)
  {
    /** The rounds a turn may take: the agent's bound, tightened by the request's and the budget's; 200 where neither bounds them. */
    function RoundLimit(requested: int): (rounds: int)
      ensures rounds > 0
      ensures maxRounds > 0 ==> rounds <= maxRounds
      ensures requested > 0 ==> rounds <= requested
      ensures limits.maxModelRounds > 0 ==> rounds <= limits.maxModelRounds
      ensures rounds == maxRounds || rounds == requested || rounds == limits.maxModelRounds || (rounds == 200 && maxRounds <= 0 && requested <= 0)
      ensures maxRounds <= 0 && requested <= 0 ==> rounds <= 200
    {
      var own := if maxRounds > 0 then maxRounds else requested;
      var rounds := if own > 0 then own else 200;
      var tightened := if requested > 0 && rounds > requested then requested else rounds;
      if limits.maxModelRounds > 0 && tightened > limits.maxModelRounds then limits.maxModelRounds else tightened
    }

    /** The tool schemas take up the whole hard limit, or there is none: no compaction of a turn gives up the summaries. */
    predicate NeverGivesUp(toolTokens: nat) {
      KeepsSummaries(context.WithDefaults(), toolTokens)
    }

    /** How often a model call is tried again; a negative bound means never. */
    function Retries(): int {
      if maxModelRetries == 0 then 2 else maxModelRetries
    }

    /** One of the positive bounds on repetition is reached. */
    predicate Stuck(loop: LoopState) {
      || (maxSameToolCalls > 0 && loop.sameToolCalls >= maxSameToolCalls)
      || (maxNoProgressRounds > 0 && loop.noProgressRounds >= maxNoProgressRounds)
      || (maxSameModelTexts > 0 && loop.sameModelTexts >= maxSameModelTexts)
    }

    predicate Repeating(loop: LoopState) {
      maxSameModelTexts > 0 && loop.sameModelTexts >= maxSameModelTexts
    }

    /** selectAsyncTool: the first call of an asynchronous tool. */
    function AsyncCall(calls: seq<ToolCall>): (call: Option<ToolCall>)
      ensures call.Some? ==> call.value.name in asyncTools
      ensures call.Some? ==> exists i :: 0 <= i < |calls| && calls[i] == call.value && forall j :: 0 <= j < i ==> calls[j].name !in asyncTools
      ensures call.None? <==> forall c :: c in calls ==> c.name !in asyncTools
    {
      if calls == [] then None
      else if calls[0].name in asyncTools then Some(calls[0])
      else AsyncCall(calls[1..])
    }
  }

  datatype Response = Response(text: string, calls: seq<ToolCall>, truncated: bool, inputTokens: nat, outputTokens: nat)
  {
    predicate IsEmpty() {
      calls == [] && Blank(text)
    }

    /** Neither cut off where a whole document is asked for, nor empty. */
    predicate Usable(agent: Agent) {
      !(agent.structured && truncated) && !IsEmpty()
    }
  }

  /** What one call of the provider gives. */
  datatype Reply = Answered(response: Response) | Nothing | Refused(contextLimit: bool, retryable: bool)

  datatype RoundResult = NextRound | End(outcome: Outcome)

  function Signature(calls: seq<ToolCall>): (r: seq<(string, string)>)
    ensures |r| == |calls| && forall i :: 0 <= i < |r| ==> r[i] == (calls[i].name, calls[i].arguments)
  {
    seq(|calls|, i requires 0 <= i < |calls| => (calls[i].name, calls[i].arguments))
  }

  /** The calls of a response under their final ids. */
  function Identified(calls: seq<ToolCall>, round: nat): (r: seq<ToolCall>)
    ensures |r| == |calls| && forall i :: 0 <= i < |r| ==> r[i] == WithId(calls[i], round, i)
  {
    seq(|calls|, i requires 0 <= i < |calls| => WithId(calls[i], round, i))
  }

  // What others answer in a round.

  /** What guardrail, schema and completion rules say of a reply without calls. */
  datatype Judgement = Judgement(guarded: bool, valid: bool, completion: string)

  /** What the asynchronous path meets: a task runner, the policy's answer, the start hook and the start itself. */
  datatype Starting = Starting(runner: bool, answer: Answer, hookFailed: bool, started: bool, base: string)

  /**
   * One round: whether its input was stopped, what the provider gave, call after call, and whether an overflow was
   * mended; then what the reply met. `batch` is there once every result of a batch was looked at.
   */
  datatype Story = Story(
    guardedInput: bool, heard: seq<Reply>, recovered: bool, unmended: bool, reply: Option<Response>, judged: Judgement, starting: Starting,
    batch: Option<seq<ToolResult>>)

  /**
   * The provider was given up: there is nothing to use, and nothing more to try; an overflow was mended before, or the
   * compaction for it did not help.
   */
  predicate GaveUp(agent: Agent, heard: seq<Reply>, recovered: bool, unmended: bool) {
    heard != [] &&
    match heard[|heard| - 1]
    case Nothing => true
    case Refused(contextLimit, retryable) =>
      (contextLimit ==> recovered || unmended) && (agent.Retries() < 0 || !retryable || Tries(heard, recovered) >= agent.Retries())
    case Answered(_) => false
  }

  /** How often the call was tried again, apart from the one time behind a compaction. */
  function Tries(heard: seq<Reply>, recovered: bool): int {
    |heard| - 1 - if recovered then 1 else 0
  }

  /** An empty reply is asked for again while tries are left. */
  predicate Heeded(agent: Agent, heard: seq<Reply>, recovered: bool, response: Response) {
    && heard != [] && heard[|heard| - 1] == Answered(response)
    && (response.IsEmpty() && !response.truncated ==> Tries(heard, recovered) >= agent.Retries())
  }

  /** What is asked again was an empty reply or a refusal. */
  predicate Retryable(reply: Reply) {
    match reply
    case Answered(response) => response.IsEmpty() && !response.truncated
    case Nothing => false
    case Refused(contextLimit, retryable) => contextLimit || retryable
  }

  function Spent(usage: Usage, response: Response): Usage {
    usage.(modelRounds := usage.modelRounds + 1, inputTokens := usage.inputTokens + response.inputTokens,
           outputTokens := usage.outputTokens + response.outputTokens)
  }

  /** The usage once the first `n` results of a batch were reported; those that wait for approval are not. */
  function Reported(usage: Usage, results: seq<ToolResult>, n: nat): Usage
    requires n <= |results|
  {
    if n == 0 then usage
    else
      var before := Reported(usage, results, n - 1);
      if results[n - 1].next == WaitApproval then before
      else before.(toolOutput := before.toolOutput + |results[n - 1].content|, fileChanges := before.fileChanges + results[n - 1].fileChanges)
  }

  // How a round ends.

  predicate FailsAt(result: RoundResult, place: Place) {
    result.End? && result.outcome.Failed? && result.outcome.place == place
  }

  /** The model is asked again, unless its own text or the feedback does not fit any more. */
  predicate Retried(result: RoundResult, halted: bool) {
    result.NextRound? || (halted && result == End(Aborted(Reply)))
  }

  /** The turn waits, unless what it waits for cannot be kept. */
  predicate Suspends(outcome: Outcome, pending: Pending, unsaved: bool) {
    (outcome.Waiting? && outcome.pending == pending) || (unsaved && outcome == Aborted(Suspending(pending)))
  }

  /** A reply that is cut off or empty. */
  predicate UnusableEnds(agent: Agent, response: Response, mends: bool, result: RoundResult, halted: bool) {
    if agent.structured && response.truncated then if mends then Retried(result, halted) else result == End(Finished(false))
    else FailsAt(result, Reply)
  }

  /** A reply without calls: it is mended once, completed while there are rounds, and otherwise the answer. */
  predicate FinalEnds(agent: Agent, judged: Judgement, mends: bool, more: bool, loop: LoopState, result: RoundResult, halted: bool) {
    if judged.guarded then result == End(Finished(false))
    else if agent.structured && !judged.valid then if mends then Retried(result, halted) else result == End(Finished(false))
    else if judged.completion != "" then if more then Retried(result, halted) else FailsAt(result, Reply)
    else if agent.Repeating(loop) then FailsAt(result, Reply)
    else result == End(Finished(true))
  }

  /** An asynchronous call is started, or asked for, only alone and with a runner; then the turn waits for it. */
  predicate AsyncEnds(agent: Agent, starting: Starting, calls: seq<ToolCall>, call: ToolCall, outcome: Outcome, unsaved: bool) {
    var decision := ToolDecision(starting.answer, agent.hitl);
    if |calls| != 1 || !starting.runner || decision == None || decision == Some(Deny) then FailsAt(End(outcome), AsyncStart(calls))
    else if decision == Some(RequireApproval) then
      Suspends(outcome, PendingApproval(starting.base + ":approval:" + call.id, call), unsaved)
    else if starting.hookFailed || !starting.started then FailsAt(End(outcome), AsyncStart(calls))
    else Suspends(outcome, PendingTool(starting.base + ":" + call.id, call.id), unsaved)
  }

  /** A result that decides the turn. */
  predicate Decides(result: ToolResult) {
    result.wantsInput || (result.next != NoNext && result.next != Proceed)
  }

  predicate NoneDecides(results: seq<ToolResult>) {
    forall i :: 0 <= i < |results| ==> !Decides(results[i])
  }

  predicate FirstDecisive(results: seq<ToolResult>, i: nat) {
    i < |results| && Decides(results[i]) && forall k :: 0 <= k < i ==> !Decides(results[k])
  }

  /** The outcome of a decisive result. */
  predicate DecidedBy(decisive: ToolResult, outcome: Outcome, unsaved: bool) {
    if decisive.wantsInput then Suspends(outcome, PendingInput, unsaved)
    else if decisive.next == WaitApproval then
      if decisive.approval.None? then outcome == Aborted(Suspending(PendingInput))
      else
        var awaited := if outcome.Waiting? then outcome.pending
                       else if outcome.Aborted? && outcome.place.Suspending? then outcome.place.pending else Unfinished;
        awaited.PendingApproval? && awaited.call == decisive.approval.value && Suspends(outcome, awaited, unsaved)
    else outcome == Finished(true)
  }

  /** The first decisive result ends the turn; without one the loop goes on exactly when it is not stuck. */
  ghost predicate Concluded(agent: Agent, results: seq<ToolResult>, loop: LoopState, result: RoundResult, unsaved: bool) {
    && (forall i: nat :: FirstDecisive(results, i) ==> result.End? && DecidedBy(results[i], result.outcome, unsaved))
    && (NoneDecides(results) ==>
          if !agent.Stuck(loop) then result.NextRound?
          else if agent.askWhenStuck then result.End? && Suspends(result.outcome, PendingInput, unsaved)
          else FailsAt(result, Stuck))
  }

  predicate Beyond(limits: Limits, usage: Usage, calls: seq<ToolCall>) {
    limits.maxToolCalls > 0 && usage.toolCalls + |calls| > limits.maxToolCalls
  }

  /** A reply with calls: admitted, recorded, and started, or run and reported; then its results decide. */
  ghost predicate ToolEnds(agent: Agent, usage: Usage, within: bool, calls: seq<ToolCall>, story: Story, loop: LoopState,
                           result: RoundResult, halted: bool, unsaved: bool)
  {
    && (Beyond(agent.limits, usage, calls) ==> FailsAt(result, ToolBudget))
    && (!Beyond(agent.limits, usage, calls) && !halted ==>
          match agent.AsyncCall(calls)
          case Some(call) => result.End? && AsyncEnds(agent, story.starting, calls, call, result.outcome, unsaved)
          case None => story.batch.Some? || (!within && result.End? && result.outcome.Failed? && result.outcome.place.Reporting?))
    && (story.batch.Some? ==>
          |story.batch.value| == |calls| && agent.AsyncCall(calls) == None && Concluded(agent, story.batch.value, loop, result, unsaved))
  }

  predicate Exhausted(agent: Agent, usage: Usage) {
    agent.limits.maxModelRounds > 0 && usage.modelRounds >= agent.limits.maxModelRounds
  }

  /** A round that does not come to ask the model: no time or rounds are left, or the input is stopped. */
  predicate HeadEnds(agent: Agent, first: bool, guardedInput: bool, usage: Usage, outcome: Outcome, halted: bool) {
    || (halted && outcome == Aborted(RoundHead))
    || ((halted || Exhausted(agent, usage)) && FailsAt(End(outcome), RoundHead))
    || (!Exhausted(agent, usage) && first && guardedInput && outcome == Finished(false))
  }

  /** A round in which there is no reply to look at. */
  predicate UnansweredEnds(agent: Agent, first: bool, usage: Usage, story: Story, outcome: Outcome, halted: bool) {
    if story.heard == [] then HeadEnds(agent, first, story.guardedInput, usage, outcome, halted)
    else
      && !Exhausted(agent, usage) && !(first && story.guardedInput)
      && (halted || GaveUp(agent, story.heard, story.recovered, story.unmended)) && outcome == Aborted(Reply)
  }

  /** The counters that tell a stuck agent, behind a reply that could be used. */
  ghost predicate LoopCounted(before: LoopState, lastModelText: string, response: Response, calls: seq<ToolCall>, story: Story, halted: bool,
                              over: bool, after: LoopState)
  {
    && after.sameModelTexts == (if !Blank(response.text) && Trim(response.text) == Trim(lastModelText) then before.sameModelTexts + 1 else 1)
    && (calls == [] ==> after == before.(sameModelTexts := after.sameModelTexts))
    && (calls != [] && !over && !halted ==>
          && after.signature == Signature(calls)
          && after.sameToolCalls == if Signature(calls) == before.signature then before.sameToolCalls + 1 else 1)
    && (story.batch.Some? ==>
          after.noProgressRounds ==
            if exists i :: 0 <= i < |story.batch.value| && (story.batch.value[i].success || story.batch.value[i].effects) then 0
            else before.noProgressRounds + 1)
  }

  /** What a whole round comes to. */
  ghost predicate RoundTold(agent: Agent, round: nat, limit: nat, first: bool, retries: nat, usage: Usage, after: Usage, loop: LoopState,
                            story: Story, result: RoundResult, halted: bool, unsaved: bool)
  {
    match story.reply
    case None => result.End? && UnansweredEnds(agent, first, usage, story, result.outcome, halted)
    case Some(response) =>
      && !Exhausted(agent, usage) && !(first && story.guardedInput) && Heeded(agent, story.heard, story.recovered, response)
      && if !Spent(usage, response).Within(agent.limits) then FailsAt(result, Reply)
         else ReplyTold(agent, round, limit, retries, usage, after, loop, response, story, result, halted, unsaved)
  }

  /** What a reply comes to that the budget bears. */
  ghost predicate ReplyTold(agent: Agent, round: nat, limit: nat, retries: nat, usage: Usage, after: Usage, loop: LoopState, response: Response,
                            story: Story, result: RoundResult, halted: bool, unsaved: bool)
  {
    var mends := retries < 1 && round + 1 < limit;
    if !response.Usable(agent) then UnusableEnds(agent, response, mends, result, halted)
    else if response.calls == [] then FinalEnds(agent, story.judged, mends, round + 1 < limit, loop, result, halted)
    else ToolEnds(agent, usage, after.Within(agent.limits), Identified(response.calls, round), story, loop, result, halted, unsaved)
  }

  // How a resumption ends.

  datatype Approval = Approval(approved: bool, reason: string)

  /** What the store of tool tasks knows of a task. */
  datatype TaskStanding = Unknown | StillRunning | Over(completed: bool, content: string)

  /**
   * What a resumption meets: whether the checkpoint fits the agent, what the policy says of a call that was approved,
   * what a refusal of it reads, and where the tool task stands.
   */
  datatype Standing = Standing(compatible: bool, answer: Answer, refusal: string, task: TaskStanding)

  datatype ResumeRequest = ResumeRequest(approvalId: string, approval: Option<Approval>, taskId: string, input: string)
  {
    /** The request names the approval or tool task that the checkpoint waits for. */
    predicate Answers(pending: Pending) {
      && (pending.PendingApproval? ==> approvalId != "")
      && (pending.PendingTool? ==> taskId != "")
    }
  }

  const DENIED: string := "approval denied: "

  /** An approved call is run unless the policy now fails or refuses it. */
  predicate Admits(answer: Answer, hitl: bool) {
    var decision := ToolDecision(answer, hitl);
    decision.Some? && decision != Some(Deny)
  }

  predicate EndsResumption(outcome: Outcome) {
    outcome == Aborted(Resumption) || (outcome.Failed? && outcome.place == Resumption)
  }

  /** The text of the awaited result: the denial, the refusal, the task's own text, or whatever the approved call gave. */
  predicate AwaitedText(pending: Pending, request: ResumeRequest, standing: Standing, hitl: bool, content: string) {
    match pending
    case PendingApproval(_, _) =>
      request.approval.Some? &&
      if !request.approval.value.approved then content == DENIED + request.approval.value.reason
      else !Admits(standing.answer, hitl) ==> content == standing.refusal
    case PendingTool(_, _) => standing.task.Over? && content == standing.task.content
    case _ => true
  }

  /**
   * What becomes of a checkpoint and a request before the first round: the outcome if the turn ends here, and the calls
   * that were run. A call is run exactly when it was approved and the policy still admits it.
   */
  predicate Resolved(checkpoint: Checkpoint, request: ResumeRequest, standing: Standing, hitl: bool, ended: Option<Outcome>, ran: seq<ToolCall>,
                     halted: bool)
  {
    var pending := checkpoint.pending;
    if !standing.compatible then ended == Some(Aborted(Restoring(Unfinished))) && ran == []
    else if ended == Some(Aborted(Restoring(pending))) && halted then ran == []
    else if request.approvalId != "" then
      if !pending.PendingApproval? || pending.requestId != request.approvalId then ended == Some(Aborted(Restoring(pending))) && ran == []
      else
        match request.approval
        case None => ended == Some(Waiting(pending, Some(checkpoint))) && ran == []
        case Some(approval) =>
          if approval.approved && Admits(standing.answer, hitl) then
            ran == [pending.call] && (ended == None || (ended == Some(Aborted(Resumption)) && (halted || request.taskId != "")))
          else ran == [] && ended.Some? && EndsResumption(ended.value) && (ended.value.Aborted? ==> halted)
    else if request.taskId != "" then
      && ran == []
      && if !pending.PendingTool? || pending.taskId != request.taskId || standing.task.Unknown? then ended == Some(Aborted(Restoring(pending)))
         else if standing.task.StillRunning? then ended == Some(Waiting(pending, Some(checkpoint)))
         else if !standing.task.completed then ended.Some? && EndsResumption(ended.value) && (ended.value.Aborted? ==> halted)
         else ended == None || (halted && ended == Some(Aborted(Resumption)))
    else ran == [] && (ended == None || (halted && ended == Some(Aborted(Resumption))))
  }
}
