# Verification of the agent engine's core

A Dafny model of the parts of the engine whose correctness rests on state and loops, and proofs about them.
`dafny verify dfyconfig.toml` checks everything.

- **The agent turn and its bounded context.** `Text`, `Messages`, `ContextLayers`, `Pairing`, `Regrouping`, `Trimming`,
  `ContextConfig` and `ContextManagement` model the message list, its compaction, microcompaction and trimming;
  `AnchorRemoval` says which contexts survive all of it. `ToolCalls`, `Checkpoints`, `ModelRequests`, `TurnOutcomes`,
  `RoundRules` and `TurnLoop` model the model/tool loop, its approval gates, its suspension, every way it can end and its resumption.
  `Transcripts` models what a turn writes down for the next one and what other teams add to it, `Sessions` a whole
  conversation of turns, and `Replay` the rebuilding of a context from recorded events. What a tool, the model, a store,
  the clock or the user answers is left open at every point where it matters.
- **The definition tree.** `DefinitionPaths`, `DefinitionTree`, `CommitOrder`, `DefinitionWriter` and `DefinitionApply` model plans,
  commit order, compare-and-swap commit and rollback over a tree of files whose writes may fail and which others edit
  meanwhile. `MergeSpec` models the folding of specifications.
- **Tool tasks and tool batches.** `TaskSteps` and `TaskExecutor` model starters, workers, cancellers and recoveries of one durable tool task as
  processes that take atomic steps in any order. `ToolBatch` models the concurrent execution of read-only calls.
- **Event folds.** `BackgroundWork` and `ProgressPump` model the forwarding of session events across dropped
  subscriptions; `SessionEvents`, `CorrelationGraph`, `CorrelationOwners`, `CorrelationQueries` and `UsageFacts` the correlation graph,
  what it says of a log, and the token totals derived from it.
- **JSON in replies.** `JsonSyntax` is a printer for RFC 8259 texts, `JsonScanner` the bracket scanner, and
  `StructuredOutput` the document reader built on it.

Message pairing is stated twice: `Messages.Paired` reads a list from left to right and keeps the multiset of call ids
still owed a result; `Messages.DirectlyAnswered` says by positions that each caller is followed directly by one tool
message per call id. The two agree on every list.

`TurnLoop.Turn.Begin`, `Restore`, `Run`, `Resume` and `RunToEnd` take any prompt, any checkpoint and any request. What they
promise of pairing begins with `TurnLoop.Sure`. The prompt is ready, that is, paired, with more than system messages, with no
call in its first other message (the anchor) and none in what the harness injected; or the checkpoint owes exactly what the
request brings. And the anchor is no empty summary, or the tool schemas use up the hard limit (or there is none), or no
compaction happened to give up the summaries. `AnchorRemoval.SurvivesIff` says that the first two, which can be checked before
a turn, are exact.

## Model

| member | source | states |
|---|---|---|
| Messages.PairedIffDirectlyAnswered | internal/agent/runtime.go:1821-1857 | the left-to-right reading of pairing and the positional one a provider validates agree on every message list |
| TurnLoop.RunToEnd | internal/agent/runtime.go:250-1239 | over a turn and any number of resumptions, of waits and of failures, with any requests: every round before the end is asked, at most retries + 2 times (two when retries are off) and once more that often for each resumption that takes rounds up again; each request shows as many model rounds as its round index, plus at most those taken up again; rounds stay below the limit, and each requested tool call is charged once and within a positive limit; each resumption came to what its checkpoint and its request ask for: a waiting call is run exactly when it was approved and the policy still admits it; when each resumption brings what its checkpoint lacks, every request is paired and the context left behind owes exactly what the outcome says |
| TurnLoop.Run | internal/agent/runtime.go:324-600 | one execution from any prompt: its requests are recorded as above; from a ready prompt they are paired, and the context left behind, which a failed checkpoint holds too, is paired exactly when the outcome settles |
| TurnLoop.Resume | internal/agent/runtime.go:424-610 | an execution from any checkpoint with any request goes on from its round, with nothing charged again; the call that waits for approval is run first exactly when the request approves it and the policy admits it, a denied call is not run and the turn ends, an unfinished wait gives the checkpoint back; when the checkpoint owes exactly what the request brings its requests are paired and its end is as above |
| TurnLoop.Turn.Restore | internal/agent/runtime.go:424-587 | restoring a checkpoint appends the awaited result and then the input, and nothing else, and keeps the rounds and the charged calls; what ends the turn here, and which call was run, follows from pending action, decision, policy and task as listed in `RoundRules.Resolved`; the text of the result is the denial, the refusal, the task's own or the call's; a checkpoint that owes what the request brings leaves nothing owed |
| TurnLoop.Turn.Approve | internal/agent/runtime.go:464-530 | the awaited call is run exactly when it was approved and the policy neither fails nor denies it; only then the turn goes on; a denial becomes the tool message and fails the turn; what the result holds is charged, the call is not charged again |
| TurnLoop.Turn.Begin | internal/agent/runtime.go:588-595 | filling an empty context from a ready prompt leaves nothing owed, through every compaction on the way; broken off, it owes what the part appended so far owes |
| TurnLoop.Turn.Ask | internal/agent/runtime.go:610-860 | the model is asked only behind budget and input check, and behind a compaction if one is due; its reply is charged before anybody looks at it, and ends the turn when the budget does not bear it |
| TurnLoop.Turn.CallModel | internal/agent/runtime.go:668-788 | the retry loop sends only paired requests, at most retries + 2 of them, and leaves the context paired; it asks again exactly behind an empty reply, a refusal that may be retried, or, once, an overflow mended by a compaction, and gives up only when none of these is left |
| TurnLoop.Turn.RunRound | internal/agent/runtime.go:610-1202 | one round keeps the context paired and the books straight, and goes on or ends as its input, its replies, the judgement of the reply and the results of its calls ask for, case by case; where it ends the turn, context and checkpoint are what the outcome says |
| TurnLoop.Turn.Rounds | internal/agent/runtime.go:610-1239 | the loop ends, within its bounds; the input is checked in its first round, before the model is asked, and in no other; every round before the last went on, and the round limit is reached only when all did; the model-round count stays ahead of the round index by what it was at the start |
| TurnLoop.Turn.StartAsync | internal/agent/runtime.go:1029-1113 | the asynchronous path always ends the round: a single call with a runner is started, or asked for, as the policy says, and anything else fails; a wait owes the one call, a failure owes every call of the reply and takes its round up again |
| TurnLoop.Turn.ToolRound | internal/agent/runtime.go:1000-1202 | a tool round that goes on has logged the response under its calls' final ids and then exactly one tool message for each call, in order; nothing is owed, and each call is charged once |
| TurnLoop.Turn.ReportResults | internal/agent/runtime.go:1116-1139 | one tool message per result with its text, in order, until only the calls waiting for approval are owed; output and file changes are charged for exactly the reported ones; broken off behind some result, it owes exactly the calls behind it and those waiting |
| TurnLoop.Turn.Conclude | internal/agent/runtime.go:1154-1202 | the first result that wants input, waits for approval or routes elsewhere decides: input is waited for, that very call waits for approval, any other route finishes the turn; without one the loop goes on exactly when the agent is not stuck; a wait owes exactly the awaited call, any other end nothing |
| TurnLoop.Turn.FinalAnswer | internal/agent/runtime.go:912-998 | a reply without calls is the answer exactly when guardrail, schema and completion rules let it pass and it does not repeat itself; it is mended once while rounds are left |
| TurnOutcomes.PairedIffSettles | internal/agent/runtime.go:612-1239 | a context that owes what its outcome says is paired exactly when the turn neither waits for a tool result, nor failed on the asynchronous path or while its calls were appended, nor before the last report of a batch or with a call of it still waiting |
| TurnOutcomes.LeftIsSettledIff | internal/agent/runtime.go:1370-1414 | a checkpoint owes exactly what it waits for when its turn waits, or failed where no result was missing, and only then |
| TurnLoop.Turn.ChargeTools | internal/agent/runtime.go:1000-1024 | the calls are charged before any gate, and never beyond a positive limit |
| RoundRules.Agent.RoundLimit | internal/agent/runtime.go:324-336 | the limit is positive, within every positive bound of agent, request and budget, and one of them; 200 where neither agent nor request bounds it |
| ToolCalls.ExecuteToolCalls | internal/agent/runtime.go:1584-1752 | a batch stops at a gate exactly when some call needs approval; then nothing runs and every other call has a plain result; otherwise exactly the calls that passed allowlist and policy, and to which no hook objected, run, each once and in order, and a call that does not has a failure for its result |
| ToolCalls.PolicyGate | internal/agent/runtime.go:1630-1649 | the gate is the first call that needs approval, and refused calls keep their ids |
| ToolCalls.ApprovalResults | internal/agent/runtime.go:1821-1857 | the waiting call carries the approval, every other call a result that decides nothing |
| ToolCalls.ToolDecision | internal/agent/runtime.go:1754-1808 | approval is asked for only where people may give it, and nothing is allowed against policy, knowledge gate or the tool's own rules |
| ToolCalls.EnsureToolCallIds | internal/agent/runtime.go:2193-2200 | every call gets an id, and an id once given stays |
| Checkpoints.RestoredStaysGood | internal/agent/runtime.go:1370-1414 | a context written to a checkpoint and read back owes the same results and keeps its anchor |
| Checkpoints.OnlyTheResultSettles | internal/agent/runtime.go:464-579 | of all messages only the awaited result makes a suspended context paired |
| Checkpoints.UnansweredStaysBroken | internal/agent/runtime.go:464-587 | a context resumed with anything else can never be made paired by what follows it |
| Sessions.Converse | internal/agent/runtime.go:388-412 | over the turns of a session, each with its waits and resumptions, continuing what the last execution that wrote the transcript left and what other teams delivered since: every request is paired as long as no turn continues a conversation that lacks a result and every resumption was fair |
| Transcripts.NextPromptIsReadyIff | internal/agent/transcript.go:141-204 | the prompt continued from what an execution wrote down, and from what was delivered since, can be run exactly when the outcome of that execution settles and something was said before the first delivery |
| Transcripts.DeliveredIsGoodIff | internal/runtime/flow/resume_tool_result.go:69-104 | delivered results keep a conversation settled exactly when it was settled and somebody has spoken in it; in one that owes a result they break the pairing for good |
| Transcripts.DeliverResult | internal/runtime/flow/resume_tool_result.go:69-140 | the pair of Collect call and result is appended exactly when no call in the conversation names the task; afterwards one does, so that a second delivery changes nothing |
| Transcripts.ContinuedIsReadyIff | internal/agent/transcript.go:141-204 | a conversation to which nothing is appended owes what it owed; with something appended it is paired if it owed nothing and beyond repair otherwise |
| Transcripts.RepeatedIff | internal/agent/transcript.go:185-250 | a message rendered again in the next turn is repeated in the conversation exactly when the execution before was a resumption |
| Transcripts.TakenIsNew | internal/agent/transcript.go:185-204 | what is appended was not known to the conversation and is appended once |
| Transcripts.ContinueTranscript | internal/agent/transcript.go:141-204 | the loop over the rendered messages gives the prompt and the known keys of the recursive definition, with the cases of no transcript, a changed system prompt and a retried turn |
| Transcripts.ContinuationTells | internal/agent/transcript.go:141-204 | a conversation is taken up unless it is empty or the system prompt is known to have changed; a retried turn adds nothing, any other adds, in order, what is rendered for it and not known, apart from the system prompt in front and the placeholder behind a tool result |
| ContextManagement.MessageContextManager.AddMessageContext | internal/agent/context.go:94-133 | the message is stored, older output is shortened, and the context is compacted when it is due; a pairing that the message continues survives all of it unless an empty summary at the anchor is removed; no error means the hard limit is kept, and with a compaction limit the context-limit error means that every tool result was emptied, when the schemas fit |
| ContextManagement.MessageContextManager.CompactLocked | internal/agent/context.go:349-475 | when a compaction happens, and what it builds from which groups; the kept cost is within the remaining budget or the newest group's; the new text is the compactor's, or the listing of what is dropped where it fails or says nothing; what is dropped is accounted for by the longest part of the merged summary whose message fits, which is missing exactly when not one character does; the error is the limit error of the list it leaves; what a compaction leaves beyond the limit has no tool text, and the summaries go only under a hard limit that the schemas do not use up |
| ContextManagement.HistoryIsTold | internal/agent/context.go:413-437 | with the default estimator a compaction leaves history without an account exactly when there is no text or not one character of it fits, and keeps the whole text where it fits |
| ContextManagement.ListingTells | internal/agent/context.go:735-766 | without a compactor the account names every tool that was asked for, and holds every word a user said |
| ContextManagement.EmptiedIff | internal/agent/context.go:349-475 | every unforced limit error with schemas below the hard limit leaves all tool results emptied exactly when the configuration has a compaction limit |
| ContextManagement.AppendEmptiedIff | internal/agent/context.go:94-133 | the same of appending a message |
| ContextManagement.LimitErrorKeepsTools | internal/agent/context.go:306-356 | a capacity of two tokens has no compaction limit: there an unforced compaction reports the context limit and leaves the tool text in place |
| ContextManagement.MessageContextManager.ApplyMicrocompact | internal/agent/context.go:477-498 | the context is rebuilt from its layers with older tool output shortened, and left alone exactly when there are no older groups or nothing in them was ever shortened |
| ContextManagement.MessageContextManager.Compact | internal/agent/context.go:189-221 | compaction, forced or not, keeps pairing and anchor unless an empty summary at the anchor is removed; its limit error means that every tool result was emptied when it was forced or there is a compaction limit |
| ContextManagement.MessageContextManager.RestoreActive | internal/agent/context.go:147-163 | the restored context is the stored messages, and the error tells the hard limit |
| ContextManagement.SelectGroups | internal/agent/context.go:379-401 | the choice is greedy from the newest group on: it is always kept, an older one exactly when it still fits; kept and dropped are both in order |
| ContextManagement.ChooseGroups | internal/agent/context.go:379-410 | the greedy choice, or the recent groups when the compaction is forced and the greedy choice drops nothing; kept cost is at most the remaining budget or the newest group's cost, and a forced compaction of more than the recent groups drops something |
| ContextManagement.FitToHardLimit | internal/agent/context.go:439-475 | only tool and summary text is cut; the summaries are given up exactly when what is left of the candidate is still beyond the limit, with no tool text and an empty first summary in it, and what still does not fit has no tool text left |
| ContextManagement.CompactedStaysGood | internal/agent/context.go:349-475 | any compaction that does not give up an empty summary at the anchor keeps pairing, debt, system messages and anchor |
| AnchorRemoval.SurvivesIff | internal/agent/context.go:349-475 | at given limits, forced or not, a context can still be extended after every compaction, whatever stands around its anchor and whatever the messages cost, exactly when the anchor is no empty summary, or the schemas use up the hard limit, or nothing starts a compaction |
| AnchorRemoval.LosesItsResult | internal/agent/context.go:94-133 | the manager run on a prompt that is an empty summary, a call, its result and a further call, at any limits with room for two tokens and a target within the hard limit: it gives up the prompt and then drops the result, without an error, and nothing appended later makes the context paired |
| AnchorRemoval.MarkerAtTheEnd | internal/prompt/builtin.go:296-310 | a rendered input that ends in the marker is such an anchor |
| ContextManagement.MicrocompactedStaysGood | internal/agent/context.go:477-533 | microcompaction keeps pairing, debt and anchor |
| ContextConfig.MicroShowsEnds | internal/agent/context.go:535-564 | long output with many lines shows a beginning and an end of it, of as many whole lines each, that do not overlap; other long output its beginning |
| ContextConfig.Config.RatioLimit | internal/agent/context.go:306-329 | each limit is the greatest count within the ratio's share of the capacity and within what the output reserve leaves |
| ContextManagement.AppendedStaysGood | internal/agent/context.go:94-133 | appending a message that may follow moves the debt by just that message |
| Pairing.PickOwes | internal/agent/context.go:379-410 | every choice of whole groups that keeps the newest owes exactly what the whole list owed |
| Pairing.RebuiltGood | internal/agent/context.go:412-437 | layers put together again with one summary and a settled body are a paired context with the same anchor |
| Pairing.HistoryOwes | internal/agent/context.go:684-733 | grouping a paired list closes every group but the newest |
| ContextLayers.SplitContextLayers | internal/agent/context.go:684-733 | the layers of a message list, as the recursive definition gives them |
| ContextLayers.FlattenGroups | internal/agent/replay.go:161-177 | grouping loses nothing: flattening the groups gives the list back |
| Regrouping.SplitReassembleSplit | internal/agent/context.go:477-733 | splitting, reassembling and splitting again gives the same layers exactly when something that is not injected separates anchor and groups |
| Regrouping.RegroupFlattened | internal/agent/context.go:684-733 | well-formed groups come out of a flattened list as they went in |
| Regrouping.FoldDropsOldestGroups | internal/agent/replay.go:136-159 | folding keeps the prompt verbatim and drops whole groups only, the oldest |
| Replay.ReplayAgentContext | internal/agent/replay.go:21-95 | the context rebuilt from recorded events, as the event-wise definition gives it |
| Replay.ReplayShows | internal/agent/replay.go:21-95 | without compactions the replay is the prompt and then, by position, what each event recorded: a response with text and calls, a result with its content, or its error exactly when the content is blank, under its own id or the oldest unclaimed one, a feedback with its raw text and its content |
| Replay.ExchangeReplays | internal/agent/replay.go:21-95 | a recorded response and its results come back as one exchange, whole and in order, with or without ids in the results |
| Replay.RoundTripIff | internal/agent/runtime.go:1969-2001 | an exchange replays to the messages that the turn logged exactly when every result is a success without metadata, whose text, if blank, is empty with no error beside it, or a failure that was shown by its error |
| Replay.ReplayIsPairedIff | internal/agent/replay.go:21-95 | without compactions a replay is paired exactly when each event came at its time and no call is left unclaimed |
| Replay.FittingReplayOwesUnclaimed | internal/agent/replay.go:21-159 | with compactions that leave the newest group standing it still owes exactly the unclaimed calls |
| Replay.DropFirst | internal/agent/replay.go:217-226 | one occurrence of the id is claimed, whatever else stands in the list |
| Trimming.TrimToolMessages | internal/agent/context.go:591-630 | for any estimator the loop ends; true means the list fits, false that no tool message has text; nothing but tool text changes |
| Trimming.TrimCompactionSummary | internal/agent/context.go:632-670 | for any estimator the loop ends; only summary text changes, and false means that no message carries the marker or that the first one that does is an empty summary |
| Trimming.FitCompactionSummary | internal/agent/context.go:768-797 | the longest non-empty prefix whose message fits, and nothing exactly when none fits, for an estimator monotone in the prefix |
| Trimming.DefaultEstimatorMonotone | internal/agent/context.go:839-890 | the default estimator is monotone in the summary prefix |
| Trimming.TextCutKeepsGood | internal/agent/context.go:591-670 | cutting tool and summary text keeps pairing and anchor |
| Trimming.RemoveKeepsGood | internal/agent/context.go:574-583 | removing summaries keeps pairing and an anchor that is no summary |
| Text.EstimateConcat | internal/agent/context.go:876-890 | the estimate of a text is within one token of the sum over its parts |
| Text.EstimateMonotone | internal/agent/context.go:876-890 | a longer text never costs less |
| Text.WrapThenSplit | internal/agent/context.go:799-822 | a summary wrapped into a message is split off again unchanged |
| Text.SplitBaseHasNoMarker | internal/agent/context.go:799-805 | the base left by splitting holds no further marker |
| CommitOrder.PrefixIsClosed | internal/definitions/plan.go:76-109 | if every reference is satisfied before and after a plan, it is after any prefix of the commit order |
| CommitOrder.CommitOrderSorts | internal/definitions/plan.go:76-109 | the commit order holds the same paths, each once, ranks never falling |
| CommitOrder.CommitOrderIsStable | internal/definitions/plan.go:86-92 | within a rank the plan's order stands |
| DefinitionApply.Apply | internal/definitions/writer.go:406-493 | refused exactly when an original cannot be read or is missing, the staging copy cannot be made or written, or the candidate does not load; otherwise the first path in commit order that others changed, or that the disk refuses, ends the commit, and without one the plan is written; all or nothing beside outside edits: undone means the tree with just those edits, written means the staged content on each planned path and nothing else; torn means that only the reported paths differ from the old tree, which is closed exactly when they are served; an outside edit of a path before its re-read prevents the write; in a quiet apply every tree on the way has its references satisfied |
| DefinitionApply.WalkIsClosed | internal/definitions/plan.go:274-317 | every tree that a commit and its rollback pass through is closed |
| DefinitionApply.TornIsClosedIff | internal/definitions/plan.go:274-317 | the tree left by a rollback that could not restore everything is closed exactly when each reference of a surviving file leads to an old file or to another surviving one |
| DefinitionApply.TornTreeCanDangle | internal/definitions/writer.go:457-471 | an agent, a team and a flow are committed; the flow cannot be written, the team cannot be removed again, the agent can: the team is left without its agent |
| DefinitionWriter.CommitPlan | internal/definitions/merge.go:661-717 | the commit writes operation after operation, sees exactly the outside edits of the path in hand, and stops at the first operation that the disk or such an edit refuses |
| DefinitionWriter.Rollback | internal/definitions/plan.go:274-317 | each path is restored, or reported exactly when the disk refuses its old content; when all are restored, the tree is the old one, reached back through the commit's own trees |
| DefinitionWriter.CommitOrUndo | internal/definitions/writer.go:457-471 | commit and rollback together: the tree of the finished plan, or the old one with only outside edits |
| DefinitionWriter.RestoreUndoesLast | internal/definitions/plan.go:284-317 | restoring the newest write gives the tree before it |
| DefinitionWriter.RereadSeesEdits | internal/definitions/merge.go:685-705 | a re-read sees others' edits of its path and none of the commit's own writes |
| DefinitionWriter.WritePlan.Add | internal/definitions/plan.go:57-74 | an operation is taken exactly when its cleaned path is new, so paths stay distinct |
| DefinitionWriter.WritePlan.CaptureOriginals | internal/definitions/merge.go:719-754 | each operation knows the file it will replace, or its absence; it succeeds exactly when every path stays inside, can be read, and is there if it is to be replaced |
| DefinitionWriter.WritePlan.ApplyTo | internal/definitions/merge.go:756-777 | the staging copy becomes the candidate exactly when every path can be written |
| DefinitionPaths.CleanIsStable | internal/definitions/plan.go:61-74 | cleaning a cleaned path changes nothing |
| DefinitionPaths.InsideNeverClimbs | internal/definitions/plan.go:119-156 | a cleaned path that does not start upwards never goes upwards |
| MergeSpec.DeepMergeMap | internal/definitions/merge.go:66-83 | the loop over the overlay's keys, in any order, gives the recursive merge |
| MergeSpec.MergeTeamSpec | internal/definitions/merge.go:102-136 | the separate loop over the calls changes nothing: the result is the deep merge |
| MergeSpec.MergeAtPath | internal/definitions/merge.go:66-83 | what the merge holds at every path, from what both documents hold there |
| MergeSpec.LeafOfMerge | internal/definitions/merge.go:56-83 | a leaf of the merge is the overlay's, or the base's where the overlay neither speaks nor cuts it off |
| MergeSpec.MergeIsIdempotent | internal/definitions/merge.go:66-83 | applying the same overlay again changes nothing |
| MergeSpec.AssociativeIff | internal/definitions/merge.go:66-83 | merging three documents is associative exactly when no leaf of the middle one separates two objects of which the newer does not cover the older |
| TaskExecutor.AtMostOneWorker | internal/agent/task.go:333-478 | over every interleaving of unforced starts, workers and cancels with loads that answer, at most one worker is launched |
| TaskExecutor.LaunchesAreDistinct | internal/agent/task.go:333-399 | with forced starts each start launches at most once, and at most one launch is unforced |
| TaskExecutor.SecondWorker | internal/agent/task.go:333-399 | both conditions are needed: a forced start, or a failing load, in the window before the worker registers launches a second worker |
| TaskExecutor.HandlerFiresOnce | internal/agent/task.go:521-568 | the completion handler fires at most once, with a terminal status, on every schedule of starts, workers, cancels and recoveries |
| TaskExecutor.CancelledStaysIff | internal/agent/task.go:415-519 | a stored cancellation stays on every further unforced schedule with loads that answer exactly when no worker stands before its save of running, none runs uncancelled, and none is about to save another status |
| TaskExecutor.CancelledTaskCompletes | internal/agent/task.go:415-519 | one such schedule: a cancelled tool task ends completed while its handler was told of the cancellation |
| TaskExecutor.ToolEndIsReported | internal/agent/task.go:415-478 | a worker left to itself stores and reports how its tool ended: cancelled, completed or failed |
| TaskExecutor.CancelIsReported | internal/agent/task.go:480-519 | a canceller left to itself stops the registered worker, and stores and reports the cancellation exactly of a task that is queued or running |
| TaskExecutor.RecoveryIsReported | internal/agent/task.go:543-567 | a recovery left to itself fails a running task that must not be restarted, starts any other open one by force, and leaves what is over alone |
| TaskExecutor.AsyncToolExecutor.Interleave | internal/agent/task.go:333-541 | the executor's own steps, in any order, are those of the transition function |
| ToolBatch.ToolBatchExecutor.Execute | internal/agent/tool_batch.go:37-66 | whatever the schedule, every call has its result, at most the allowed number is in flight and serial calls are barriers; without cancellation results and world are those of running the calls one by one |
| ToolBatch.ToolBatchExecutor.ExecuteReadOnlySegment | internal/agent/tool_batch.go:68-92 | any order the semaphore admits gives each slot its own result |
| ToolBatch.ToolBatchExecutor.SegmentLikeOneByOne | internal/agent/tool_batch.go:49-66 | a run of read-only calls may be taken in one go |
| BackgroundWork.IncrementalIsBatch | cmd/server/progress_pump.go:355-425 | tracking with re-delivered events equals one batch fold |
| BackgroundWork.RedeliveryKeeps | cmd/server/progress_pump.go:416-477 | delivering the end of a log again leaves the state as it was, even from a state that lags behind |
| BackgroundWork.PendingIff | cmd/server/progress_pump.go:427-487 | work is pending exactly when a started turn, an enqueued or claimed message was not ended since, where a turn ends by completing or by waiting for anything, or when the last finished turn activates another team |
| BackgroundWork.OpenWorkIff | cmd/server/progress_pump.go:427-477 | a turn or message is open exactly when one event of the log began it and no later one ended it |
| BackgroundWork.BackgroundTracker.Apply | cmd/server/progress_pump.go:427-477 | one event changes the sets as the fold's step does |
| ProgressPump.EventPump.Run | cmd/server/progress_pump.go:134-236 | across drops and re-subscriptions notifications are log events behind the start, strictly increasing; without a turn filter, or with an unchanged one, exactly the passing ones up to what was seen; with a filter lifted on the way, exactly the turn's own up to that point and all others from there; and the tracked work equals the batch fold once caught up; everything each subscription delivers is handled, and a drop, and nothing else, is followed by another subscription, at most twice |
| ProgressPump.EventPump.Handle | cmd/server/progress_pump.go:205-236 | one event is tracked, and forwarded if it is new and passes |
| ProgressPump.EventPump.Subscribe | cmd/server/progress_pump.go:165-170 | a subscription taken up behind the last notification keeps all of this |
| JsonScanner.PrintedIsFound | internal/agent/structured.go:204-251 | behind prose without opening brackets, a printed object or array is the first candidate, whole, and the search goes on right behind it |
| JsonScanner.AllPrintedAreFound | internal/agent/structured.go:204-251 | a reply of printed values and prose yields exactly those values, in order |
| JsonScanner.ValueIsNeutral | internal/agent/structured.go:219-247 | every printed JSON value, with whatever brackets and escapes in its strings, leaves the scanner where it was |
| JsonScanner.CandidatesSplit | internal/agent/structured.go:204-251 | candidates are disjoint pieces of the text in order, each balanced at its last character and not before |
| JsonScanner.BalancedJsonCandidates | internal/agent/structured.go:204-251 | the loop finds the candidates that the recursive definition gives |
| StructuredOutput.ParseJsonDocument | internal/agent/structured.go:130-174 | the document is the first piece that decodes; leaving out repeated candidates changes nothing |
| StructuredOutput.SurroundedDocumentIsRead | internal/agent/structured.go:122-174 | a document with text around it is read as that document |
| StructuredOutput.FencedBlocksAreFound | internal/agent/structured.go:176-202 | the fenced candidates of a reply are exactly the bodies of its fenced blocks, in order |
| CorrelationGraph.BuiltIsForest | internal/eval/correlation.go:89-376 | a log whose agent-session ids are used for nothing else builds a forest: levels fall from owner to owned, owner and owned know each other, nothing is listed twice |
| CorrelationGraph.AddedIsForestIff | internal/eval/correlation.go:204-376 | one event keeps the forest exactly when its agent session does not collide with an unowned node of a higher level |
| CorrelationGraph.SharedIdClosesCircle | internal/eval/correlation.go:300-310 | an agent session with its flow session's id closes a circle: flow session and team session each become the owner of the other |
| CorrelationQueries.Graph.AddEvent | internal/eval/correlation.go:204-243 | one event changes nodes and order as the definition of a step says; `CorrelationOwners` says what that is |
| CorrelationOwners.OwnersAfter | internal/eval/correlation.go:204-310 | for every graph and event: a node with an owner keeps it; one without gets the owner that the event names for it, under the kinds of that bond: flow turn and team session their flow session, team turn its flow turn, call turn its team turn, agent session its team session; nothing else changes owner |
| CorrelationOwners.NodesAfter | internal/eval/correlation.go:204-376 | the nodes are those there were and one for each id the event mentions, under the kind it is first mentioned with |
| CorrelationOwners.NotesAfter | internal/eval/correlation.go:223-410 | what every node knows behind an event: the nodes of the envelope and the agent's session take over the ids the event carries, the reported node its status and attempt, a call the first agent named for it; the span of sequence numbers grows for the most specific node that is addressed and for no other |
| CorrelationOwners.OwnersOfLog | internal/eval/correlation.go:89-310 | in the graph of a log whose ids keep to their kinds every node is owned by what the first event that names an owner for it names |
| CorrelationQueries.Graph.Path | internal/eval/correlation.go:130-141 | the path is a chain of owners that ends at a root, of at most four nodes |
| CorrelationQueries.Graph.Descendants | internal/eval/correlation.go:152-170 | exactly the nodes owned directly or through others, each once |
| CorrelationQueries.SubtreeIsExact | internal/eval/correlation.go:152-170 | the depth-first walk lists the subtree without repetition |
| UsageFacts.SessionUsage | internal/eval/observation.go:124-281 | the session total is, in all eight counters, the sum over the distinct call turns owned by a team turn owned by a flow turn |
| UsageFacts.OwnedCallsOfLog | internal/eval/observation.go:198-281 | in the graph of such a log the counted calls are those first named with a team turn that was first named with a flow turn |
| UsageFacts.UsageOfLog | internal/eval/observation.go:124-330 | from the events alone: the total is the sum over those calls of their newest results |
| UsageFacts.WalkMeetsOwnedCalls | internal/eval/observation.go:198-281 | the walk over flow, team and call turns meets each owned call once and nothing else |
| UsageFacts.SumThrough | internal/eval/observation.go:198-281 | summing group by group is summing everything |
| UsageFacts.NewFactIndex | internal/eval/observation.go:146-196 | the index holds the newest result reported for each call |
| UsageFacts.RequestUsage | internal/eval/observation.go:315-330 | each of the eight counters of a call is the sum over its requests, and its own total only when it reports none |

## Where the code does not keep a promise

- A turn that fails on the asynchronous path, or in the middle of reporting a batch, leaves a context and a checkpoint with
  an unanswered call, and the transcript hands them to the next turn: `TurnOutcomes.PairedIffSettles` says at which places,
  `Transcripts.NextPromptIsReadyIff` what it means for the next prompt.
- A turn that fails at the tool budget or on the asynchronous path counts a model round that its checkpoint asks again
  (`TurnOutcomes.CountedIff`).
- A tool result that was shown with its metadata or its error beside its text, or whose text is blank, is replayed without them
  (`Replay.RoundTripIff`).
- A resumed execution forgets what the conversation holds, so that the next turn repeats what is rendered again
  (`Transcripts.RepeatedIff`).
- A context whose first message is an empty summary can lose that message, and then the result of a call
  (`AnchorRemoval.LosesItsResult` runs the manager; `AnchorRemoval.SurvivesIff` says exactly when it can happen).
- A result delivered to a conversation that waits for another one breaks its pairing (`Transcripts.DeliveredIsGoodIff`).
- With a compaction limit that rounds down to zero tokens a limit error comes with tool text in place
  (`ContextManagement.LimitErrorKeepsTools`; `ContextManagement.EmptiedIff` says that this is the only case).
- A rollback whose restore fails part-way goes on and can leave a dangling reference (`DefinitionApply.TornTreeCanDangle`;
  `DefinitionApply.TornIsClosedIff` says exactly when).
- A forced start, or a start whose load fails, can launch a second worker (`TaskExecutor.SecondWorker`).
- A cancelled tool task can end completed (`TaskExecutor.CancelledTaskCompletes`; `TaskExecutor.CancelledStaysIff` says
  exactly when it stays cancelled).
- Merging is not associative across a leaf (`MergeSpec.AssociativeIff` says exactly when it is).
- An agent session that shares an id can close a circle in the graph (`CorrelationGraph.SharedIdClosesCircle`;
  `CorrelationGraph.AddedIsForestIff` says exactly when one event spoils the forest).

## Left out

- TurnLoop.RunToEnd: nothing is said of the pairing after a resumption that does not bring what its checkpoint lacks, or after a tool that itself reports to wait for approval, which no tool of the repository does; the checkpoint of a resumed turn is not deleted.
- TurnLoop.Run: hooks, guardrails, structured validation, completion feedback and route parsing answer at will; only what they lead to is modelled.
- ContextManagement.MessageContextManager.CompactLocked: the tool schemas enter as one token count, the compactor's summary as any text.
- Trimming.TrimToolMessages: how much text is kept is not maximal, because truncated cost is not monotone in the cut.
- DefinitionApply.Apply: an outside edit between a re-read and its write, or of a path already written, is not detected by the code and not part of the statement; the staging copy is taken before any outside edit.
- MergeSpec.DeepMergeMap: documents are values, so that copies share nothing with their originals is not stated; a list is a leaf.
- TaskExecutor.AtMostOneWorker: one id; progress updates, which never change a status, and the worker's second look at the stored status, which the final status overwrites, are left out, as are deletion and subscriptions of the store.
- ToolBatch.ToolBatchExecutor.Execute: a read-only tool runs as one atomic step, which its contract of not changing the world permits.
- ProgressPump.EventPump.Run: the seeding of the work state by a replay, the idle timers and the size limit of notifications.
- CorrelationQueries.Graph.AddEvent: timestamps; the statuses of started and waiting calls are one word each; nodes are values in a map instead of shared pointers.
- StructuredOutput.ParseJsonDocument: decoding itself is a parameter; aliases and required fields of a schema are not modelled.
- Replay.ReplayAgentContext: the choice of the events that belong to the call and to the current chain of turns, and a metadata key that takes the place of the recorded content.
- Sessions.Converse: a delivery and the end of a running turn write the transcript one after the other, not into each other; the first prompt of a session is the rendered one; the replay of events that may fill it up is `Replay`; ids and versions of transcripts are left out.
- TaskExecutor.CancelledStaysIff: without recoveries, which start by force or fail what they find running.
- Workspace facts, records and tool failures of a call: plain accumulation.
- The binding block of a flow file, template rendering, name validation and spawn limits: easy members.
- Strings are sequences of runes; byte offsets, JSON encoding and hashing do not appear, and keys and signatures are the values themselves.
