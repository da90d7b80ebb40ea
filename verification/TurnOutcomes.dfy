/** How an execution of a turn can end, and what the context it leaves behind still owes. */
module TurnOutcomes {
  import opened Wrappers
  import opened Messages
  import opened Pairing
  import opened ToolCalls
  import opened Checkpoints

  function ToolMessage(id: string, content: string): Message {
    Message(Tool, content, [], id, "", "", false)
  }

  function CallerMessage(text: string, calls: seq<ToolCall>): Message {
    Message(Assistant, text, calls, "", "", "", false)
  }

  // Reporting the results of a batch.

  /** The calls among the first `n` whose result is left out because the result itself waits for approval. */
  function Unreported(calls: seq<ToolCall>, results: seq<ToolResult>, n: nat): multiset<string>
    requires n <= |calls| == |results|
  {
    if n == 0 then multiset{}
    else Unreported(calls, results, n - 1) + if results[n - 1].next == WaitApproval then multiset{calls[n - 1].id} else multiset{}
  }

  /** The tool messages that report the first `n` results; those that wait for approval are left out. */
  function Reports(calls: seq<ToolCall>, results: seq<ToolResult>, n: nat): seq<Message>
    requires n <= |calls| == |results|
  {
    if n == 0 then []
    else
      Reports(calls, results, n - 1)
      + if results[n - 1].next == WaitApproval then [] else [ToolMessage(calls[n - 1].id, results[n - 1].content)]
  }

  /** What is owed when `i` results of the batch were looked at. */
  function StillOwed(calls: seq<ToolCall>, results: seq<ToolResult>, i: nat): multiset<string>
    requires i <= |calls| == |results|
  {
    multiset(IdsOf(calls[i..])) + Unreported(calls, results, i)
  }

  /** None of the first `n` results waits for approval. */
  predicate NoneWaits(results: seq<ToolResult>, n: nat) {
    forall i :: 0 <= i < |results| && i < n ==> results[i].next != WaitApproval
  }

  lemma {:induction false} EachIsReported(calls: seq<ToolCall>, results: seq<ToolResult>, n: nat)
    requires n <= |calls| == |results| && NoneWaits(results, n)
    ensures |Reports(calls, results, n)| == n
    ensures forall i :: 0 <= i < n ==> Reports(calls, results, n)[i] == ToolMessage(calls[i].id, results[i].content)
  {
    if n > 0 { EachIsReported(calls, results, n - 1); }
  }

  lemma {:induction false} UnreportedIff(calls: seq<ToolCall>, results: seq<ToolResult>, n: nat)
    requires n <= |calls| == |results|
    ensures Unreported(calls, results, n) == multiset{} <==> NoneWaits(results, n)
  {
    if n > 0 {
      UnreportedIff(calls, results, n - 1);
      if results[n - 1].next == WaitApproval { assert calls[n - 1].id in Unreported(calls, results, n); }
    }
  }

  lemma {:induction false} OneUnreported(calls: seq<ToolCall>, results: seq<ToolResult>, k: nat, n: nat)
    requires n <= |calls| && HeldAt(calls, results, k)
    ensures Unreported(calls, results, n) == if k < n then multiset{calls[k].id} else multiset{}
  {
    if n > 0 { OneUnreported(calls, results, k, n - 1); }
  }

  lemma FirstId(calls: seq<ToolCall>, i: nat)
    requires i < |calls|
    ensures multiset(IdsOf(calls[i..])) == multiset{calls[i].id} + multiset(IdsOf(calls[i + 1..]))
  {
    assert IdsOf(calls[i..]) == [calls[i].id] + IdsOf(calls[i + 1..]);
  }

  lemma OnlyId(calls: seq<ToolCall>)
    requires |calls| == 1
    ensures multiset(IdsOf(calls)) == multiset{calls[0].id}
  {
    assert IdsOf(calls) == [calls[0].id];
  }

  lemma {:induction false} ReportStep(calls: seq<ToolCall>, results: seq<ToolResult>, i: nat)
    requires i < |calls| == |results|
    ensures var now, next := StillOwed(calls, results, i), StillOwed(calls, results, i + 1);
            calls[i].id in now && next == if results[i].next == WaitApproval then now else now - multiset{calls[i].id}
    ensures Reports(calls, results, i + 1) ==
            Reports(calls, results, i) + if results[i].next == WaitApproval then [] else [ToolMessage(calls[i].id, results[i].content)]
  {
    FirstId(calls, i);
  }

  lemma ReportStart(calls: seq<ToolCall>, results: seq<ToolResult>)
    requires |calls| == |results|
    ensures StillOwed(calls, results, 0) == multiset(IdsOf(calls)) && Reports(calls, results, 0) == []
  {
    assert calls[0..] == calls;
  }

  lemma ReportEnd(calls: seq<ToolCall>, results: seq<ToolResult>)
    requires |calls| == |results|
    ensures StillOwed(calls, results, |calls|) == Unreported(calls, results, |calls|)
  {
    assert IdsOf(calls[|calls|..]) == [];
  }

  lemma CallsOwe(calls: seq<ToolCall>)
    ensures multiset(IdsOf(calls)) == multiset{} <==> calls == []
  {
    if calls != [] { assert IdsOf(calls)[0] in multiset(IdsOf(calls)); }
  }

  // Where a turn can end.

  /** The ids a list still owes, as long as nothing in it is out of place. */
  function OwedBy(msgs: seq<Message>): multiset<string> {
    var debt := Scan(CLEAR, msgs);
    if debt.Owed? then debt.ids else multiset{}
  }

  /** The points at which an execution fails or is broken off. */
  datatype Place =
    | Filling(part: seq<Message>)     // while the prompt is appended: what is there of it
    | Restoring(pending: Pending)     // before the awaited result of a checkpoint is there
    | Resumption                      // after it
    | RoundHead                       // before the model is asked
    | Reply                           // while it is asked, or about a reply without calls
    | ToolBudget                      // the calls of the reply are not admitted
    | Calling(calls: seq<ToolCall>)   // the reply with its calls does not fit
    | AsyncStart(calls: seq<ToolCall>)
    | Reporting(calls: seq<ToolCall>, results: seq<ToolResult>, reported: nat)
    | Suspending(pending: Pending)    // the checkpoint of the wait cannot be kept
    | Stuck
    | RoundLimit(past: nat)           // `past` rounds beyond the limit
  {
    /** The calls that have no result in the context left behind. */
    function Owes(): multiset<string> {
      match this
      case Filling(part) => OwedBy(part)
      case Restoring(pending) => pending.Owes()
      case Calling(calls) => multiset(IdsOf(calls))
      case AsyncStart(calls) => multiset(IdsOf(calls))
      case Reporting(calls, results, reported) =>
        if reported <= |calls| == |results| then StillOwed(calls, results, reported) else multiset{}
      case Suspending(pending) => pending.Owes()
      case _ => multiset{}
    }

    predicate Proper() {
      match this
      case Calling(calls) => calls != []
      case AsyncStart(calls) => calls != []
      case Reporting(calls, results, reported) => reported <= |calls| == |results|
      case _ => true
    }

    /** Neither on the asynchronous path, nor before the last report of a batch, nor with a result outstanding. */
    predicate Settles() {
      match this
      case Filling(part) => OwedBy(part) == multiset{}
      case Restoring(pending) => !pending.AwaitsResult()
      case Calling(_) => false
      case AsyncStart(_) => false
      case Reporting(calls, results, reported) => reported == |calls| && NoneWaits(results, reported)
      case Suspending(pending) => !pending.AwaitsResult()
      case _ => true
    }

    /** How many rounds that were counted a checkpoint left here takes up again. */
    function Repeats(): nat {
      match this
      case ToolBudget => 1
      case AsyncStart(_) => 1
      case RoundLimit(past) => past
      case _ => 0
    }
  }

  datatype Outcome =
    | Aborted(place: Place)
    | Finished(completed: bool)
    | Failed(place: Place, left: Option<Checkpoint>)
    | Waiting(pending: Pending, checkpoint: Option<Checkpoint>)
  {
    function Owes(): multiset<string> {
      match this
      case Finished(_) => multiset{}
      case Waiting(pending, _) => pending.Owes()
      case _ => place.Owes()
    }

    predicate Proper() {
      Aborted? || Failed? ==> place.Proper()
    }

    /** The turn waits for no tool result, and did not end where one is missing. */
    predicate Settles() {
      match this
      case Finished(_) => true
      case Waiting(pending, _) => !pending.AwaitsResult()
      case _ => place.Settles()
    }

    function Left(): Option<Checkpoint> {
      match this
      case Failed(_, left) => left
      case Waiting(_, checkpoint) => checkpoint
      case _ => None
    }

    function Awaits(): Pending {
      if Waiting? then pending else Unfinished
    }

    function Repeats(): nat {
      if Failed? then place.Repeats() else 0
    }

    /** A result that itself waits for approval decides its turn, and only in these ways. */
    predicate MayDelegate() {
      Waiting? || (Finished? && completed) || (Aborted? && place.Suspending?)
    }

    /** What it left can be taken up: a wait, or a failure that lacks no result. */
    predicate CanResume() {
      Waiting? || (Failed? && place.Settles())
    }
  }

  lemma ReportingOwes(calls: seq<ToolCall>, results: seq<ToolResult>, n: nat)
    requires n <= |calls| == |results|
    ensures Reporting(calls, results, n).Owes() == StillOwed(calls, results, n) && Reporting(calls, results, n).Proper()
  {
  }

  lemma {:induction false} PlaceSettlesIff(place: Place)
    requires place.Proper()
    ensures place.Owes() == multiset{} <==> place.Settles()
  {
    hide OwedBy, NoneWaits;
    match place
    case Calling(calls) => CallsOwe(calls);
    case AsyncStart(calls) => CallsOwe(calls);
    case Restoring(pending) => AwaitsIff(pending);
    case Suspending(pending) => AwaitsIff(pending);
    case Reporting(calls, results, reported) =>
      UnreportedIff(calls, results, reported);
      CallsOwe(calls[reported..]);
    case _ =>
  }

  lemma AwaitsIff(pending: Pending)
    ensures pending.Owes() == multiset{} <==> !pending.AwaitsResult()
  {
    if pending.PendingApproval? { assert pending.call.id in pending.Owes(); }
    if pending.PendingTool? { assert pending.callId in pending.Owes(); }
  }

  /** A context that owes what its outcome says is paired exactly when the outcome settles. */
  lemma {:induction false} PairedIffSettles(outcome: Outcome, context: seq<Message>)
    requires outcome.Proper() && Scan(CLEAR, context) == Owed(outcome.Owes())
    ensures Paired(context) <==> outcome.Settles()
  {
    match outcome
    case Finished(_) =>
    case Waiting(pending, _) => AwaitsIff(pending);
    case _ => PlaceSettlesIff(outcome.place);
  }

  /** The books of the checkpoint an execution left: where it goes on, what was counted, and what it waits for. */
  predicate Booked(outcome: Outcome, end: int, lag: int, calls: int) {
    outcome.Left().Some? ==>
      var checkpoint := outcome.Left().value;
      && checkpoint.nextRound + outcome.Repeats() == end && checkpoint.usage.modelRounds == end + lag
      && checkpoint.usage.toolCalls == calls && checkpoint.pending == outcome.Awaits()
  }

  /** A checkpoint's rounds agree with its count of model rounds, as far as they did before, unless it repeats some. */
  lemma CountedIff(outcome: Outcome, end: int, lag: int, calls: int)
    requires Booked(outcome, end, lag, calls) && outcome.Left().Some?
    ensures outcome.Left().value.Lag() == lag + outcome.Repeats()
    ensures outcome.Left().value.Lag() == lag <==>
              !(outcome.Failed? && (outcome.place.ToolBudget? || outcome.place.AsyncStart? ||
                                    (outcome.place.RoundLimit? && outcome.place.past > 0)))
  {
  }

  /** The pairing of what an execution left: its context, and its checkpoint, owe exactly what its outcome says. */
  ghost predicate Leaves(outcome: Outcome, context: seq<Message>, plain: bool) {
    && Good(context, outcome.Owes()) && (plain ==> PlainAnchor(context))
    && (outcome.Left().Some? ==>
          var messages := outcome.Left().value.messages;
          Good(messages, outcome.Owes()) && HasAnchor(messages) && (plain ==> PlainAnchor(messages)))
  }

  lemma LeftPaired(outcome: Outcome, context: seq<Message>, plain: bool)
    requires Leaves(outcome, context, plain) && outcome.Proper()
    ensures Scan(CLEAR, context) == Owed(outcome.Owes()) && (Paired(context) <==> outcome.Settles())
  {
    hide PlainAnchor, HasAnchor, Quiet, Anchored;
    assert Scan(CLEAR, context) == Owed(outcome.Owes());
    PairedIffSettles(outcome, context);
  }

  /** A checkpoint that can be taken up owes exactly what its request has to bring. */
  lemma {:induction false} LeftIsSettledIff(outcome: Outcome, end: int, lag: int, calls: int, context: seq<Message>, plain: bool)
    requires Leaves(outcome, context, plain) && Booked(outcome, end, lag, calls) && outcome.Proper() && outcome.Left().Some?
    ensures outcome.Left().value.Settled() <==> outcome.CanResume()
    ensures plain ==> PlainAnchor(outcome.Left().value.messages)
  {
    hide HasAnchor, PlainAnchor, Quiet, Anchored;
    if outcome.Failed? { PlaceSettlesIff(outcome.place); }
  }
}
