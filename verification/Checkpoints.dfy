/** What a suspended turn leaves behind, and why a turn can be taken up from it. */
module Checkpoints {
  import opened Text
  import opened Messages
  import opened ContextLayers
  import opened Pairing
  import opened ContextManagement
  import opened ToolCalls

  datatype Limits = Limits(
    maxModelRounds: int,
    maxToolCalls: int,
    maxInputTokens: int,
    maxOutputTokens: int,
    maxFileChanges: int,
    maxToolOutput: int)

  datatype Usage = Usage(
    modelRounds: nat,
    inputTokens: nat,
    outputTokens: nat,
    toolCalls: nat,
    toolOutput: nat,
    fileChanges: nat)
  {
    /** The limits checkUsage enforces. */
    predicate Within(limits: Limits) {
      && (limits.maxInputTokens > 0 ==> inputTokens <= limits.maxInputTokens)
      && (limits.maxOutputTokens > 0 ==> outputTokens <= limits.maxOutputTokens)
      && (limits.maxFileChanges > 0 ==> fileChanges <= limits.maxFileChanges)
      && (limits.maxToolOutput > 0 ==> toolOutput <= limits.maxToolOutput)
    }

    /** What beforeTool guarantees of the calls charged so far. */
    predicate ToolsWithin(limits: Limits) {
      limits.maxToolCalls > 0 ==> toolCalls <= limits.maxToolCalls
    }
  }

  const NO_USAGE: Usage := Usage(0, 0, 0, 0, 0, 0)

  /** The counters that tell a stuck agent. */
  datatype LoopState = LoopState(signature: seq<(string, string)>, sameToolCalls: nat, noProgressRounds: nat, sameModelTexts: nat)

  const NEW_LOOP: LoopState := LoopState([], 0, 0, 0)

  datatype Pending =
    | PendingInput
    | PendingApproval(requestId: string, call: ToolCall)
    | PendingTool(taskId: string, callId: string)
    | Unfinished
  {
    predicate AwaitsResult() {
      PendingApproval? || PendingTool?
    }

    /** The calls that still lack a result while the turn waits. */
    function Owes(): multiset<string> {
      match this
      case PendingApproval(_, call) => multiset{call.id}
      case PendingTool(_, callId) => multiset{callId}
      case _ => multiset{}
    }
  }

  datatype Checkpoint = Checkpoint(
    nextRound: nat,
    lastText: string,
    messages: seq<Message>,
    usage: Usage,
    pending: Pending,
    loop: LoopState)
  {
    /** The context owes exactly the result that the turn waits for. */
    predicate Settled() {
      Good(messages, pending.Owes()) && HasAnchor(messages)
    }

    /** How many model rounds were counted beyond those in front of the round to go on with. */
    function Lag(): int {
      usage.modelRounds - nextRound
    }
  }

  /** The stored form of a message list: the injected mark is not written. */
  function Persisted(msgs: seq<Message>): (r: seq<Message>) {
    seq(|msgs|, i requires 0 <= i < |msgs| => msgs[i].(injected := false))
  }

  // Rewriting that neither pairing nor anchor can see.

  predicate Alike(a: Message, b: Message) {
    && a.role == b.role && a.calls == b.calls && a.callId == b.callId
    && (a.role != Tool ==> a.content == b.content)
    && (b.injected ==> a.injected)
  }

  predicate AllAlike(a: seq<Message>, b: seq<Message>) {
    |a| == |b| && forall i :: 0 <= i < |a| ==> Alike(a[i], b[i])
  }

  lemma {:induction false} ScanAlike(debt: Debt, a: seq<Message>, b: seq<Message>)
    requires AllAlike(a, b)
    ensures Scan(debt, a) == Scan(debt, b)
    decreases a
  {
    if a != [] {
      assert Alike(a[0], b[0]);
      forall i | 0 <= i < |a| - 1 ensures Alike(a[1..][i], b[1..][i]) {
        assert a[1..][i] == a[i + 1] && b[1..][i] == b[i + 1];
      }
      ScanAlike(Step(debt, a[0]), a[1..], b[1..]);
    }
  }

  lemma {:induction false} GoodAlike(a: seq<Message>, b: seq<Message>, ids: multiset<string>)
    requires AllAlike(a, b) && Good(a, ids)
    ensures Good(b, ids) && (HasAnchor(a) ==> HasAnchor(b)) && (PlainAnchor(a) ==> PlainAnchor(b))
  {
    hide HasMarker, SplitSummary;
    hide BlankMarked;
    ScanAlike(CLEAR, a, b);
    var n := SystemCount(a);
    forall i | 0 <= i < |b| ensures Alike(a[i], b[i]) {}
    SystemCountIs(b, n);
    forall i | 0 <= i < |b| && b[i].injected ensures !b[i].IsCaller() { assert Alike(a[i], b[i]); }
    if n < |a| { BlankMarkedAlike(a[n], b[n]); }
  }

  lemma BlankMarkedAlike(a: Message, b: Message)
    requires Alike(a, b)
    ensures BlankMarked(a) <==> BlankMarked(b)
  {
    hide HasMarker, SplitSummary;
  }

  /** Writing a context to a checkpoint and reading it back owes the same results. */
  lemma {:induction false} RestoredStaysGood(msgs: seq<Message>, config: ValidConfig, ids: multiset<string>)
    requires Good(msgs, ids)
    ensures Good(Persisted(msgs), ids) && Good(StoredMessages(Persisted(msgs), config), ids)
    ensures HasAnchor(msgs) ==> HasAnchor(Persisted(msgs)) && HasAnchor(StoredMessages(Persisted(msgs), config))
    ensures PlainAnchor(msgs) ==> PlainAnchor(Persisted(msgs)) && PlainAnchor(StoredMessages(Persisted(msgs), config))
  {
    hide Good, HasAnchor, PlainAnchor;
    var written := Persisted(msgs);
    WrittenStaysGood(msgs, ids);
    ReadStaysGood(written, config, ids);
  }

  lemma {:induction false} WrittenStaysGood(msgs: seq<Message>, ids: multiset<string>)
    requires Good(msgs, ids)
    ensures Good(Persisted(msgs), ids) && (HasAnchor(msgs) ==> HasAnchor(Persisted(msgs)))
    ensures PlainAnchor(msgs) ==> PlainAnchor(Persisted(msgs))
  {
    hide Good, HasAnchor, PlainAnchor;
    GoodAlike(msgs, Persisted(msgs), ids);
  }

  lemma {:induction false} ReadStaysGood(msgs: seq<Message>, config: ValidConfig, ids: multiset<string>)
    requires Good(msgs, ids)
    ensures Good(StoredMessages(msgs, config), ids)
    ensures HasAnchor(msgs) ==> HasAnchor(StoredMessages(msgs, config))
    ensures PlainAnchor(msgs) ==> PlainAnchor(StoredMessages(msgs, config))
  {
    hide Good, HasAnchor, PlainAnchor;
    GoodAlike(msgs, StoredMessages(msgs, config), ids);
  }

  /** The one message that settles a single open call is the result of that call. */
  lemma {:induction false} OnlyTheResultSettles(msgs: seq<Message>, id: string, m: Message)
    requires Scan(CLEAR, msgs) == Owed(multiset{id})
    ensures Paired(msgs + [m]) <==> m.role == Tool && m.callId == id
    ensures !Paired(msgs)
  {
    ScanAppend(CLEAR, msgs, m);
    assert id in multiset{id} && multiset{id} - multiset{id} == multiset{};
  }

  /** Appending anything but that result cannot be repaired by what is appended later. */
  lemma {:induction false} UnansweredStaysBroken(msgs: seq<Message>, id: string, m: Message, more: seq<Message>)
    requires Scan(CLEAR, msgs) == Owed(multiset{id}) && !(m.role == Tool && m.callId == id)
    ensures !Paired(msgs + [m] + more)
  {
    ScanAppend(CLEAR, msgs, m);
    ScanConcat(CLEAR, msgs + [m], more);
    ScanBroken(more);
  }
}
