/** Rebuilding a call's context from its recorded events. */
module Replay {
  import opened Text
  import opened Messages
  import opened ContextLayers
  import opened Pairing
  import opened Regrouping
  import opened TurnOutcomes

  /** The recorded events of one call that replay looks at. */
  datatype Recorded =
    | ModelResponse(text: string, calls: seq<ToolCall>)
    | ToolDone(callId: string, content: string, error: string)
    | Feedback(rawText: string, content: string)
    | Compaction(summary: string, dropped: int)

  /** dropFirst */
  function DropFirst(ids: seq<string>, id: string): (r: seq<string>)
    ensures multiset(r) == multiset(ids) - multiset{id}
  {
    if ids == [] then []
    else
      assert ids == [ids[0]] + ids[1..];
      if ids[0] == id then ids[1..] else [ids[0]] + DropFirst(ids[1..], id)
  }

  /** The id of a result: its own, or the first call still unclaimed where the event carries none. */
  function ClaimedId(pending: seq<string>, callId: string): string {
    if callId == "" && pending != [] then pending[0] else callId
  }

  function ResultMessage(id: string, content: string, error: string): Message {
    Message(Tool, if Blank(content) then error else content, [], id, "", "", false)
  }

  /** What one event adds to the context. */
  function NextContext(current: seq<Message>, pending: seq<string>, initial: nat, e: Recorded): (r: seq<Message>)
    requires initial <= |current|
    ensures |r| >= initial && r[..initial] == current[..initial]
  {
    match e
    case ModelResponse(text, calls) => current + [Message(Assistant, text, calls, "", "", "", false)]
    case ToolDone(callId, content, error) => current + [ResultMessage(ClaimedId(pending, callId), content, error)]
    case Feedback(rawText, content) =>
      current + (if rawText != "" then [Plain(Assistant, rawText)] else []) + [Plain(User, content)]
    case Compaction(summary, dropped) => FoldCompacted(current, initial, summary, dropped)
  }

  /** Which calls of the newest model response are unclaimed afterwards. */
  function NextPending(pending: seq<string>, e: Recorded): seq<string> {
    match e
    case ModelResponse(_, calls) => IdsOf(calls)
    case ToolDone(callId, _, _) => DropFirst(pending, ClaimedId(pending, callId))
    case _ => pending
  }

  function Context(initial: seq<Message>, events: seq<Recorded>): (r: seq<Message>)
    ensures |r| >= |initial| && r[..|initial|] == initial
  {
    if events == [] then initial
    else
      var n := |events| - 1;
      NextContext(Context(initial, events[..n]), Unclaimed(events[..n]), |initial|, events[n])
  }

  function Unclaimed(events: seq<Recorded>): seq<string> {
    if events == [] then [] else NextPending(Unclaimed(events[..|events| - 1]), events[|events| - 1])
  }

  /** replayAgentContext, on the events that belong to the call and its task. */
  method ReplayAgentContext(initial: seq<Message>, events: seq<Recorded>) returns (current: seq<Message>)
    ensures current == Context(initial, events)
  {
    hide NextContext, NextPending;
    current := initial;
    var pending := [];
    assert events[..0] == [];
    for i := 0 to |events|
      invariant current == Context(initial, events[..i]) && pending == Unclaimed(events[..i])
    {
      var before := pending;
      pending := Track(pending, events[i]);
      current := Restore(current, before, |initial|, events[i]);
      assert events[..i + 1][..i] == events[..i];
    }
    assert events[..|events|] == events;
  }

  method Track(pending: seq<string>, e: Recorded) returns (next: seq<string>)
    ensures next == NextPending(pending, e)
  {
    next := pending;
    match e {
      case ModelResponse(_, calls) => next := IdsOf(calls);
      case ToolDone(callId, _, _) => next := DropFirst(pending, ClaimedId(pending, callId));
      case _ =>
    }
  }

  method Restore(current: seq<Message>, pending: seq<string>, initial: nat, e: Recorded) returns (next: seq<Message>)
    requires initial <= |current|
    ensures next == NextContext(current, pending, initial, e)
  {
    hide FoldCompacted;
    next := current;
    match e {
      case ModelResponse(text, calls) => next := next + [Message(Assistant, text, calls, "", "", "", false)];
      case ToolDone(callId, content, error) => next := next + [ResultMessage(ClaimedId(pending, callId), content, error)];
      case Feedback(rawText, content) =>
        if rawText != "" { next := next + [Plain(Assistant, rawText)]; }
        next := next + [Plain(User, content)];
      case Compaction(summary, dropped) => next := FoldCompacted(next, initial, summary, dropped);
    }
  }

  // When a replay is a context a provider accepts.

  /** The event fits what is still unclaimed; a compaction must leave the newest group standing. */
  predicate Fits(current: seq<Message>, pending: seq<string>, initial: nat, e: Recorded)
    requires initial <= |current|
  {
    match e
    case ToolDone(callId, _, _) => ClaimedId(pending, callId) in pending
    case Compaction(_, dropped) => pending == [] || dropped < |Groups(current[initial..])|
    case _ => pending == []
  }

  predicate AllFit(initial: seq<Message>, events: seq<Recorded>) {
    events != [] ==>
      var n := |events| - 1;
      AllFit(initial, events[..n]) && Fits(Context(initial, events[..n]), Unclaimed(events[..n]), |initial|, events[n])
  }

  /** One event that fits keeps the books; one that does not breaks them, unless it is a compaction. */
  lemma {:induction false} EventKeepsBooks(current: seq<Message>, pending: seq<string>, initial: nat, e: Recorded)
    requires initial <= |current| && !e.Compaction? && Scan(CLEAR, current) == Owed(multiset(pending))
    ensures Scan(CLEAR, NextContext(current, pending, initial, e)) ==
      if Fits(current, pending, initial, e) then Owed(multiset(NextPending(pending, e))) else Broken
  {
    hide FoldCompacted, Groups, DropFirst;
    var debt := Owed(multiset(pending));
    assert pending != [] ==> pending[0] in multiset(pending);
    match e
    case ModelResponse(text, calls) =>
      ScanAppend(CLEAR, current, Message(Assistant, text, calls, "", "", "", false));
      if calls == [] { assert IdsOf(calls) == []; }
    case ToolDone(callId, content, error) =>
      ScanAppend(CLEAR, current, ResultMessage(ClaimedId(pending, callId), content, error));
    case Feedback(rawText, content) =>
      var spoken := if rawText != "" then [Plain(Assistant, rawText)] else [];
      if rawText != "" { ScanAppend(CLEAR, current, Plain(Assistant, rawText)); } else { assert current + [] == current; }
      ScanAppend(CLEAR, current + spoken, Plain(User, content));
  }

  lemma NothingOwed(msgs: seq<Message>)
    requires msgs == []
    ensures Scan(CLEAR, msgs) == CLEAR && Groups(msgs) == []
  {
  }

  lemma GroupsBehindFirst(msgs: seq<Message>, d: nat)
    requires msgs != [] && 0 < d <= |Groups(msgs)|
    ensures var rest := msgs[GroupLength(msgs)..];
            |Groups(msgs)| == 1 + |Groups(rest)| && Groups(msgs)[d..] == Groups(rest)[d - 1..]
  {
    hide GroupLength;
  }

  lemma {:induction false} DroppedGroupsOwe(msgs: seq<Message>, d: nat, ids: multiset<string>)
    requires Scan(CLEAR, msgs) == Owed(ids) && d <= |Groups(msgs)| && (ids == multiset{} || d < |Groups(msgs)|)
    ensures Scan(CLEAR, Flatten(Groups(msgs)[d..])) == Owed(ids)
    decreases d
  {
    hide GroupLength, Flatten, Scan;
    if d == 0 {
      FlattenGroups(msgs);
      assert Groups(msgs)[0..] == Groups(msgs);
    } else {
      var n := GroupLength(msgs);
      GroupsBehindFirst(msgs, d);
      FirstGroupSettled(msgs, ids);
      if n == |msgs| {
        assert msgs[n..] == [] && msgs[..n] == msgs;
        NothingOwed(msgs[n..]);
      }
      DroppedGroupsOwe(msgs[n..], d - 1, ids);
    }
  }

  lemma {:induction false} FoldKeepsBooks(current: seq<Message>, pending: seq<string>, initial: nat, e: Recorded)
    requires initial <= |current| && e.Compaction? && Fits(current, pending, initial, e)
    requires Paired(current[..initial]) && Scan(CLEAR, current) == Owed(multiset(pending))
    ensures Scan(CLEAR, NextContext(current, pending, initial, e)) == Owed(multiset(pending))
  {
    hide HasMarker, SplitSummary, AppendSummary, Groups, Flatten;
    var prompt, increments := current[..initial], current[initial..];
    assert current == prompt + increments;
    ScanConcat(CLEAR, prompt, increments);
    if e.dropped > 0 {
      var groups := Groups(increments);
      var d := if e.dropped >= |groups| then |groups| else e.dropped;
      var slot := if e.summary != "" then [SummaryMessage(e.summary)] else [];
      DroppedGroupsOwe(increments, d, multiset(pending));
      ScanAppend(CLEAR, [], SummaryMessage(e.summary));
      assert slot != [] ==> slot == [] + [SummaryMessage(e.summary)];
      ScanConcat(CLEAR, prompt, slot);
      ScanConcat(CLEAR, prompt + slot, Flatten(groups[d..]));
    }
  }

  /** A recording whose events all fit is replayed to a context that owes just the unclaimed calls. */
  lemma {:induction false} FittingReplayOwesUnclaimed(initial: seq<Message>, events: seq<Recorded>)
    requires Paired(initial) && AllFit(initial, events)
    ensures Scan(CLEAR, Context(initial, events)) == Owed(multiset(Unclaimed(events)))
  {
    hide NextContext, NextPending, Fits, Scan;
    if events == [] {
      NothingClaimed(initial);
    } else {
      var n := |events| - 1;
      FittingReplayOwesUnclaimed(initial, events[..n]);
      var current, pending := Context(initial, events[..n]), Unclaimed(events[..n]);
      if events[n].Compaction? {
        FoldKeepsBooks(current, pending, |initial|, events[n]);
        PendingStays(pending, events[n]);
      } else {
        EventKeepsBooks(current, pending, |initial|, events[n]);
      }
    }
  }

  lemma NothingClaimed(initial: seq<Message>)
    requires Paired(initial)
    ensures Scan(CLEAR, initial) == Owed(multiset([]))
  {
  }

  lemma PendingStays(pending: seq<string>, e: Recorded)
    requires e.Compaction?
    ensures NextPending(pending, e) == pending
  {
  }

  predicate NoCompaction(events: seq<Recorded>) {
    forall i :: 0 <= i < |events| ==> !events[i].Compaction?
  }

  lemma {:induction false} BrokenStaysBroken(current: seq<Message>, pending: seq<string>, initial: nat, e: Recorded)
    requires initial <= |current| && !e.Compaction? && Scan(CLEAR, current) == Broken
    ensures Scan(CLEAR, NextContext(current, pending, initial, e)) == Broken
  {
    var next := NextContext(current, pending, initial, e);
    var more := next[|current|..];
    assert next == current + more;
    ScanConcat(CLEAR, current, more);
    ScanBroken(more);
  }

  lemma {:induction false} ReplayBreaksOtherwise(initial: seq<Message>, events: seq<Recorded>)
    requires Paired(initial) && NoCompaction(events) && !AllFit(initial, events)
    ensures Scan(CLEAR, Context(initial, events)) == Broken
  {
    hide NextContext, NextPending, Fits, Scan;
    var n := |events| - 1;
    var current, pending := Context(initial, events[..n]), Unclaimed(events[..n]);
    assert NoCompaction(events[..n]) && !events[n].Compaction?;
    if AllFit(initial, events[..n]) {
      FittingReplayOwesUnclaimed(initial, events[..n]);
      EventKeepsBooks(current, pending, |initial|, events[n]);
    } else {
      ReplayBreaksOtherwise(initial, events[..n]);
      BrokenStaysBroken(current, pending, |initial|, events[n]);
    }
  }

  /**
   * Without compactions a replay is paired exactly when each result, feedback and response came at
   * its time and no call is left unclaimed.
   */
  lemma {:induction false} ReplayIsPairedIff(initial: seq<Message>, events: seq<Recorded>)
    requires Paired(initial) && NoCompaction(events)
    ensures Paired(Context(initial, events)) <==> AllFit(initial, events) && Unclaimed(events) == []
  {
    hide Context, AllFit, Unclaimed;
    if AllFit(initial, events) {
      FittingReplayOwesUnclaimed(initial, events);
      var pending := Unclaimed(events);
      assert pending != [] ==> pending[0] in multiset(pending);
    } else {
      ReplayBreaksOtherwise(initial, events);
    }
  }

  // What the replayed messages say.

  function SizeOf(e: Recorded): nat {
    if e.Feedback? && e.rawText != "" then 2 else 1
  }

  /** Where the messages of event `k` begin. */
  function StartOf(initial: nat, events: seq<Recorded>, k: nat): nat
    requires k <= |events|
  {
    if k == 0 then initial else StartOf(initial, events, k - 1) + SizeOf(events[k - 1])
  }

  /**
   * The event's own messages stand at `at`: a response with its text and calls, a result with its content, or with its
   * error where the content is blank, and a feedback behind the raw text it carries.
   */
  predicate ShownAt(msgs: seq<Message>, at: nat, e: Recorded, pending: seq<string>) {
    at + SizeOf(e) <= |msgs| &&
    match e
    case ModelResponse(text, calls) => Speaks(msgs[at], Assistant, text) && msgs[at].calls == calls && msgs[at].callId == ""
    case ToolDone(callId, content, error) =>
      && (if Blank(content) then Speaks(msgs[at], Tool, error) else Speaks(msgs[at], Tool, content))
      && msgs[at].calls == []
      && (callId != "" ==> msgs[at].callId == callId)
      && (callId == "" ==> msgs[at].callId == if pending == [] then "" else pending[0])
    case Feedback(rawText, content) =>
      && (rawText != "" ==> Speaks(msgs[at], Assistant, rawText) && msgs[at].calls == [])
      && Speaks(msgs[at + SizeOf(e) - 1], User, content) && msgs[at + SizeOf(e) - 1].calls == []
    case Compaction(_, _) => true
  }

  predicate Speaks(m: Message, role: Role, content: string) {
    m.role == role && m.content == content && !m.injected
  }

  /** Without compactions a replay is the prompt and then, event by event, what each event recorded. */
  lemma {:induction false} ReplayShows(initial: seq<Message>, events: seq<Recorded>)
    requires NoCompaction(events)
    ensures |Context(initial, events)| == StartOf(|initial|, events, |events|) && initial <= Context(initial, events)
    ensures forall k :: 0 <= k < |events| ==>
      ShownAt(Context(initial, events), StartOf(|initial|, events, k), events[k], Unclaimed(events[..k]))
  {
    hide Blank, Unclaimed;
    if events != [] {
      var n := |events| - 1;
      var before, now := Context(initial, events[..n]), Context(initial, events);
      assert NoCompaction(events[..n]) && !events[n].Compaction?;
      ReplayShows(initial, events[..n]);
      StartOfPrefix(|initial|, events, n, n);
      EventShows(before, Unclaimed(events[..n]), |initial|, events[n]);
      forall k | 0 <= k < |events| ensures ShownAt(now, StartOf(|initial|, events, k), events[k], Unclaimed(events[..k])) {
        StartOfPrefix(|initial|, events, n, k);
        if k < n {
          assert events[..n][..k] == events[..k] && events[..n][k] == events[k];
          ShownLater(before, now, StartOf(|initial|, events, k), events[k], Unclaimed(events[..k]));
        }
      }
    }
  }

  lemma {:induction false} StartOfPrefix(initial: nat, events: seq<Recorded>, n: nat, k: nat)
    requires k <= n <= |events|
    ensures StartOf(initial, events[..n], k) == StartOf(initial, events, k)
  {
    if k > 0 { StartOfPrefix(initial, events, n, k - 1); }
  }

  lemma EventShows(current: seq<Message>, pending: seq<string>, initial: nat, e: Recorded)
    requires initial <= |current| && !e.Compaction?
    ensures var next := NextContext(current, pending, initial, e);
            && current <= next && |next| == |current| + SizeOf(e) && ShownAt(next, |current|, e, pending)
  {
    hide Blank;
  }

  lemma ShownLater(a: seq<Message>, b: seq<Message>, at: nat, e: Recorded, pending: seq<string>)
    requires a <= b && ShownAt(a, at, e, pending)
    ensures ShownAt(b, at, e, pending)
  {
    hide Blank;
  }

  // Round trip: an exchange, as the turn logged it and as its events recorded it.

  /** What a tool gave. `metadata` is the text of its metadata, if there is any. */
  datatype RawResult = RawResult(success: bool, content: string, metadata: string, error: string)
  {
    function Text(): string {
      content + if metadata == "" then "" else (if content == "" then "" else "\n") + "Metadata: " + metadata
    }

    /** toolResultContent: what the model is shown. */
    function Shown(): string {
      if Text() != "" then Text() else error
    }

    /** The event of a success carries the content alone, that of a failure the error. */
    function Event(callId: string): Recorded {
      if success then ToolDone(callId, content, "") else ToolDone(callId, "", error)
    }

    /** What is shown is also what is recorded. */
    predicate Faithful() {
      if success then metadata == "" && (Blank(content) ==> content == "" && error == "")
      else Shown() == error
    }
  }

  /** The events of an exchange; older recordings leave the ids of the results out. */
  function Recording(text: string, calls: seq<ToolCall>, results: seq<RawResult>, named: bool, n: nat): seq<Recorded>
    requires n <= |calls| == |results|
  {
    if n == 0 then [ModelResponse(text, calls)]
    else Recording(text, calls, results, named, n - 1) + [results[n - 1].Event(if named then calls[n - 1].id else "")]
  }

  /** The messages of the exchange, with these texts for its results. */
  function Exchange(text: string, calls: seq<ToolCall>, texts: seq<string>): seq<Message>
    requires |calls| == |texts|
  {
    [CallerMessage(text, calls)] + seq(|calls|, i requires 0 <= i < |calls| => ToolMessage(calls[i].id, texts[i]))
  }

  function ReplayedText(r: RawResult): string {
    if r.success then if Blank(r.content) then "" else r.content else r.error
  }

  lemma ReplayedTextIs(r: RawResult)
    ensures ReplayedText(r) == r.Shown() <==> r.Faithful()
  {
    hide Trim;
    if r.success && r.metadata != "" { assert |r.Text()| > |r.content|; }
    assert r.success && r.content == "" ==> Trim("") == "" by { NothingIsBlank(); }
  }

  lemma NothingIsBlank()
    ensures Blank("")
  {
  }

  lemma ResponseReplays(initial: seq<Message>, text: string, calls: seq<ToolCall>)
    ensures Context(initial, [ModelResponse(text, calls)]) == initial + [CallerMessage(text, calls)]
    ensures Unclaimed([ModelResponse(text, calls)]) == IdsOf(calls)
  {
    assert [ModelResponse(text, calls)][..0] == [];
  }

  lemma EventReplays(current: seq<Message>, pending: seq<string>, initial: nat, result: RawResult, call: ToolCall, named: bool)
    requires initial <= |current| && pending != [] && pending[0] == call.id
    ensures var e := result.Event(if named then call.id else "");
            && NextContext(current, pending, initial, e) == current + [ToolMessage(call.id, ReplayedText(result))]
            && NextPending(pending, e) == pending[1..]
  {
    hide Blank;
    NothingIsBlank();
  }

  lemma OneMore(calls: seq<ToolCall>, results: seq<RawResult>, n: nat)
    requires 0 < n <= |calls| == |results|
    ensures seq(n, i requires 0 <= i < n => ToolMessage(calls[i].id, ReplayedText(results[i])))
         == seq(n - 1, i requires 0 <= i < n - 1 => ToolMessage(calls[i].id, ReplayedText(results[i])))
            + [ToolMessage(calls[n - 1].id, ReplayedText(results[n - 1]))]
  {
    hide ReplayedText;
  }

  /** The exchange comes back whole and in order, whether or not the results carry their ids. */
  lemma {:induction false} ExchangeReplays(initial: seq<Message>, text: string, calls: seq<ToolCall>, results: seq<RawResult>, named: bool, n: nat)
    requires n <= |calls| == |results|
    ensures var events := Recording(text, calls, results, named, n);
            && Unclaimed(events) == IdsOf(calls)[n..]
            && Context(initial, events) ==
                 initial + [CallerMessage(text, calls)]
                 + seq(n, i requires 0 <= i < n => ToolMessage(calls[i].id, ReplayedText(results[i])))
  {
    hide Blank, NextContext, NextPending, ReplayedText, RawResult.Event;
    var events, ids := Recording(text, calls, results, named, n), IdsOf(calls);
    if n == 0 {
      ResponseReplays(initial, text, calls);
      assert ids[0..] == ids;
      assert initial + [CallerMessage(text, calls)] + [] == initial + [CallerMessage(text, calls)];
    } else {
      var before := Recording(text, calls, results, named, n - 1);
      ExchangeReplays(initial, text, calls, results, named, n - 1);
      assert events[..|events| - 1] == before;
      EventReplays(Context(initial, before), Unclaimed(before), |initial|, results[n - 1], calls[n - 1], named);
      assert ids[n - 1..][0] == calls[n - 1].id && ids[n - 1..][1..] == ids[n..];
      OneMore(calls, results, n);
    }
  }

  /**
   * An exchange replays to the very messages the turn logged exactly when each result was shown as it was recorded: a success
   * without metadata whose text is not blank, or a failure that showed its error.
   */
  lemma {:induction false} RoundTripIff(initial: seq<Message>, text: string, calls: seq<ToolCall>, results: seq<RawResult>, named: bool)
    requires |calls| == |results|
    ensures var logged := initial + Exchange(text, calls, seq(|results|, i requires 0 <= i < |results| => results[i].Shown()));
            Context(initial, Recording(text, calls, results, named, |calls|)) == logged <==>
            forall i :: 0 <= i < |results| ==> results[i].Faithful()
  {
    hide Recording, Context, RawResult.Faithful, RawResult.Shown, ReplayedText;
    ExchangeReplays(initial, text, calls, results, named, |calls|);
    var shown := seq(|results|, i requires 0 <= i < |results| => results[i].Shown());
    var replayed := Context(initial, Recording(text, calls, results, named, |calls|));
    var logged := initial + Exchange(text, calls, shown);
    forall i | 0 <= i < |results| ensures replayed[|initial| + 1 + i] == logged[|initial| + 1 + i] <==> results[i].Faithful() {
      ReplayedTextIs(results[i]);
    }
    if forall i :: 0 <= i < |results| ==> results[i].Faithful() {
      forall k | 0 <= k < |logged| ensures replayed[k] == logged[k] {
        if k > |initial| { assert results[k - |initial| - 1].Faithful(); }
      }
    }
  }
}
