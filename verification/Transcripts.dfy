/** The conversation of an agent across the turns of a session: what a turn writes down, and what the next one continues. */
module Transcripts {
  import opened Wrappers
  import opened Text
  import opened Messages
  import opened ContextLayers
  import opened Pairing
  import opened ToolCalls
  import opened Checkpoints
  import opened ModelRequests
  import opened TurnOutcomes
  import opened RoundRules
  import opened TurnLoop

  /** messageKey: what tells one message from another across turns. */
  datatype Key = Key(role: Role, teamId: string, content: string)

  function KeyOf(m: Message): Key {
    Key(m.role, m.teamId, m.content)
  }

  /** `system` is the system prompt it was written under, where the code keeps a hash of it. */
  datatype Transcript = Transcript(system: Option<string>, messages: seq<Message>, lastTurn: string, appended: set<Key>)

  const CONTINUE: string := "Continue with the task above."

  function SystemOf(msgs: seq<Message>): Option<string> {
    if msgs != [] && msgs[0].role == System then Some(msgs[0].content) else None
  }

  predicate SameSystem(transcript: Transcript, rendered: seq<Message>) {
    transcript.system == None || SystemOf(rendered) == None || transcript.system == SystemOf(rendered)
  }

  predicate EndsOnResult(msgs: seq<Message>) {
    msgs != [] && msgs[|msgs| - 1].role == Tool
  }

  /** The system prompt is never repeated, nor the placeholder behind a tool result. */
  predicate Offered(rendered: seq<Message>, i: nat, onResult: bool)
    requires i < |rendered|
  {
    && !(i == 0 && rendered[i].role == System)
    && !(onResult && rendered[i].role == User && Trim(rendered[i].content) == CONTINUE)
  }

  /** Of the first `n` rendered messages those that are not in the conversation yet. */
  function Taken(rendered: seq<Message>, n: nat, onResult: bool, known: set<Key>): (taken: seq<Message>)
    requires n <= |rendered|
  {
    if n == 0 then []
    else
      var before := Taken(rendered, n - 1, onResult, known);
      var m := rendered[n - 1];
      before + if Offered(rendered, n - 1, onResult) && KeyOf(m) !in known + Keys(before) then [m] else []
  }

  function Keys(msgs: seq<Message>): set<Key> {
    set m | m in msgs :: KeyOf(m)
  }

  /** The transcript that this turn can continue. */
  predicate Continues(transcript: Transcript, rendered: seq<Message>) {
    SameSystem(transcript, rendered) && transcript.messages != []
  }

  function Fresh(transcript: Transcript, rendered: seq<Message>): seq<Message> {
    Taken(rendered, |rendered|, EndsOnResult(transcript.messages), transcript.appended)
  }

  /** What continueTranscript returns: the prompt of the turn, and the transcript it continues, if there is one. */
  function Continuation(stored: Option<Transcript>, turn: string, rendered: seq<Message>): (r: (seq<Message>, Option<Transcript>))
    ensures r.1.Some? ==> stored.Some? && Continues(stored.value, rendered)
  {
    if stored.None? || !Continues(stored.value, rendered) then (rendered, None)
    else if IsRetry(stored, turn) then (stored.value.messages, stored)
    else
      var said := Fresh(stored.value, rendered);
      (stored.value.messages + said, Some(stored.value.(appended := stored.value.appended + Keys(said))))
  }

  /** The turn that wrote the transcript runs again. */
  predicate IsRetry(stored: Option<Transcript>, turn: string) {
    stored.Some? && stored.value.lastTurn != "" && stored.value.lastTurn == turn
  }

  method ContinueTranscript(stored: Option<Transcript>, turn: string, rendered: seq<Message>)
    returns (prompt: seq<Message>, continued: Option<Transcript>)
    ensures (prompt, continued) == Continuation(stored, turn, rendered)
  {
    hide Taken, Offered, Keys;
    if stored.None? { return rendered, None; }
    var transcript, system := stored.value, SystemOf(rendered);
    if transcript.system.Some? && system.Some? && transcript.system != system { return rendered, None; }
    if transcript.messages == [] { return rendered, None; }
    if transcript.lastTurn != "" && transcript.lastTurn == turn { return transcript.messages, stored; }
    var appended := transcript.appended;
    prompt := transcript.messages;
    var onResult := EndsOnResult(transcript.messages);
    NothingTaken(rendered, onResult, transcript.appended);
    for i := 0 to |rendered|
      invariant prompt == transcript.messages + Taken(rendered, i, onResult, transcript.appended)
      invariant appended == transcript.appended + Keys(Taken(rendered, i, onResult, transcript.appended))
    {
      var m := rendered[i];
      TakeNext(rendered, i, onResult, transcript.appended);
      if Offered(rendered, i, onResult) && KeyOf(m) !in appended {
        appended := appended + {KeyOf(m)};
        prompt := prompt + [m];
      }
    }
    continued := Some(transcript.(appended := appended));
  }

  lemma NothingTaken(rendered: seq<Message>, onResult: bool, known: set<Key>)
    ensures Taken(rendered, 0, onResult, known) == [] && known + Keys([]) == known
  {
  }

  lemma TakeNext(rendered: seq<Message>, n: nat, onResult: bool, known: set<Key>)
    requires n < |rendered|
    ensures var before, after, m := Taken(rendered, n, onResult, known), Taken(rendered, n + 1, onResult, known), rendered[n];
            if Offered(rendered, n, onResult) && KeyOf(m) !in known + Keys(before) then
              after == before + [m] && known + Keys(after) == known + Keys(before) + {KeyOf(m)}
            else after == before
  {
    hide Keys, Offered;
    var before, m := Taken(rendered, n, onResult, known), rendered[n];
    KeysAppend(before, m);
    assert before + [] == before;
  }

  lemma KeysAppend(msgs: seq<Message>, m: Message)
    ensures Keys(msgs + [m]) == Keys(msgs) + {KeyOf(m)}
  {
    assert forall k :: k in Keys(msgs + [m]) ==> k in Keys(msgs) + {KeyOf(m)};
    assert forall x :: x in msgs ==> x in msgs + [m];
    assert m in msgs + [m];
  }

  /** The one list comes out of the other by leaving messages out. */
  predicate Subsequence(part: seq<Message>, whole: seq<Message>) {
    if whole == [] then part == []
    else
      var n := |whole| - 1;
      || (part != [] && part[|part| - 1] == whole[n] && Subsequence(part[..|part| - 1], whole[..n]))
      || Subsequence(part, whole[..n])
  }

  lemma {:induction false} TakenInOrder(rendered: seq<Message>, n: nat, onResult: bool, known: set<Key>)
    requires n <= |rendered|
    ensures Subsequence(Taken(rendered, n, onResult, known), rendered[..n])
  {
    hide Keys, Offered;
    if n > 0 {
      var before := Taken(rendered, n - 1, onResult, known);
      TakenInOrder(rendered, n - 1, onResult, known);
      assert rendered[..n][..n - 1] == rendered[..n - 1];
      TakeNext(rendered, n - 1, onResult, known);
      if Taken(rendered, n, onResult, known) != before { assert Taken(rendered, n, onResult, known)[..|before|] == before; }
      assert rendered[..n][n - 1] == rendered[n - 1];
    }
  }

  /**
   * A conversation is taken up unless there is none in the transcript or the system prompt is known to have changed. The turn
   * that wrote it goes on from there; any other adds, in order, what is rendered for it and was not known, apart from the system
   * prompt in front and the placeholder behind a tool result.
   */
  lemma {:induction false} ContinuationTells(stored: Option<Transcript>, turn: string, rendered: seq<Message>)
    ensures var (prompt, continued) := Continuation(stored, turn, rendered);
            var system := SystemOf(rendered);
            if stored == None || stored.value.messages == [] || (stored.value.system.Some? && system.Some? && system != stored.value.system) then
              prompt == rendered && continued == None
            else
              var history := stored.value.messages;
              && continued.Some? && history <= prompt
              && continued.value == stored.value.(appended := continued.value.appended)
              && if turn != "" && turn == stored.value.lastTurn then prompt == history && continued == stored
                 else
                   var said := prompt[|history|..];
                   && Subsequence(said, rendered) && AllNew(said, stored.value.appended) && Distinct(said)
                   && continued.value.appended == stored.value.appended + Keys(said)
                   && forall i :: 0 <= i < |rendered| ==>
                        || KeyOf(rendered[i]) in continued.value.appended
                        || (i == 0 && rendered[i].role == System)
                        || (history[|history| - 1].role == Tool && rendered[i].role == User && Trim(rendered[i].content) == CONTINUE)
  {
    hide Taken, Keys, Trim, Subsequence, AllNew, Distinct;
    if stored.Some? && Continues(stored.value, rendered) && !IsRetry(stored, turn) {
      var onResult, known := EndsOnResult(stored.value.messages), stored.value.appended;
      TakenIsNew(rendered, |rendered|, onResult, known);
      TakenInOrder(rendered, |rendered|, onResult, known);
      assert rendered[..|rendered|] == rendered;
      forall i | 0 <= i < |rendered| && Offered(rendered, i, onResult)
        ensures KeyOf(rendered[i]) in known + Keys(Fresh(stored.value, rendered))
      {
        TakenCovers(rendered, |rendered|, i, onResult, known);
      }
    }
  }

  /** saveTranscript: the context of the turn, with what is known to be part of it. */
  function Saved(context: seq<Message>, continued: Option<Transcript>, base: seq<Message>, turn: string): Transcript {
    var known :=
      if continued.Some? && continued.value.appended != {} then continued.value.appended
      else Keys(if SystemOf(base) == None then base else base[1..]);
    Transcript(SystemOf(context), context, turn, known)
  }

  /** The transcript an execution writes. One that resumed a checkpoint has neither continued nor rendered anything. */
  function Written(stored: Option<Transcript>, turn: string, rendered: seq<Message>, context: seq<Message>, resumed: bool): Transcript {
    if resumed then Saved(context, None, [], turn)
    else Saved(context, Continuation(stored, turn, rendered).1, rendered, turn)
  }

  // What is handed over again.

  lemma InKeys(msgs: seq<Message>, i: nat)
    requires i < |msgs|
    ensures KeyOf(msgs[i]) in Keys(msgs)
  {
    assert msgs[i] in msgs;
  }

  predicate AllNew(msgs: seq<Message>, known: set<Key>) {
    forall i :: 0 <= i < |msgs| ==> KeyOf(msgs[i]) !in known
  }

  predicate Distinct(msgs: seq<Message>) {
    forall i, j :: 0 <= i < j < |msgs| ==> KeyOf(msgs[i]) != KeyOf(msgs[j])
  }

  /** What is taken was not known, and is taken once. */
  lemma {:induction false} TakenIsNew(rendered: seq<Message>, n: nat, onResult: bool, known: set<Key>)
    requires n <= |rendered|
    ensures AllNew(Taken(rendered, n, onResult, known), known) && Distinct(Taken(rendered, n, onResult, known))
  {
    hide Keys, Offered;
    if n > 0 {
      var before := Taken(rendered, n - 1, onResult, known);
      TakenIsNew(rendered, n - 1, onResult, known);
      TakeNext(rendered, n - 1, onResult, known);
      forall i | 0 <= i < |before| ensures KeyOf(before[i]) in Keys(before) { InKeys(before, i); }
    }
  }

  lemma {:induction false} TakenCovers(rendered: seq<Message>, n: nat, i: nat, onResult: bool, known: set<Key>)
    requires i < n <= |rendered| && Offered(rendered, i, onResult)
    ensures KeyOf(rendered[i]) in known + Keys(Taken(rendered, n, onResult, known))
  {
    hide Offered, Keys;
    TakeNext(rendered, n - 1, onResult, known);
    if i < n - 1 { TakenCovers(rendered, n - 1, i, onResult, known); }
  }

  lemma KeyOfSome(msgs: seq<Message>, key: Key)
    requires key in Keys(msgs)
    ensures exists i :: 0 <= i < |msgs| && KeyOf(msgs[i]) == key
  {
    var m :| m in msgs && KeyOf(m) == key;
  }

  /** A fresh turn knows what was rendered for it. */
  lemma {:induction false} WrittenKnows(stored: Option<Transcript>, turn: string, rendered: seq<Message>, context: seq<Message>, i: nat)
    requires i < |rendered| && Offered(rendered, i, true) && !IsRetry(stored, turn)
    ensures KeyOf(rendered[i]) in Written(stored, turn, rendered, context, false).appended
  {
    hide Keys, Taken;
    var continued := Continuation(stored, turn, rendered).1;
    if continued.Some? {
      TakenCovers(rendered, |rendered|, i, EndsOnResult(stored.value.messages), stored.value.appended);
      assert KeyOf(rendered[i]) in continued.value.appended;
    } else {
      var base := if SystemOf(rendered) == None then rendered else rendered[1..];
      var k := if SystemOf(rendered) == None then i else i - 1;
      assert base[k] == rendered[i];
      InKeys(base, k);
    }
  }

  /**
   * A message that is rendered again in the next turn is repeated in the conversation exactly when the
   * execution before it was a resumption: that one forgets what the conversation holds.
   */
  lemma {:induction false} RepeatedIff(stored: Option<Transcript>, turn: string, rendered: seq<Message>, context: seq<Message>, resumed: bool,
                                       i: nat, next: seq<Message>, j: nat)
    requires !IsRetry(stored, turn) && i < |rendered| && j < |next| && KeyOf(next[j]) == KeyOf(rendered[i])
    requires Offered(rendered, i, true) && Offered(next, j, true)
    ensures KeyOf(next[j]) in Keys(Fresh(Written(stored, turn, rendered, context, resumed), next)) <==> resumed
  {
    hide Keys, Taken, Written;
    var written := Written(stored, turn, rendered, context, resumed);
    var onResult := EndsOnResult(written.messages);
    if resumed {
      Forgets(stored, turn, rendered, context);
      TakenCovers(next, |next|, j, onResult, written.appended);
    } else {
      WrittenKnows(stored, turn, rendered, context, i);
      TakenIsNew(next, |next|, onResult, written.appended);
      if KeyOf(next[j]) in Keys(Fresh(written, next)) { KeyOfSome(Fresh(written, next), KeyOf(next[j])); }
    }
  }

  lemma Forgets(stored: Option<Transcript>, turn: string, rendered: seq<Message>, context: seq<Message>)
    ensures Written(stored, turn, rendered, context, true).appended == {}
  {
  }

  // What a continued prompt owes.

  /** The renderer hands over what somebody said: neither calls nor results. */
  predicate Spoken(msgs: seq<Message>) {
    forall i :: 0 <= i < |msgs| ==> msgs[i].role != Tool && !msgs[i].IsCaller()
  }

  lemma {:induction false} SpokenOwe(ids: multiset<string>, msgs: seq<Message>)
    requires Spoken(msgs)
    ensures Scan(Owed(ids), msgs) == if msgs == [] || ids == multiset{} then Owed(ids) else Broken
    decreases msgs
  {
    if msgs != [] {
      forall i | 0 <= i < |msgs| - 1 ensures msgs[1..][i].role != Tool && !msgs[1..][i].IsCaller() { assert msgs[1..][i] == msgs[i + 1]; }
      if ids == multiset{} { SpokenOwe(ids, msgs[1..]); } else { ScanBroken(msgs[1..]); }
    }
  }

  lemma {:induction false} TakenIsSpoken(rendered: seq<Message>, n: nat, onResult: bool, known: set<Key>)
    requires n <= |rendered| && Spoken(rendered)
    ensures Spoken(Taken(rendered, n, onResult, known))
    ensures forall m :: m in Taken(rendered, n, onResult, known) ==> m in rendered
  {
    hide Keys, Offered;
    if n > 0 {
      TakenIsSpoken(rendered, n - 1, onResult, known);
      TakeNext(rendered, n - 1, onResult, known);
    }
  }

  /** What is said after a conversation can be run exactly when the conversation owes nothing; otherwise it is beyond repair. */
  lemma {:induction false} ContinuedIsReadyIff(history: seq<Message>, ids: multiset<string>, said: seq<Message>)
    requires Good(history, ids) && Spoken(said)
    ensures Scan(CLEAR, history + said) == if said == [] || ids == multiset{} then Owed(ids) else Broken
    ensures Ready(history + said) <==> ids == multiset{} && HasAnchor(history + said)
  {
    hide HasMarker, SplitSummary;
    ScanConcat(CLEAR, history, said);
    SpokenOwe(ids, said);
    QuietConcat(history, said);
    AnchoredConcat(history, said);
  }

  lemma AnchoredConcat(history: seq<Message>, said: seq<Message>)
    requires Anchored(history) && Spoken(said)
    ensures Anchored(history + said) && Quiet(said)
    ensures PlainAnchor(history) && (forall i :: 0 <= i < |said| ==> !BlankMarked(said[i])) ==> PlainAnchor(history + said)
  {
    hide HasMarker, SplitSummary, BlankMarked, Scan;
    var list, n := history + said, SystemCount(history + said);
    if HasAnchor(history) {
      SystemCountIs(list, SystemCount(history));
      assert list[n] == history[n];
    } else if HasAnchor(list) {
      assert n >= |history|;
      assert list[n] == said[n - |history|];
    }
  }

  // Results of other teams, which the flow runtime puts into the conversation between two turns.

  /** A finished task, as the pair of messages that the runtime appends for it. */
  datatype Delivery = Delivery(callId: string, arguments: string, content: string)
  {
    function Pair(): seq<Message> {
      [CallerMessage("", [ToolCall(callId, "Collect", arguments)]), ToolMessage(callId, content)]
    }
  }

  function Pairs(deliveries: seq<Delivery>): seq<Message> {
    if deliveries == [] then [] else Pairs(deliveries[..|deliveries| - 1]) + deliveries[|deliveries| - 1].Pair()
  }

  /** `names` tells whether the arguments of a Collect call name a task. */
  predicate Collects(call: ToolCall, task: string, names: (string, string) -> bool) {
    call.name == "Collect" && names(call.arguments, task)
  }

  predicate HasResult(msgs: seq<Message>, task: string, names: (string, string) -> bool) {
    task != "" && exists m :: m in msgs && exists call :: call in m.calls && Collects(call, task, names)
  }

  /** transcriptHasToolResult */
  method TranscriptHasToolResult(msgs: seq<Message>, task: string, names: (string, string) -> bool) returns (found: bool)
    ensures found == HasResult(msgs, task, names)
  {
    if task == "" { return false; }
    for i := 0 to |msgs|
      invariant forall m :: m in msgs[..i] ==> forall call :: call in m.calls ==> !Collects(call, task, names)
    {
      var calls := msgs[i].calls;
      for j := 0 to |calls|
        invariant forall call :: call in calls[..j] ==> !Collects(call, task, names)
      {
        if calls[j].name == "Collect" && names(calls[j].arguments, task) {
          assert msgs[i] in msgs && calls[j] in msgs[i].calls;
          return true;
        }
        assert calls[..j + 1] == calls[..j] + [calls[j]];
      }
      assert calls[..|calls|] == calls && msgs[..i + 1] == msgs[..i] + [msgs[i]];
    }
    assert msgs[..|msgs|] == msgs;
    found := false;
  }

  /** ResumeForToolResult, as far as the transcript goes: the result of a task is appended unless it is already there. */
  method DeliverResult(transcript: Transcript, task: string, names: (string, string) -> bool, delivery: Delivery)
    returns (updated: Transcript, appended: bool)
    requires names(delivery.arguments, task)
    ensures appended == !HasResult(transcript.messages, task, names)
    ensures updated == if !appended then transcript
      else transcript.(messages := transcript.messages
        + [CallerMessage("", [ToolCall(delivery.callId, "Collect", delivery.arguments)]), ToolMessage(delivery.callId, delivery.content)])
    ensures task != "" ==> HasResult(updated.messages, task, names)
  {
    var there := TranscriptHasToolResult(transcript.messages, task, names);
    if there { return transcript, false; }
    updated, appended := transcript.(messages := transcript.messages + delivery.Pair()), true;
    assert delivery.Pair()[0] in updated.messages && ToolCall(delivery.callId, "Collect", delivery.arguments) in delivery.Pair()[0].calls;
  }

  lemma PairsAppend(deliveries: seq<Delivery>, delivery: Delivery)
    ensures Pairs(deliveries + [delivery]) == Pairs(deliveries) + delivery.Pair()
  {
    assert (deliveries + [delivery])[..|deliveries|] == deliveries;
  }

  lemma {:induction false} PairScans(ids: multiset<string>, delivery: Delivery)
    ensures Scan(Owed(ids), delivery.Pair()) == if ids == multiset{} then CLEAR else Broken
  {
    var m, n := delivery.Pair()[0], delivery.Pair()[1];
    assert delivery.Pair() == [m] + [n];
    ScanAppend(Owed(ids), [m], n);
    ScanAppend(Owed(ids), [], m);
    assert [] + [m] == [m];
    assert IdsOf(m.calls) == [delivery.callId] && multiset([delivery.callId]) == multiset{delivery.callId};
    SettlesTheOnly(delivery.callId);
  }

  /** Delivered results are settled pairs; they cannot stand in a conversation that owes something. */
  lemma {:induction false} PairsScan(ids: multiset<string>, deliveries: seq<Delivery>)
    ensures Scan(Owed(ids), Pairs(deliveries)) == if deliveries == [] || ids == multiset{} then Owed(ids) else Broken
  {
    if deliveries != [] {
      var n := |deliveries| - 1;
      PairsScan(ids, deliveries[..n]);
      ScanConcat(Owed(ids), Pairs(deliveries[..n]), deliveries[n].Pair());
      PairScans(ids, deliveries[n]);
      ScanBroken(deliveries[n].Pair());
    }
  }

  lemma {:induction false} PairsQuiet(deliveries: seq<Delivery>)
    ensures forall i :: 0 <= i < |Pairs(deliveries)| ==> !Pairs(deliveries)[i].injected
    ensures deliveries != [] ==> Pairs(deliveries) != [] && Pairs(deliveries)[0].IsCaller()
  {
    if deliveries != [] {
      PairsQuiet(deliveries[..|deliveries| - 1]);
      if |deliveries| == 1 { assert Pairs(deliveries) == [] + deliveries[0].Pair(); }
    }
  }

  lemma PairsAnchored(history: seq<Message>, deliveries: seq<Delivery>)
    requires Anchored(history) && Quiet(history)
    ensures Quiet(history + Pairs(deliveries))
    ensures Anchored(history + Pairs(deliveries)) <==> deliveries == [] || HasAnchor(history)
    ensures HasAnchor(history) ==> HasAnchor(history + Pairs(deliveries)) && (PlainAnchor(history) ==> PlainAnchor(history + Pairs(deliveries)))
    ensures deliveries != [] && !HasAnchor(history) ==> forall rest :: !Anchored(history + Pairs(deliveries) + rest)
  {
    hide HasMarker, SplitSummary, BlankMarked, Scan, Pairs;
    var tail := Pairs(deliveries);
    var list := history + tail;
    PairsQuiet(deliveries);
    NoPairs();
    QuietConcat(history, tail);
    if HasAnchor(history) {
      SystemCountIs(list, SystemCount(history));
      assert list[SystemCount(list)] == history[SystemCount(history)];
    } else if deliveries != [] {
      CallerBehindSystem(history, tail);
    } else {
      assert list == history;
    }
  }

  lemma NoPairs()
    ensures Pairs([]) == []
  {
  }

  /** A call right behind the system messages is an anchor that asks for tools. */
  lemma CallerBehindSystem(history: seq<Message>, tail: seq<Message>)
    requires !HasAnchor(history) && tail != [] && tail[0].IsCaller()
    ensures !Anchored(history + tail) && forall rest :: !Anchored(history + tail + rest)
  {
    forall rest ensures !Anchored(history + tail + rest) {
      var list := history + tail + rest;
      assert list[|history|] == tail[0];
      SystemCountIs(list, |history|);
    }
    assert history + tail + [] == history + tail;
  }

  /** A settled conversation stays settled, whatever is delivered, if anybody has spoken in it. */
  lemma {:induction false} DeliveredIsGoodIff(history: seq<Message>, ids: multiset<string>, deliveries: seq<Delivery>)
    requires Good(history, ids)
    ensures Scan(CLEAR, history + Pairs(deliveries)) == if deliveries == [] || ids == multiset{} then Owed(ids) else Broken
    ensures Good(history + Pairs(deliveries), multiset{}) <==> ids == multiset{} && (deliveries == [] || HasAnchor(history))
    ensures PlainAnchor(history) && HasAnchor(history) ==> PlainAnchor(history + Pairs(deliveries))
  {
    hide HasAnchor, PlainAnchor, Quiet, Anchored;
    ScanConcat(CLEAR, history, Pairs(deliveries));
    PairsScan(ids, deliveries);
    PairsAnchored(history, deliveries);
  }

  /**
   * What the outcome of an execution says of the next prompt, whatever was delivered in between: it can be run exactly when
   * the execution left no result missing, and something was said before any delivery.
   */
  lemma {:induction false} NextPromptIsReadyIff(outcome: Outcome, context: seq<Message>, plain: bool, deliveries: seq<Delivery>,
                                                transcript: Transcript, rendered: seq<Message>)
    requires Leaves(outcome, context, plain) && outcome.Proper() && Spoken(rendered)
    requires transcript.messages == context + Pairs(deliveries)
    ensures var prompt := transcript.messages + Fresh(transcript, rendered);
            Ready(prompt) <==> outcome.Settles() && HasAnchor(prompt) && (deliveries == [] || HasAnchor(context))
  {
    hide HasAnchor, PlainAnchor, Quiet, Anchored, Taken;
    var history, said := transcript.messages, Fresh(transcript, rendered);
    TakenIsSpoken(rendered, |rendered|, EndsOnResult(history), transcript.appended);
    LeftPaired(outcome, context, plain);
    DeliveredIsGoodIff(context, outcome.Owes(), deliveries);
    OwesNothingIff(outcome, context);
    if Good(history, multiset{}) {
      ContinuedIsReadyIff(history, multiset{}, said);
    } else {
      NotReadyBehind(context, outcome.Owes(), deliveries, said);
    }
  }

  lemma OwesNothingIff(outcome: Outcome, context: seq<Message>)
    requires Scan(CLEAR, context) == Owed(outcome.Owes()) && (Paired(context) <==> outcome.Settles())
    ensures outcome.Owes() == multiset{} <==> outcome.Settles()
  {
  }

  lemma {:induction false} NotReadyBehind(context: seq<Message>, ids: multiset<string>, deliveries: seq<Delivery>, said: seq<Message>)
    requires Good(context, ids) && Spoken(said) && (ids != multiset{} || (deliveries != [] && !HasAnchor(context)))
    ensures !Ready(context + Pairs(deliveries) + said)
  {
    hide HasAnchor, PlainAnchor, Quiet, Anchored;
    if ids == multiset{} {
      PairsAnchored(context, deliveries);
    } else {
      DeliveredIsGoodIff(context, ids, deliveries);
      ScanConcat(CLEAR, context + Pairs(deliveries), said);
      SpokenOwe(ids, said);
      ScanBroken(said);
    }
  }
}
