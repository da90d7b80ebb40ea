/** The bounded context of one agent turn: appending, microcompaction and compaction. */
module ContextManagement {
  import opened Wrappers
  import opened Text
  import opened Messages
  import opened ContextLayers
  import opened Pairing
  import opened Regrouping
  import opened Trimming
  import opened ContextConfig

  datatype ContextError = NoError | Cancelled | ContextLimit

  type ValidConfig = c: Config | c.Valid()
    witness Config(0, 0.7, 0.8, 0.9, 0.15, 0.1, 0, 8192, 4096, 2)

  predicate NonEmpty(groups: seq<Group>) {
    forall g :: g in groups ==> g != []
  }

  function Max(a: int, b: int): int {
    if a >= b then a else b
  }

  // Which groups a compaction keeps.

  /** Newest first: the newest group always, an older one when it still fits beside those already kept. */
  ghost predicate Greedy(cost: Message -> nat, groups: seq<Group>, flags: seq<bool>, remaining: int)
    requires |groups| == |flags|
    decreases groups
  {
    groups != [] ==>
    && Greedy(cost, groups[1..], flags[1..], remaining)
    && flags[0] == (|groups| == 1 || Total(cost, Flatten(Pick(groups[1..], flags[1..]))) + Total(cost, groups[0]) <= remaining)
  }

  function NewestCost(cost: Message -> nat, groups: seq<Group>): nat {
    if groups == [] then 0 else Total(cost, groups[|groups| - 1])
  }

  lemma {:induction false} PickCons(group: Group, groups: seq<Group>, keep: bool, flags: seq<bool>)
    requires |groups| == |flags|
    ensures Pick([group] + groups, [keep] + flags) == (if keep then [group] else []) + Pick(groups, flags)
    ensures Negate([keep] + flags) == [!keep] + Negate(flags)
  {
    assert ([group] + groups)[1..] == groups && ([keep] + flags)[1..] == flags;
  }

  /** A finished choice: the kept messages, the dropped groups in order, and what the kept ones cost. */
  ghost predicate Selection(cost: Message -> nat, groups: seq<Group>, remaining: nat, flags: seq<bool>,
                            kept: seq<Message>, dropped: seq<Group>)
  {
    && |flags| == |groups|
    && Greedy(cost, groups, flags, remaining)
    && (groups != [] ==> flags[|flags| - 1])
    && (kept == [] <==> groups == [])
    && kept == Flatten(Pick(groups, flags))
    && dropped == Pick(groups, Negate(flags))
    && Total(cost, kept) <= Max(remaining, NewestCost(cost, groups))
  }

  lemma {:induction false} GreedyCons(cost: Message -> nat, group: Group, groups: seq<Group>, remaining: nat,
                                      flags: seq<bool>, keep: bool)
    requires |groups| == |flags| && Greedy(cost, groups, flags, remaining)
    requires keep == (groups == [] || Total(cost, Flatten(Pick(groups, flags))) + Total(cost, group) <= remaining)
    ensures Greedy(cost, [group] + groups, [keep] + flags, remaining)
  {
    hide Total, Pick, Flatten;
    assert ([group] + groups)[1..] == groups && ([keep] + flags)[1..] == flags;
  }

  lemma {:induction false} NewestCons(cost: Message -> nat, group: Group, groups: seq<Group>)
    ensures NewestCost(cost, [group] + groups) == if groups == [] then Total(cost, group) else NewestCost(cost, groups)
  {
    if groups != [] { assert ([group] + groups)[|groups|] == groups[|groups| - 1]; }
  }

  lemma {:induction false} SelectionStep(cost: Message -> nat, group: Group, groups: seq<Group>, remaining: nat,
                                         flags: seq<bool>, kept: seq<Message>, dropped: seq<Group>, keep: bool)
    requires Selection(cost, groups, remaining, flags, kept, dropped) && group != []
    requires keep == (kept == [] || Total(cost, kept) + Total(cost, group) <= remaining)
    ensures Selection(cost, [group] + groups, remaining, [keep] + flags,
                      if keep then group + kept else kept, if keep then dropped else [group] + dropped)
  {
    hide Total, Greedy, NewestCost, Pick, Flatten;
    GreedyCons(cost, group, groups, remaining, flags, keep);
    NewestCons(cost, group, groups);
    PickCons(group, groups, keep, flags);
    PickCons(group, groups, !keep, Negate(flags));
    assert [] + Pick(groups, flags) == Pick(groups, flags);
    assert [] + Pick(groups, Negate(flags)) == Pick(groups, Negate(flags));
    FlattenCons(group, Pick(groups, flags));
    TotalConcat(cost, group, kept);
    TotalOfNone(cost);
  }

  lemma NothingSelected(cost: Message -> nat, remaining: nat)
    ensures Selection(cost, [], remaining, [], [], []) && Total(cost, []) == 0
  {
  }

  lemma EachNonEmpty(groups: seq<Group>, i: nat)
    requires NonEmpty(groups) && i < |groups|
    ensures groups[i] != []
  {
    assert groups[i] in groups;
  }

  lemma TotalOfNone(cost: Message -> nat)
    ensures Total(cost, []) == 0
  {
  }

  /** The selection loop of compactLocked, newest group first; `stops(i)` tells that the turn is found cancelled before group i - 1. */
  method SelectGroups(groups: seq<Group>, cost: Message -> nat, remaining: nat, stops: nat -> bool)
    returns (cancelled: bool, selected: seq<Message>, dropped: seq<Group>, flags: seq<bool>)
    requires NonEmpty(groups)
    ensures cancelled <==> exists i: nat :: 0 < i <= |groups| && stops(i)
    ensures !cancelled ==> Selection(cost, groups, remaining, flags, selected, dropped)
  {
    NothingSelected(cost, remaining);
    hide Selection, Total, NonEmpty;
    cancelled, selected, dropped, flags := false, [], [], [];
    var tokens: nat := 0;
    var i := |groups|;
    assert groups[|groups|..] == [];
    while i > 0
      invariant 0 <= i <= |groups|
      invariant Selection(cost, groups[i..], remaining, flags, selected, dropped)
      invariant tokens == Total(cost, selected) && forall k: nat :: i < k <= |groups| ==> !stops(k)
    {
      cancelled := stops(i);
      if cancelled { return; }
      i := i - 1;
      var group := groups[i];
      var groupTokens := Total(cost, group);
      var keep := selected == [] || tokens + groupTokens <= remaining;
      assert groups[i..] == [group] + groups[i + 1..];
      EachNonEmpty(groups, i);
      SelectionStep(cost, group, groups[i + 1..], remaining, flags, selected, dropped, keep);
      TotalConcat(cost, group, selected);
      if keep {
        selected := group + selected;
        tokens := tokens + groupTokens;
      } else {
        dropped := [group] + dropped;
      }
      flags := [keep] + flags;
    }
    cancelled := false;
    assert groups[0..] == groups;
  }

  // A forced compaction that would drop nothing keeps only the recent groups.

  function SuffixFlags(n: nat, from: nat): (flags: seq<bool>)
    requires from <= n
    ensures |flags| == n && forall i :: 0 <= i < n ==> flags[i] == (i >= from)
  {
    seq(n, i requires 0 <= i < n => i >= from)
  }

  lemma {:induction false} PickSuffix(groups: seq<Group>, from: nat)
    requires from <= |groups|
    ensures Pick(groups, SuffixFlags(|groups|, from)) == groups[from..]
    decreases groups
  {
    if groups != [] {
      var flags, k := SuffixFlags(|groups|, from), if from == 0 then 0 else from - 1;
      assert flags[1..] == SuffixFlags(|groups| - 1, k);
      PickSuffix(groups[1..], k);
      if from == 0 { assert groups[0..] == [groups[0]] + groups[1..][0..]; }
    }
  }

  lemma {:induction false} PickPrefix(groups: seq<Group>, from: nat)
    requires from <= |groups|
    ensures Pick(groups, Negate(SuffixFlags(|groups|, from))) == groups[..from]
    decreases groups
  {
    if groups != [] {
      var flags, k := Negate(SuffixFlags(|groups|, from)), if from == 0 then 0 else from - 1;
      assert flags[1..] == Negate(SuffixFlags(|groups| - 1, k));
      PickPrefix(groups[1..], k);
      if from > 0 { assert groups[..from] == [groups[0]] + groups[1..][..k]; }
    }
  }

  lemma {:induction false} NothingDropped(groups: seq<Group>, flags: seq<bool>)
    requires |groups| == |flags| && Pick(groups, Negate(flags)) == []
    ensures Pick(groups, flags) == groups
    decreases groups
  {
    if groups != [] {
      assert Negate(flags)[1..] == Negate(flags[1..]);
      NothingDropped(groups[1..], flags[1..]);
    }
  }

  lemma {:induction false} SuffixIsCheaper(cost: Message -> nat, groups: seq<Group>, from: nat)
    requires from <= |groups|
    ensures Total(cost, Flatten(groups[from..])) <= Total(cost, Flatten(groups))
  {
    assert groups == groups[..from] + groups[from..];
    FlattenConcat(groups[..from], groups[from..]);
    TotalConcat(cost, Flatten(groups[..from]), Flatten(groups[from..]));
  }

  /** The groups a compaction keeps, by flags: the newest is kept and the budget is respected. */
  ghost predicate KeptWithin(cost: Message -> nat, groups: seq<Group>, flags: seq<bool>, remaining: nat) {
    && |flags| == |groups|
    && (groups != [] ==> flags[|flags| - 1])
    && Total(cost, Flatten(Pick(groups, flags))) <= Max(remaining, NewestCost(cost, groups))
  }

  /** The greedy choice, unless the compaction is forced and the greedy choice drops nothing: then the recent groups. */
  ghost predicate ChoiceMade(cost: Message -> nat, groups: seq<Group>, flags: seq<bool>, remaining: nat, forced: bool, recent: nat)
    requires |flags| == |groups|
  {
    && (forced && |groups| > recent ==> Pick(groups, Negate(flags)) != [])
    && (Greedy(cost, groups, flags, remaining) || (forced && |groups| > recent && flags == SuffixFlags(|groups|, |groups| - recent)))
  }

  /** Selection and the forced fallback of compactLocked together. */
  method ChooseGroups(groups: seq<Group>, cost: Message -> nat, remaining: nat, forced: bool, recent: nat, stops: nat -> bool)
    returns (cancelled: bool, selected: seq<Message>, dropped: seq<Group>, flags: seq<bool>)
    requires recent > 0 && NonEmpty(groups)
    ensures cancelled <==> exists i: nat :: 0 < i <= |groups| && stops(i)
    ensures !cancelled ==>
      && |flags| == |groups| && (groups != [] ==> flags[|flags| - 1]) && KeptWithin(cost, groups, flags, remaining)
      && selected == Flatten(Pick(groups, flags)) && dropped == Pick(groups, Negate(flags))
      && ChoiceMade(cost, groups, flags, remaining, forced, recent)
  {
    hide Total, Greedy, NewestCost;
    cancelled, selected, dropped, flags := SelectGroups(groups, cost, remaining, stops);
    if cancelled { return; }
    if forced && dropped == [] && |groups| > recent {
      var from := |groups| - recent;
      NothingDropped(groups, flags);
      SuffixIsCheaper(cost, groups, from);
      PickSuffix(groups, from);
      PickPrefix(groups, from);
      dropped := groups[..from];
      selected := Flatten(groups[from..]);
      flags := SuffixFlags(|groups|, from);
    }
    if dropped == [] && selected == [] { dropped := groups; }
  }

  // Making the candidate fit.

  function Pricing(cost: Message -> nat): Estimator {
    msgs => Total(cost, msgs)
  }

  predicate Marked(msgs: seq<Message>) {
    exists i :: 0 <= i < |msgs| && msgs[i].IsSummary()
  }

  predicate NoTools(msgs: seq<Message>) {
    forall i :: 0 <= i < |msgs| ==> msgs[i].role != Tool
  }

  /**
   * What becomes of a candidate under a hard limit: text is cut, and the summaries are given up exactly when
   * even that did not make it fit and there are any. A limit of zero is none.
   */
  ghost predicate Fitted(cost: Message -> nat, limit: nat, candidate: seq<Message>, trimmed: seq<Message>, removed: bool, result: seq<Message>) {
    && TextCut(candidate, trimmed)
    && (limit == 0 || Total(cost, candidate) <= limit ==> trimmed == candidate)
    && (NoTools(candidate) && LedByBlank(candidate) ==> trimmed == candidate)
    && (removed <==> limit > 0 && Total(cost, trimmed) > limit && Marked(trimmed))
    && (removed ==> ToolsEmpty(trimmed) && LedByBlank(trimmed))
    && (if removed then OnlyToolText(RemoveSummaries(trimmed), result) else result == trimmed)
    && (removed && Total(cost, RemoveSummaries(trimmed)) <= limit ==> result == RemoveSummaries(trimmed))
    && (limit > 0 && Total(cost, result) > limit ==> ToolsEmpty(result))
  }

  /**
   * The last part of compactLocked: cut tool output, then summary text, and give up the summaries
   * as the last resort. `trimmed` is the list before any summary was removed.
   */
  method FitToHardLimit(candidate: seq<Message>, cost: Message -> nat, hardLimit: nat)
    returns (result: seq<Message>, ghost trimmed: seq<Message>, ghost removed: bool)
    requires hardLimit > 0
    ensures Fitted(cost, hardLimit, candidate, trimmed, removed, result)
    ensures Total(cost, candidate) <= hardLimit ==> result == candidate
    ensures Total(cost, result) > hardLimit ==> ToolsEmpty(result)
  {
    hide HasMarker, SplitSummary, Total, RemoveSummaries, LedByBlank;
    result, removed := candidate, false;
    var fits := true;
    if Pricing(cost)(result) > hardLimit {
      result, fits := TrimToolMessages(result, Pricing(cost), hardLimit);
    }
    ghost var toolsCut := result;
    NoToolsCut(candidate, toolsCut);
    if Pricing(cost)(result) > hardLimit {
      result, fits := TrimCompactionSummary(result, Pricing(cost), hardLimit);
    }
    trimmed := result;
    CutsCompose(candidate, toolsCut, trimmed);
    if Pricing(cost)(result) > hardLimit && exists i :: 0 <= i < |result| && result[i].IsSummary() {
      result := RemoveCompactionSummary(result);
      removed := true;
      result, fits := TrimToolMessages(result, Pricing(cost), hardLimit);
    }
  }

  /** However the candidate is made to fit, pairing and anchor come through. */
  lemma {:induction false} FittedStaysGood(candidate: seq<Message>, trimmed: seq<Message>, removed: bool,
                                           result: seq<Message>, ids: multiset<string>)
    requires Good(candidate, ids) && TextCut(candidate, trimmed) && (removed ==> StableAnchor(candidate))
    requires if removed then OnlyToolText(RemoveSummaries(trimmed), result) else result == trimmed
    ensures Good(result, ids)
    ensures SystemCount(candidate) <= |result| && result[..SystemCount(candidate)] == candidate[..SystemCount(candidate)]
    ensures !removed ==> SystemCount(result) == SystemCount(candidate) && |result| == |candidate|
    ensures PlainAnchor(candidate) ==> PlainAnchor(result)
    ensures StableAnchor(candidate) ==> AnchorHeld(candidate, result)
  {
    hide HasMarker, SplitSummary, RemoveSummaries, StableAnchor, Good, PlainAnchor;
    TextCutKeepsGood(candidate, trimmed, ids);
    if removed {
      var bare := RemoveSummaries(trimmed);
      RemoveKeepsGood(trimmed, ids);
      ToolTextIsTextCut(bare, result);
      TextCutKeepsGood(bare, result, ids);
    }
  }

  lemma NoToolsCut(a: seq<Message>, b: seq<Message>)
    requires OnlyToolText(a, b)
    ensures NoTools(a) ==> b == a
  {
  }

  lemma {:induction false} ToolTextIsTextCut(a: seq<Message>, b: seq<Message>)
    requires OnlyToolText(a, b)
    ensures TextCut(a, b)
  {
  }

  // Summary text for dropped groups.

  function Names(calls: seq<ToolCall>): string {
    if calls == [] then ""
    else if |calls| == 1 then calls[0].name
    else calls[0].name + ", " + Names(calls[1..])
  }

  function MessageLines(m: Message): seq<string> {
    if m.calls != [] then ["assistant requested tools: " + Names(m.calls)]
    else
      var content := Trim(m.content);
      if content == "" then []
      else if m.role == User then ["user: " + content]
      else [RoleName(m.role) + ": " + Truncate(content, 500)]
  }

  function AllLines(msgs: seq<Message>): seq<string> {
    if msgs == [] then [] else MessageLines(msgs[0]) + AllLines(msgs[1..])
  }

  /** buildContextSummary without a length limit, as compactLocked calls it. */
  function BuildSummary(groups: seq<Group>): string {
    JoinLines(AllLines(Flatten(groups)))
  }

  /** The listing names every tool that was asked for, and holds every word a user said. */
  lemma {:induction false} ListingTells(groups: seq<Group>, m: Message)
    requires m in Flatten(groups)
    ensures m.calls == [] && m.role == User && Trim(m.content) != "" ==> Holds(BuildSummary(groups), "user: " + Trim(m.content))
    ensures m.calls != [] ==> forall call :: call in m.calls ==> Holds(BuildSummary(groups), call.name)
    ensures m.calls == [] && m.role != User && Trim(m.content) != "" ==>
      Holds(BuildSummary(groups), RoleName(m.role) + ": " + Truncate(Trim(m.content), 500))
  {
    hide Trim, RoleName, Truncate;
    forall line | line in MessageLines(m) ensures Holds(BuildSummary(groups), line) {
      LineListed(Flatten(groups), m, line);
      LineJoined(AllLines(Flatten(groups)), line);
    }
    if m.calls != [] {
      var line := "assistant requested tools: " + Names(m.calls);
      assert MessageLines(m) == [line];
      forall call | call in m.calls ensures Holds(BuildSummary(groups), call.name) {
        NameListed(m.calls, call);
        HoldsBehind("assistant requested tools: ", Names(m.calls), call.name);
        HoldsThrough(BuildSummary(groups), line, call.name);
      }
    } else if Trim(m.content) != "" {
      assert MessageLines(m)[0] in MessageLines(m);
    }
  }

  ghost predicate Holds(text: string, part: string) {
    exists i: nat :: OccursAt(text, part, i)
  }

  lemma HoldsBehind(front: string, text: string, part: string)
    requires Holds(text, part)
    ensures Holds(front + text, part)
  {
    var i: nat :| OccursAt(text, part, i);
    assert (front + text)[|front| + i..|front| + i + |part|] == text[i..i + |part|];
    assert OccursAt(front + text, part, |front| + i);
  }

  lemma HoldsBefore(text: string, end: string, part: string)
    requires Holds(text, part)
    ensures Holds(text + end, part)
  {
    var i: nat :| OccursAt(text, part, i);
    assert (text + end)[i..i + |part|] == text[i..i + |part|];
    assert OccursAt(text + end, part, i);
  }

  lemma HoldsThrough(text: string, middle: string, part: string)
    requires Holds(text, middle) && Holds(middle, part)
    ensures Holds(text, part)
  {
    var i: nat :| OccursAt(text, middle, i);
    assert text == text[..i] + middle + text[i + |middle|..];
    HoldsBehind(text[..i], middle, part);
    HoldsBefore(text[..i] + middle, text[i + |middle|..], part);
  }

  lemma HoldsItself(text: string)
    ensures Holds(text, text)
  {
    assert OccursAt(text, text, 0);
  }

  lemma {:induction false} NameListed(calls: seq<ToolCall>, call: ToolCall)
    requires call in calls
    ensures Holds(Names(calls), call.name)
  {
    HoldsItself(call.name);
    if |calls| > 1 {
      if call == calls[0] {
        HoldsBefore(call.name, ", " + Names(calls[1..]), call.name);
        assert Names(calls) == call.name + (", " + Names(calls[1..]));
      } else {
        NameListed(calls[1..], call);
        HoldsBehind(calls[0].name + ", ", Names(calls[1..]), call.name);
      }
    }
  }

  lemma {:induction false} LineListed(msgs: seq<Message>, m: Message, line: string)
    requires m in msgs && line in MessageLines(m)
    ensures line in AllLines(msgs)
  {
    hide MessageLines;
    if m != msgs[0] { LineListed(msgs[1..], m, line); }
  }

  lemma {:induction false} LineJoined(lines: seq<string>, line: string)
    requires line in lines
    ensures Holds(JoinLines(lines), line)
  {
    HoldsItself(line);
    if |lines| > 1 {
      if line == lines[0] {
        HoldsBefore(line, "\n" + JoinLines(lines[1..]), line);
        assert JoinLines(lines) == line + ("\n" + JoinLines(lines[1..]));
      } else {
        LineJoined(lines[1..], line);
        HoldsBehind(lines[0] + "\n", JoinLines(lines[1..]), line);
      }
    }
  }

  /** The merged summary begins with the earlier one and ends with the new text, as long as they fit into 16000 characters. */
  lemma MergeKeepsBoth(existing: string, next: string)
    requires |Trim(existing)| + 1 + |Trim(next)| <= 16000
    ensures var merged, e, n := MergeSummary(existing, next), Trim(existing), Trim(next);
            && e <= merged && |merged| >= |n| && merged[|merged| - |n|..] == n
            && |merged| == |e| + |n| + if e != "" && n != "" then 1 else 0
  {
    hide Trim;
  }

  /** A message built from any piece of summary text may stand between anchor and groups. */
  lemma {:induction false} SummaryPieceInSlot(part: string)
    ensures SummarySlot([SummaryMessage(part)])
  {
    hide MARKER, PREAMBLE;
    if Trim(part) == "" {
      MarkerStart();
      assert AppendSummary("", part) == "" && !HasMarker("");
    } else {
      AppendedSummaryNotBlank("", part);
    }
  }

  // Text of incoming messages.

  function Controllable(msgs: seq<Message>): seq<Message> {
    if msgs == [] then []
    else (if msgs[0].injected then [] else [msgs[0]]) + Controllable(msgs[1..])
  }

  lemma {:induction false} ControllableIsCheaper(cost: Message -> nat, msgs: seq<Message>)
    ensures Total(cost, Controllable(msgs)) <= Total(cost, msgs)
    decreases msgs
  {
    if msgs != [] {
      ControllableIsCheaper(cost, msgs[1..]);
      TotalConcat(cost, if msgs[0].injected then [] else [msgs[0]], Controllable(msgs[1..]));
      assert [msgs[0]][1..] == [];
    }
  }

  function StoredMessage(m: Message, config: ValidConfig): (r: Message)
    ensures SameShape(m, r) && (m.role != Tool ==> r == m)
  {
    if m.role == Tool then m.WithContent(Text.Truncate(m.content, config.ToolOutputChars())) else m
  }

  function StoredMessages(msgs: seq<Message>, config: ValidConfig): (r: seq<Message>)
    ensures SameShapes(msgs, r)
  {
    seq(|msgs|, i requires 0 <= i < |msgs| => StoredMessage(msgs[i], config))
  }

  /** A message the loop may append to a context. */
  predicate MayFollow(msgs: seq<Message>, m: Message) {
    && (m.injected ==> !m.IsCaller())
    && (HasAnchor(msgs) || m.role == System || !m.IsCaller())
  }

  /** A message that leaves a plain anchor, or becomes one. */
  predicate StaysPlain(msgs: seq<Message>, m: Message) {
    PlainAnchor(msgs) && (HasAnchor(msgs) || m.role == System || !BlankMarked(m))
  }

  lemma {:induction false} AppendedStaysGood(msgs: seq<Message>, m: Message, before: multiset<string>, after: multiset<string>)
    requires Good(msgs, before) && Step(Owed(before), m) == Owed(after) && MayFollow(msgs, m)
    ensures Good(msgs + [m], after)
    ensures HasAnchor(msgs) || m.role != System ==> HasAnchor(msgs + [m])
    ensures StaysPlain(msgs, m) ==> PlainAnchor(msgs + [m])
  {
    hide HasMarker, SplitSummary, BlankMarked;
    var list, n := msgs + [m], SystemCount(msgs);
    ScanAppend(CLEAR, msgs, m);
    QuietConcat(msgs, [m]);
    if HasAnchor(msgs) || m.role != System {
      SystemCountIs(list, n);
      assert HasAnchor(msgs) ==> list[n] == msgs[n];
    } else {
      SystemCountIs(list, |list|);
    }
  }

  /** The compaction gives up the summaries, and with them an anchor that is an empty one. */
  predicate Unanchors(before: seq<Message>, plan: Plan) {
    plan.Plan? && plan.removed && !PlainAnchor(before)
  }

  /** One compaction, whatever it dropped and cut, keeps the context good, unless it takes its anchor away. */
  lemma {:induction false} CompactedStaysGood(config: ValidConfig, before: seq<Message>, after: seq<Message>, plan: Plan, ids: multiset<string>)
    requires Good(before, ids) && Compacted(config, before, after, plan) && !Unanchors(before, plan)
    ensures Good(after, ids) && (PlainAnchor(before) ==> PlainAnchor(after))
    ensures HasAnchor(before) ==>
      var n := SystemCount(before);
      HasAnchor(after) && SystemCount(after) == n && after[..n] == before[..n]
      && (PlainAnchor(before) && plan.Plan? ==> after[n] == StripAnchor(before[n]))
  {
    hide HasMarker, SplitSummary, SplitLayers, MicroGroups, RemoveSummaries, Rebuild, TextCut, OnlyToolText, SummarySlot, SlotFor,
      BlankMarked;
    if plan.Plan? {
      var layers := SplitLayers(before);
      var body := Flatten(Pick(plan.groups, plan.flags));
      CandidateStaysGood(config, before, after, plan, ids);
      RebuiltAnchored(before, plan.slot, body);
      FittedStaysGood(plan.candidate, plan.trimmed, plan.removed, after, ids);
      if HasAnchor(before) { StrippedAnchorIsPlain(before[SystemCount(before)]); }
    }
  }

  lemma {:induction false} CandidateStaysGood(config: ValidConfig, before: seq<Message>, after: seq<Message>, plan: Plan, ids: multiset<string>)
    requires Good(before, ids) && Compacted(config, before, after, plan) && plan.Plan?
    ensures Good(plan.candidate, ids) && (HasAnchor(before) || Pick(plan.groups, plan.flags) == [])
    ensures PlainAnchor(before) ==> PlainAnchor(plan.candidate) && StableAnchor(plan.candidate)
  {
    hide HasMarker, SplitSummary, SplitLayers, MicroGroups, RemoveSummaries, Rebuild, TextCut, OnlyToolText, SummarySlot, SlotFor,
      StableAnchor, PlainAnchor;
    var layers := SplitLayers(before);
    var body := Flatten(Pick(plan.groups, plan.flags));
    LayersOwe(before, ids);
    RewrittenGroupsOwe(layers.groups, plan.groups, ids);
    PickOwes(plan.groups, plan.flags, ids);
    KeptGroupsQuiet(before, plan.groups, plan.flags);
    NoAnchorNoGroups(before);
    if !HasAnchor(before) { assert body == []; }
    RebuiltGood(before, ids, plan.slot, body);
  }

  lemma NoAnchorNoGroups(msgs: seq<Message>)
    ensures !HasAnchor(msgs) ==> SplitLayers(msgs).groups == []
  {
    hide HasMarker, SplitSummary;
  }

  lemma {:induction false} FlattenedQuiet(groups: seq<Group>, flags: seq<bool>)
    requires |groups| == |flags| && forall i :: 0 <= i < |groups| ==> Quiet(groups[i])
    ensures Quiet(Flatten(Pick(groups, flags)))
    decreases groups
  {
    if groups != [] {
      forall i | 0 <= i < |groups| - 1 ensures Quiet(groups[1..][i]) { assert groups[1..][i] == groups[i + 1]; }
      FlattenedQuiet(groups[1..], flags[1..]);
      var tail := Pick(groups[1..], flags[1..]);
      if flags[0] {
        FlattenCons(groups[0], tail);
        QuietConcat(groups[0], Flatten(tail));
      } else {
        assert [] + tail == tail;
      }
    }
  }

  lemma {:induction false} HistoryQuiet(msgs: seq<Message>)
    requires Quiet(msgs)
    ensures forall i :: 0 <= i < |HistoryGroups(msgs)| ==> Quiet(HistoryGroups(msgs)[i])
    decreases msgs
  {
    hide HasMarker;
    if msgs != [] {
      var n := if msgs[0].IsSummary() then 1 else GroupLength(msgs);
      assert msgs == msgs[..n] + msgs[n..];
      QuietConcat(msgs[..n], msgs[n..]);
      HistoryQuiet(msgs[n..]);
      var tail := HistoryGroups(msgs[n..]);
      assert HistoryGroups(msgs) == (if msgs[0].IsSummary() then [] else [msgs[..n]]) + tail;
    }
  }

  lemma {:induction false} KeptGroupsQuiet(msgs: seq<Message>, groups: seq<Group>, flags: seq<bool>)
    requires Quiet(msgs) && SameGroupShapes(SplitLayers(msgs).groups, groups) && |groups| == |flags|
    ensures Quiet(Flatten(Pick(groups, flags)))
  {
    hide HasMarker, SplitSummary;
    var k := AnchorEnd(msgs);
    assert msgs == msgs[..k] + msgs[k..];
    QuietConcat(msgs[..k], msgs[k..]);
    HistoryQuiet(msgs[k..]);
    var original := SplitLayers(msgs).groups;
    forall i | 0 <= i < |groups| ensures Quiet(groups[i]) {
      QuietSameShapes(original[i], groups[i]);
    }
    FlattenedQuiet(groups, flags);
  }

  // The manager.

  /** What a compaction did: the groups it saw, the choice it made and the list it built from it. */
  datatype Plan = NoPlan | Plan(
    groups: seq<Group>, flags: seq<bool>, next: string, slot: seq<Message>,
    candidate: seq<Message>, trimmed: seq<Message>, removed: bool)

  /**
   * The slot of a compaction: a non-empty prefix of the earlier summary merged with `next`, or nothing;
   * `next` is the compactor's text, or the listing of the dropped groups.
   */
  ghost predicate SlotFor(existing: string, dropped: seq<Group>, next: string, slot: seq<Message>) {
    && (next == BuildSummary(dropped) || !Blank(next))
    && (slot == [] || exists n :: 1 <= n <= |MergeSummary(existing, next)|
                                  && slot == [SummaryMessage(MergeSummary(existing, next)[..n])])
  }

  /**
   * The summary of a compaction is the longest piece of the merged text that fits beside the prefix, and there is none
   * only if there is no text or not even its first character fits; for costs that grow with the text.
   */
  ghost predicate BestSlot(cost: Message -> nat, prefix: seq<Message>, budget: int, merged: string, slot: seq<Message>) {
    if slot == [] then
      merged == "" || (MonotoneInSummary(Pricing(cost), prefix, merged) ==> NoneFits(cost, prefix, budget, merged, 0))
    else exists n: nat :: BestPiece(cost, prefix, budget, merged, slot, n)
  }

  /** No piece longer than `n` fits. */
  ghost predicate NoneFits(cost: Message -> nat, prefix: seq<Message>, budget: int, merged: string, n: nat) {
    forall k :: n < k <= |merged| ==> !PrefixFits(merged, prefix, Pricing(cost), budget, k)
  }

  ghost predicate BestPiece(cost: Message -> nat, prefix: seq<Message>, budget: int, merged: string, slot: seq<Message>, n: nat) {
    && 1 <= n <= |merged| && slot == [SummaryMessage(merged[..n])]
    && PrefixFits(merged, prefix, Pricing(cost), budget, n)
    && (MonotoneInSummary(Pricing(cost), prefix, merged) ==> NoneFits(cost, prefix, budget, merged, n))
  }

  lemma NoTextNoSlot(cost: Message -> nat, prefix: seq<Message>, budget: int)
    ensures BestSlot(cost, prefix, budget, "", [])
  {
  }

  lemma PieceIsBest(cost: Message -> nat, prefix: seq<Message>, budget: int, merged: string, slot: seq<Message>, n: nat)
    requires slot == [] || (1 <= n <= |merged| && slot == [SummaryMessage(merged[..n])] && PrefixFits(merged, prefix, Pricing(cost), budget, n))
    requires MonotoneInSummary(Pricing(cost), prefix, merged) ==>
      forall k :: (if slot == [] then 1 else n + 1) <= k <= |merged| ==> !PrefixFits(merged, prefix, Pricing(cost), budget, k)
    ensures BestSlot(cost, prefix, budget, merged, slot)
  {
    hide PrefixFits, MonotoneInSummary;
    if slot != [] { assert BestPiece(cost, prefix, budget, merged, slot, n); }
  }

  lemma BestSlotFits(cost: Message -> nat, prefix: seq<Message>, budget: int, merged: string, slot: seq<Message>)
    requires BestSlot(cost, prefix, budget, merged, slot)
    ensures slot != [] ==> Total(cost, prefix + slot) <= budget
  {
  }

  lemma MergedIsNotBlank(existing: string, next: string)
    ensures MergeSummary(existing, next) != "" ==> !Blank(MergeSummary(existing, next))
  {
    hide Trim;
    MergeSummaryTrimmed(existing, next);
    TrimmedIffTrimKeeps(MergeSummary(existing, next));
  }

  /**
   * With the default estimator no compaction drops history without an account of it, unless not even one character
   * fits; and where the whole text fits, all of it is there.
   */
  lemma {:induction false} HistoryIsTold(config: ValidConfig, callTokens: seq<ToolCall> -> nat, toolTokens: nat, forced: bool,
                                         before: seq<Message>, after: seq<Message>, plan: Plan, err: ContextError)
    requires Outcome(config, m => MessageTokens(m, callTokens), toolTokens, forced, before, after, plan, err) && plan.Plan?
    ensures var layers := SplitLayers(before);
            var prefix, merged := layers.system + layers.anchor, MergeSummary(layers.summary, plan.next);
            var estimator := Pricing(m => MessageTokens(m, callTokens));
            var budget := SummaryBudget(config, toolTokens);
            && (plan.slot == [] <==> merged == "" || !PrefixFits(merged, prefix, estimator, budget, 1))
            && (merged != "" && PrefixFits(merged, prefix, estimator, budget, |merged|) ==> plan.slot == [SummaryMessage(merged)])
  {
    hide SplitLayers, MergeSummary, SummaryBudget, MessageTokens, Outcome, PrefixFits, BestSlot;
    var layers := SplitLayers(before);
    var prefix, merged := layers.system + layers.anchor, MergeSummary(layers.summary, plan.next);
    var cost: Message -> nat := m => MessageTokens(m, callTokens);
    OutcomeIsBest(config, cost, toolTokens, forced, before, after, plan, err);
    DefaultCostIsMonotone(callTokens, prefix, merged);
    BestIsTold(cost, prefix, SummaryBudget(config, toolTokens), merged, plan.slot);
  }

  lemma OutcomeIsBest(config: ValidConfig, cost: Message -> nat, toolTokens: nat, forced: bool, before: seq<Message>, after: seq<Message>,
                      plan: Plan, err: ContextError)
    requires Outcome(config, cost, toolTokens, forced, before, after, plan, err) && plan.Plan?
    ensures var layers := SplitLayers(before);
            BestSlot(cost, layers.system + layers.anchor, SummaryBudget(config, toolTokens), MergeSummary(layers.summary, plan.next), plan.slot)
  {
    hide SplitLayers, MergeSummary, Compacted, Fitted, KeptWithin, ChoiceMade, SummaryBudget, BestSlot, Total;
  }

  lemma BestIsTold(cost: Message -> nat, prefix: seq<Message>, budget: int, merged: string, slot: seq<Message>)
    requires BestSlot(cost, prefix, budget, merged, slot) && MonotoneInSummary(Pricing(cost), prefix, merged)
    ensures slot == [] <==> merged == "" || !PrefixFits(merged, prefix, Pricing(cost), budget, 1)
    ensures merged != "" && PrefixFits(merged, prefix, Pricing(cost), budget, |merged|) ==> slot == [SummaryMessage(merged)]
  {
    hide PrefixFits, MonotoneInSummary, SummaryMessage;
    if slot != [] {
      var n: nat :| BestPiece(cost, prefix, budget, merged, slot, n);
      ShorterFits(cost, prefix, budget, merged, n);
      assert n == |merged| ==> merged[..n] == merged;
    }
  }

  lemma DefaultCostIsMonotone(callTokens: seq<ToolCall> -> nat, prefix: seq<Message>, merged: string)
    ensures MonotoneInSummary(Pricing(m => MessageTokens(m, callTokens)), prefix, merged)
  {
    hide MessageTokens, Total;
    var cost: Message -> nat := m => MessageTokens(m, callTokens);
    DefaultEstimatorMonotone(callTokens, prefix, merged);
    forall i, j {:trigger merged[..i], merged[..j]} | 0 <= i <= j <= |merged|
      ensures Pricing(cost)(prefix + [SummaryMessage(merged[..i])]) <= Pricing(cost)(prefix + [SummaryMessage(merged[..j])])
    {
      assert (msgs => Total(m => MessageTokens(m, callTokens), msgs))(prefix + [SummaryMessage(merged[..i])])
          <= (msgs => Total(m => MessageTokens(m, callTokens), msgs))(prefix + [SummaryMessage(merged[..j])]);
    }
  }

  lemma ShorterFits(cost: Message -> nat, prefix: seq<Message>, budget: int, merged: string, n: nat)
    requires 1 <= n <= |merged| && MonotoneInSummary(Pricing(cost), prefix, merged) && PrefixFits(merged, prefix, Pricing(cost), budget, n)
    ensures PrefixFits(merged, prefix, Pricing(cost), budget, 1)
  {
    assert merged[..1] == merged[..1] && merged[..n] == merged[..n];
  }

  lemma EmptySlot()
    ensures SummarySlot([])
  {
  }

  /** What one compaction does to the context. */
  ghost predicate Compacted(config: ValidConfig, before: seq<Message>, after: seq<Message>, plan: Plan) {
    if plan.NoPlan? then after == before
    else
      var layers := SplitLayers(before);
      && plan.groups == MicroGroups(layers.groups, |layers.groups| - config.recentMessageGroups, config)
      && |plan.flags| == |plan.groups| && (plan.groups != [] ==> plan.flags[|plan.flags| - 1])
      && SummarySlot(plan.slot)
      && SlotFor(layers.summary, Pick(plan.groups, Negate(plan.flags)), plan.next, plan.slot)
      && plan.candidate == Rebuild(layers, plan.slot, Flatten(Pick(plan.groups, plan.flags)))
      && TextCut(plan.candidate, plan.trimmed)
      && (if plan.removed then OnlyToolText(RemoveSummaries(plan.trimmed), after) else after == plan.trimmed)
  }

  // Limits.

  function Target(config: ValidConfig): int {
    if config.TargetLimit() > 0 then config.TargetLimit()
    else if config.CompactionLimit() > 0 then config.CompactionLimit()
    else config.HardLimit()
  }

  /** The tokens a compaction leaves for message groups. */
  function Remaining(config: ValidConfig, cost: Message -> nat, toolTokens: nat, prefix: seq<Message>): nat {
    Max(0, Target(config) - Total(cost, prefix) - toolTokens)
  }

  /** The tokens that prefix and summary may take; without a target there is a fixed budget. */
  function SummaryBudget(config: ValidConfig, toolTokens: nat): int {
    if Target(config) - toolTokens <= 0 then 4096 else Target(config) - toolTokens
  }

  /** What the hard limit leaves for messages; zero stands for no limit at all. */
  function Room(config: ValidConfig, toolTokens: nat): nat {
    Max(0, config.HardLimit() - toolTokens)
  }

  predicate Needs(config: ValidConfig, tokens: int) {
    config.CompactionLimit() > 0 && tokens > config.CompactionLimit()
  }

  predicate Exceeds(config: ValidConfig, cost: Message -> nat, toolTokens: nat, msgs: seq<Message>) {
    config.HardLimit() > 0 && Total(cost, Controllable(msgs)) + toolTokens > config.HardLimit()
  }

  function LimitError(config: ValidConfig, cost: Message -> nat, toolTokens: nat, msgs: seq<Message>): ContextError {
    if Exceeds(config, cost, toolTokens, msgs) then ContextLimit else NoError
  }

  ghost predicate Chosen(config: ValidConfig, cost: Message -> nat, toolTokens: nat, forced: bool, before: seq<Message>, plan: Plan)
    requires plan.Plan? && |plan.flags| == |plan.groups|
  {
    var layers := SplitLayers(before);
    var prefix := layers.system + layers.anchor;
    var remaining := Remaining(config, cost, toolTokens, prefix);
    && KeptWithin(cost, plan.groups, plan.flags, remaining)
    && ChoiceMade(cost, plan.groups, plan.flags, remaining, forced, config.recentMessageGroups)
    && BestSlot(cost, prefix, SummaryBudget(config, toolTokens), MergeSummary(layers.summary, plan.next), plan.slot)
  }

  ghost predicate Outcome(config: ValidConfig, cost: Message -> nat, toolTokens: nat, forced: bool,
                          before: seq<Message>, after: seq<Message>, plan: Plan, err: ContextError)
  {
    && Compacted(config, before, after, plan)
    && (plan.Plan? <==> err != Cancelled && (forced || Needs(config, Total(cost, before) + toolTokens)))
    && (err != Cancelled ==> err == LimitError(config, cost, toolTokens, after))
    && (plan.Plan? ==>
          && Chosen(config, cost, toolTokens, forced, before, plan)
          && Fitted(cost, Room(config, toolTokens), plan.candidate, plan.trimmed, plan.removed, after))
  }

  /** What appending a message comes to: the message as stored, then microcompaction, then a compaction if one is due. */
  ghost predicate Appended(config: ValidConfig, cost: Message -> nat, toolTokens: nat, ever: bool, before: seq<Message>, m: Message,
                           after: seq<Message>, plan: Plan, err: ContextError)
  {
    exists micro ::
      MicroStep(config, ever, before + [StoredMessage(m, config)], micro) && Outcome(config, cost, toolTokens, false, micro, after, plan, err)
  }

  /** The context is put together anew once older output was ever shortened, now or before. */
  ghost predicate MicroStep(config: ValidConfig, ever: bool, before: seq<Message>, after: seq<Message>) {
    var groups := SplitLayers(before).groups;
    var n := |groups| - config.recentMessageGroups;
    after == if n <= 0 || (!ever && MicroGroups(groups, n, config) == groups) then before else Microcompacted(config, before)
  }

  lemma FittedShape(cost: Message -> nat, limit: nat, candidate: seq<Message>, trimmed: seq<Message>, removed: bool, result: seq<Message>)
    requires Fitted(cost, limit, candidate, trimmed, removed, result)
    ensures TextCut(candidate, trimmed) && if removed then OnlyToolText(RemoveSummaries(trimmed), result) else result == trimmed
  {
  }

  /** The schemas leave no room under the hard limit, or there is none: then no compaction gives up the summaries. */
  predicate KeepsSummaries(config: ValidConfig, toolTokens: nat) {
    config.HardLimit() <= toolTokens
  }

  lemma RemovedUnderLimit(cost: Message -> nat, limit: nat, plan: Plan, result: seq<Message>)
    requires plan.Plan? && Fitted(cost, limit, plan.candidate, plan.trimmed, plan.removed, result)
    ensures plan.removed ==> limit > 0
  {
  }

  lemma NoLimitFits(cost: Message -> nat, candidate: seq<Message>)
    ensures Fitted(cost, 0, candidate, candidate, false, candidate)
  {
    NothingCut(candidate);
  }

  lemma NothingCompacted(config: ValidConfig, msgs: seq<Message>)
    ensures Compacted(config, msgs, msgs, NoPlan)
  {
  }

  /** The text a compaction adds: the compactor's, or a listing of what is dropped where it fails or says nothing. */
  predicate Tells(proposal: Option<string>, dropped: seq<Group>, next: string) {
    match proposal
    case Some(text) => next == if Blank(text) then BuildSummary(dropped) else text
    case None => next == BuildSummary(dropped)
  }

  predicate PlanTells(compactor: seq<Group> -> Option<string>, plan: Plan) {
    plan.Plan? && |plan.flags| == |plan.groups| ==>
      Tells(compactor(Pick(plan.groups, Negate(plan.flags))), Pick(plan.groups, Negate(plan.flags)), plan.next)
  }

  class MessageContextManager {
    const config: ValidConfig
    const cost: Message -> nat
    const toolTokens: nat
    const compactor: seq<Group> -> Option<string>
    var canonical: seq<Message>
    var active: seq<Message>
    var compactions: nat
    var microcompacts: nat
    ghost var removals: nat
    ghost var cancelled: bool

    constructor (config: Config, cost: Message -> nat, toolTokens: nat, compactor: seq<Group> -> Option<string>)
      ensures this.config == config.WithDefaults() && this.cost == cost && this.toolTokens == toolTokens && this.compactor == compactor
      ensures canonical == [] && active == [] && removals == 0 && !cancelled
    {
      this.config := config.WithDefaults();
      this.cost := cost;
      this.toolTokens := toolTokens;
      this.compactor := compactor;
      cancelled := false;
      canonical, active, compactions, microcompacts := [], [], 0, 0;
      removals := 0;
    }

    function EstimateTokens(): nat
      reads this
    {
      Total(cost, active) + toolTokens
    }

    predicate NeedsCompaction()
      reads this
    {
      Needs(config, EstimateTokens())
    }

    /** exceedsHardLimitLocked: what the harness injected does not count. */
    predicate ExceedsHardLimit()
      reads this
    {
      Exceeds(config, cost, toolTokens, active)
    }

    /** The summary message of a compaction, or nothing when no part of it fits. */
    method SummaryFor(existing: string, dropped: seq<Group>, prefix: seq<Message>) returns (next: string, slot: seq<Message>)
      ensures Tells(compactor(dropped), dropped, next)
      ensures SummarySlot(slot) && SlotFor(existing, dropped, next, slot)
      ensures BestSlot(cost, prefix, SummaryBudget(config, toolTokens), MergeSummary(existing, next), slot)
    {
      hide Total, BuildSummary, MergeSummary, SummarySlot, AppendSummary, MonotoneInSummary, Trim, PrefixFits, BestSlot;
      NoTextNoSlot(cost, prefix, SummaryBudget(config, toolTokens));
      var proposal := compactor(dropped);
      next := if proposal.None? || Blank(proposal.value) then BuildSummary(dropped) else proposal.value;
      var summary := MergeSummary(existing, next);
      slot := [];
      EmptySlot();
      if summary != "" {
        var budget := Target(config) - toolTokens;
        if budget <= 0 { budget := 4096; }
        ghost var length;
        slot, length := FitCompactionSummary(summary, prefix, Pricing(cost), budget);
        MergedIsNotBlank(existing, next);
        PieceIsBest(cost, prefix, budget, summary, slot, length);
        if slot != [] { SummaryPieceInSlot(summary[..length]); }
      }
    }

    /** The list of a compaction: the prefix, a summary of what was dropped and what was selected, made to fit the hard limit. */
    method Assemble(layers: Layers, groups: seq<Group>, ghost flags: seq<bool>, selected: seq<Message>, dropped: seq<Group>)
      returns (result: seq<Message>, ghost plan: Plan)
      requires layers == SplitLayers(active) && |flags| == |groups| && (groups != [] ==> flags[|flags| - 1])
      requires groups == MicroGroups(layers.groups, |layers.groups| - config.recentMessageGroups, config)
      requires selected == Flatten(Pick(groups, flags)) && dropped == Pick(groups, Negate(flags))
      ensures plan.Plan? && plan.groups == groups && plan.flags == flags && Compacted(config, active, result, plan)
      ensures Fitted(cost, Room(config, toolTokens), plan.candidate, plan.trimmed, plan.removed, result)
      ensures BestSlot(cost, layers.system + layers.anchor, SummaryBudget(config, toolTokens), MergeSummary(layers.summary, plan.next), plan.slot)
      ensures Tells(compactor(dropped), dropped, plan.next)
    {
      hide HasMarker, SplitSummary, Total, SplitLayers, MicroGroups, Rebuild, RemoveSummaries, TextCut, OnlyToolText,
        SummarySlot, SlotFor, Flatten, Pick, Fitted, SummaryBudget, BestSlot, MergeSummary, Trim;
      var prefix := layers.system + layers.anchor;
      var next, slot := SummaryFor(layers.summary, dropped, prefix);
      var candidate := prefix + slot + selected;
      RebuildParts(layers, slot, selected);
      ghost var trimmed, removed := candidate, false;
      result := candidate;
      var hardLimit := Room(config, toolTokens);
      if hardLimit > 0 {
        result, trimmed, removed := FitToHardLimit(candidate, cost, hardLimit);
        FittedShape(cost, hardLimit, candidate, trimmed, removed, result);
      } else {
        NothingCut(candidate);
        NoLimitFits(cost, candidate);
      }
      plan := Plan(groups, flags, next, slot, candidate, trimmed, removed);
    }

    /** compactLocked */
    method CompactLocked(forced: bool) returns (err: ContextError, ghost plan: Plan)
      modifies this
      ensures canonical == old(canonical)
      ensures Outcome(config, cost, toolTokens, forced, old(active), active, plan, err)
      ensures compactions == old(compactions) + if plan.Plan? then 1 else 0
      ensures removals == old(removals) + if plan.Plan? && plan.removed then 1 else 0
      ensures KeepsSummaries(config, toolTokens) ==> removals == old(removals)
      ensures microcompacts >= old(microcompacts) && PlanTells(compactor, plan)
      ensures if err == Cancelled then cancelled else cancelled == old(cancelled)
    {
      hide HasMarker, SplitSummary, Total, SplitLayers, MicroGroups, Rebuild, RemoveSummaries, TextCut, OnlyToolText, Greedy, Tells,
        SummarySlot, SlotFor, ToolsEmpty, NewestCost, Flatten, Pick, Controllable, Compacted, Fitted, KeptWithin, ChoiceMade,
        Negate, BestSlot, MergeSummary, SummaryBudget;
      plan := NoPlan;
      NothingCompacted(config, active);
      var stops: nat -> bool := *;
      if stops(0) {
        cancelled := true;
        return Cancelled, plan;
      }
      if !forced && !NeedsCompaction() { return if ExceedsHardLimit() then ContextLimit else NoError, plan; }
      var layers := SplitContextLayers(active);
      GroupsNonEmpty(active, config);
      var groups;
      groups, microcompacts := MicrocompactGroups(layers.groups, |layers.groups| - config.recentMessageGroups, config, microcompacts);
      var stopped, selected, dropped, flags := ChooseGroups(
        groups, cost, Remaining(config, cost, toolTokens, layers.system + layers.anchor), forced, config.recentMessageGroups, stops);
      if stopped {
        cancelled := true;
        return Cancelled, plan;
      }
      var result;
      result, plan := Assemble(layers, groups, flags, selected, dropped);
      active := result;
      compactions := compactions + 1;
      if plan.removed { removals := removals + 1; }
      RemovedUnderLimit(cost, Room(config, toolTokens), plan, result);
      err := if ExceedsHardLimit() then ContextLimit else NoError;
    }

    /** applyMicrocompactLocked */
    method ApplyMicrocompact()
      modifies this
      ensures canonical == old(canonical)
      ensures compactions == old(compactions) && removals == old(removals) && cancelled == old(cancelled)
      ensures MicroStep(config, old(microcompacts) > 0, old(active), active)
      ensures microcompacts >= old(microcompacts)
    {
      hide SplitLayers, MicroGroups, Flatten, SummarySlotFor;
      var layers := SplitContextLayers(active);
      var before := |layers.groups| - config.recentMessageGroups;
      if before <= 0 { return; }
      var groups;
      groups, microcompacts := MicrocompactGroups(layers.groups, before, config, microcompacts);
      if microcompacts == 0 { return; }
      active := layers.system + layers.anchor + SummarySlotFor(layers.summary) + Flatten(groups);
    }

    /**
     * AddMessageContext. `before` and `after` are the calls owed a result before and after the message;
     * they only serve to state what becomes of the pairing.
     */
    method AddMessageContext(message: Message, ghost before: multiset<string>, ghost after: multiset<string>)
      returns (err: ContextError, ghost plan: Plan)
      modifies this
      ensures canonical == old(canonical) + [message]
      ensures Appended(config, cost, toolTokens, old(microcompacts) > 0, old(active), message, active, plan, err)
      ensures removals == old(removals) + if plan.Plan? && plan.removed then 1 else 0
      ensures KeepsSummaries(config, toolTokens) ==> removals == old(removals)
      ensures PlanTells(compactor, plan) && (if err == Cancelled then cancelled else cancelled == old(cancelled))
      ensures compactions == old(compactions) + if plan.Plan? then 1 else 0
      ensures if ExceedsHardLimit() then err != NoError else err != ContextLimit
      ensures err == ContextLimit && toolTokens < config.HardLimit() && config.CompactionLimit() > 0 ==> ToolsEmpty(active)
      ensures Good(old(active), before) && Step(Owed(before), message) == Owed(after) && MayFollow(old(active), message) ==>
        Continued(old(active), message, active, after, removals == old(removals))
    {
      hide HasMarker, SplitSummary, Total, SplitLayers, Microcompacted, Compacted, StoredMessage, Good, MayFollow, HasAnchor,
        Continued, PlainAnchor, ToolsEmpty;
      ghost var start := active;
      canonical := canonical + [message];
      var stored := StoredMessage(message, config);
      active := active + [stored];
      ApplyMicrocompact();
      ghost var micro := active;
      err, plan := NoError, NoPlan;
      NothingCompacted(config, active);
      if NeedsCompaction() { err, plan := CompactLocked(false); }
      if err == NoError && ExceedsHardLimit() { err := ContextLimit; }
      assert MicroStep(config, old(microcompacts) > 0, start + [stored], micro);
      AddedStaysGood(config, start, message, micro, active, plan, before, after);
      LimitLeavesToolsEmpty(config, cost, toolTokens, micro, active, plan, err);
    }

    /** Compact, and CompactForce with `forced`. */
    method Compact(forced: bool, ghost ids: multiset<string>) returns (err: ContextError)
      modifies this
      ensures canonical == old(canonical) && removals >= old(removals)
      ensures KeepsSummaries(config, toolTokens) ==> removals == old(removals)
      ensures if err == Cancelled then cancelled else cancelled == old(cancelled)
      ensures if ExceedsHardLimit() then err != NoError else err != ContextLimit
      ensures compactions == old(compactions) + if err != Cancelled && (forced || old(NeedsCompaction())) then 1 else 0
      ensures exists plan :: Outcome(config, cost, toolTokens, forced, old(active), active, plan, err) && PlanTells(compactor, plan)
      ensures err == ContextLimit && toolTokens < config.HardLimit() && (forced || config.CompactionLimit() > 0) ==> ToolsEmpty(active)
      ensures Good(old(active), ids) && (old(PlainAnchor(active)) || removals == old(removals)) ==>
        Good(active, ids) && (old(HasAnchor(active)) ==> HasAnchor(active)) && (old(PlainAnchor(active)) ==> PlainAnchor(active))
    {
      hide Compacted, Good, HasAnchor, PlainAnchor, KeptWithin, ToolsEmpty, Total;
      ghost var plan;
      err, plan := CompactLocked(forced);
      if Good(old(active), ids) && !Unanchors(old(active), plan) { CompactedStaysGood(config, old(active), active, plan, ids); }
      ControllableIsCheaper(cost, active);
      if !forced { LimitLeavesToolsEmpty(config, cost, toolTokens, old(active), active, plan, err); }
    }

    /** RestoreActive: the context of a checkpoint replaces the active one. */
    method RestoreActive(messages: seq<Message>) returns (err: ContextError)
      modifies this
      ensures canonical == old(canonical) && removals == old(removals) && cancelled == old(cancelled) && compactions == old(compactions)
      ensures active == StoredMessages(messages, config)
      ensures err == if ExceedsHardLimit() then ContextLimit else NoError
    {
      active := [];
      for i := 0 to |messages|
        invariant canonical == old(canonical) && removals == old(removals) && cancelled == old(cancelled) && compactions == old(compactions)
        invariant |active| == i && forall k :: 0 <= k < i ==> active[k] == StoredMessage(messages[k], config)
      {
        active := active + [StoredMessage(messages[i], config)];
      }
      err := if ExceedsHardLimit() then ContextLimit else NoError;
    }
  }

  /** What applyMicrocompactLocked builds. */
  function Microcompacted(config: ValidConfig, msgs: seq<Message>): seq<Message> {
    var layers := SplitLayers(msgs);
    Rebuild(layers, SummarySlotFor(layers.summary),
            Flatten(MicroGroups(layers.groups, |layers.groups| - config.recentMessageGroups, config)))
  }

  lemma {:induction false} PickAll(groups: seq<Group>)
    ensures Pick(groups, SuffixFlags(|groups|, 0)) == groups
  {
    PickSuffix(groups, 0);
    assert groups[0..] == groups;
  }

  /** Rewritten groups owe what the groups of the context owed. */
  lemma {:induction false} RewrittenBody(msgs: seq<Message>, groups: seq<Group>, ids: multiset<string>)
    requires Good(msgs, ids) && SameGroupShapes(SplitLayers(msgs).groups, groups)
    ensures Scan(CLEAR, Flatten(groups)) == Owed(ids) && Quiet(Flatten(groups))
    ensures HasAnchor(msgs) || groups == []
  {
    hide HasMarker, SplitSummary, SplitLayers, Flatten, Pick, Quiet, Scan;
    var flags := SuffixFlags(|groups|, 0);
    LayersOwe(msgs, ids);
    RewrittenGroupsOwe(SplitLayers(msgs).groups, groups, ids);
    PickOwes(groups, flags, ids);
    KeptGroupsQuiet(msgs, groups, flags);
    PickAll(groups);
    NoAnchorNoGroups(msgs);
  }

  lemma {:induction false} MicrocompactedStaysGood(config: ValidConfig, msgs: seq<Message>, ids: multiset<string>)
    requires Good(msgs, ids)
    ensures Good(Microcompacted(config, msgs), ids)
    ensures HasAnchor(msgs) ==> HasAnchor(Microcompacted(config, msgs))
    ensures PlainAnchor(msgs) ==> PlainAnchor(Microcompacted(config, msgs))
  {
    hide HasMarker, SplitSummary, SplitLayers, MicroGroups, Rebuild, SummarySlotFor, SummarySlot, Good, HasAnchor, Quiet, Scan,
      PlainAnchor;
    var layers := SplitLayers(msgs);
    var groups := MicroGroups(layers.groups, |layers.groups| - config.recentMessageGroups, config);
    RewrittenBody(msgs, groups, ids);
    SummaryTrimmed(msgs);
    SlotHoldsSummary(layers.summary, []);
    RebuiltGood(msgs, ids, SummarySlotFor(layers.summary), Flatten(groups));
  }

  lemma {:induction false} StoredIsBlankMarkedAlike(m: Message, config: ValidConfig)
    ensures BlankMarked(StoredMessage(m, config)) <==> BlankMarked(m)
  {
  }

  /** A context that a message continued: it owes what the message made it owe, and has kept its anchor. */
  ghost predicate Continued(before: seq<Message>, m: Message, after: seq<Message>, ids: multiset<string>, unremoved: bool) {
    && (unremoved || StaysPlain(before, m) ==> Good(after, ids) && (HasAnchor(before) || m.role != System ==> HasAnchor(after)))
    && (StaysPlain(before, m) ==> PlainAnchor(after))
  }

  /** Appending, microcompacting and compacting in one go. */
  lemma {:induction false} AddedStaysGood(config: ValidConfig, start: seq<Message>, m: Message, micro: seq<Message>,
                                          end: seq<Message>, plan: Plan, before: multiset<string>, after: multiset<string>)
    requires micro == start + [StoredMessage(m, config)] || micro == Microcompacted(config, start + [StoredMessage(m, config)])
    requires Compacted(config, micro, end, plan)
    ensures Good(start, before) && Step(Owed(before), m) == Owed(after) && MayFollow(start, m) ==>
      Continued(start, m, end, after, !(plan.Plan? && plan.removed))
  {
    hide HasMarker, SplitSummary, Compacted, Microcompacted, StoredMessage, Good, HasAnchor, PlainAnchor, BlankMarked;
    if Good(start, before) && Step(Owed(before), m) == Owed(after) && MayFollow(start, m) {
      var stored := StoredMessage(m, config);
      StoredIsBlankMarkedAlike(m, config);
      assert Step(Owed(before), stored) == Owed(after);
      AppendedStaysGood(start, stored, before, after);
      MicrocompactedStaysGood(config, start + [stored], after);
      if !Unanchors(micro, plan) { CompactedStaysGood(config, micro, end, plan, after); }
    }
  }

  /** With a compaction limit, an unforced error comes only after the tools were emptied. */
  lemma {:induction false} LimitLeavesToolsEmpty(config: ValidConfig, cost: Message -> nat, toolTokens: nat,
                                                 before: seq<Message>, after: seq<Message>, plan: Plan, err: ContextError)
    requires Outcome(config, cost, toolTokens, false, before, after, plan, err)
    ensures config.CompactionLimit() > 0 && toolTokens < config.HardLimit() && err == ContextLimit ==> ToolsEmpty(after)
  {
    hide Total, Controllable, ToolsEmpty;
    ControllableIsCheaper(cost, after);
    CompactionBeforeHardLimit(config);
  }

  // When a limit error means that everything was tried.

  ghost predicate ErrorsLeaveToolsEmpty(config: ValidConfig) {
    forall cost, toolTokens: nat, before, after, plan ::
      toolTokens < config.HardLimit() && Outcome(config, cost, toolTokens, false, before, after, plan, ContextLimit) ==> ToolsEmpty(after)
  }

  ghost predicate AppendErrorsLeaveToolsEmpty(config: ValidConfig) {
    forall cost, toolTokens: nat, ever, before, m, after, plan ::
      toolTokens < config.HardLimit() && Appended(config, cost, toolTokens, ever, before, m, after, plan, ContextLimit) ==> ToolsEmpty(after)
  }

  function LongTool(text: string): seq<Message> {
    [Plain(User, "u"), Message(Assistant, "", [ToolCall("c", "t", "")], "", "", "", false), Message(Tool, text, [], "c", "", "", false)]
  }

  /** Where nothing starts a compaction, a paired context beyond the hard limit is refused with its tool text in place. */
  lemma {:induction false} RefusedUntouched(config: ValidConfig, cost: Message -> nat)
    requires config.HardLimit() > 0 && config.CompactionLimit() == 0 && forall m :: cost(m) == config.HardLimit()
    ensures Paired(LongTool("x")) && !ToolsEmpty(LongTool("x"))
    ensures Outcome(config, cost, 0, false, LongTool("x"), LongTool("x"), NoPlan, ContextLimit)
  {
    var msgs := LongTool("x");
    NothingCompacted(config, msgs);
    assert msgs[2].content != "" && msgs[2].role == Tool;
    AllControllable(msgs);
    assert msgs == [msgs[0]] + msgs[1..] && msgs[1..] == [msgs[1], msgs[2]];
    TotalConcat(cost, [msgs[0]], msgs[1..]);
    TotalConcat(cost, [msgs[1]], [msgs[2]]);
    assert [msgs[0]][1..] == [] && [msgs[1]][1..] == [] && [msgs[2]][1..] == [] && [msgs[1]] + [msgs[2]] == msgs[1..];
    assert msgs[1..][1..] == [msgs[2]];
    assert IdsOf(msgs[1].calls) == ["c"];
  }

  lemma {:induction false} AllControllable(msgs: seq<Message>)
    requires forall i :: 0 <= i < |msgs| ==> !msgs[i].injected
    ensures Controllable(msgs) == msgs
    decreases msgs
  {
    if msgs != [] { AllControllable(msgs[1..]); }
  }

  /** An unforced compaction reports a limit error only with its tools emptied exactly if the configuration has a compaction limit. */
  lemma {:induction false} EmptiedIff(config: ValidConfig)
    requires config.HardLimit() > 0
    ensures ErrorsLeaveToolsEmpty(config) <==> config.CompactionLimit() > 0
  {
    hide Outcome, ToolsEmpty;
    if config.CompactionLimit() > 0 {
      forall cost, toolTokens: nat, before, after, plan |
        toolTokens < config.HardLimit() && Outcome(config, cost, toolTokens, false, before, after, plan, ContextLimit)
        ensures ToolsEmpty(after)
      {
        LimitLeavesToolsEmpty(config, cost, toolTokens, before, after, plan, ContextLimit);
      }
    } else {
      var each: nat := config.HardLimit();
      RefusedUntouched(config, m => each);
    }
  }

  /** A short list has nothing that could be shortened. */
  lemma ShortPassesMicro(config: ValidConfig, msgs: seq<Message>)
    requires msgs == LongTool("x")
    ensures MicroStep(config, false, msgs, msgs)
  {
  }

  lemma AppendErrorEmpties(config: ValidConfig, cost: Message -> nat, toolTokens: nat, ever: bool, before: seq<Message>, m: Message,
                           after: seq<Message>, plan: Plan)
    requires config.CompactionLimit() > 0 && toolTokens < config.HardLimit()
    requires Appended(config, cost, toolTokens, ever, before, m, after, plan, ContextLimit)
    ensures ToolsEmpty(after)
  {
    hide Outcome, ToolsEmpty, MicroStep, StoredMessage;
    var micro :| MicroStep(config, ever, before + [StoredMessage(m, config)], micro)
      && Outcome(config, cost, toolTokens, false, micro, after, plan, ContextLimit);
    LimitLeavesToolsEmpty(config, cost, toolTokens, micro, after, plan, ContextLimit);
  }

  lemma AppendRefused(config: ValidConfig, cost: Message -> nat)
    requires config.HardLimit() > 0 && config.CompactionLimit() == 0 && forall m :: cost(m) == config.HardLimit()
    ensures Appended(config, cost, 0, false, LongTool("x")[..2], LongTool("x")[2], LongTool("x"), NoPlan, ContextLimit)
    ensures !ToolsEmpty(LongTool("x"))
  {
    hide Outcome, ToolsEmpty, MicroStep;
    var msgs := LongTool("x");
    RefusedUntouched(config, cost);
    assert msgs[..2] + [StoredMessage(msgs[2], config)] == msgs;
    ShortPassesMicro(config, msgs);
  }

  /** The same holds of appending a message. */
  lemma {:induction false} AppendEmptiedIff(config: ValidConfig)
    requires config.HardLimit() > 0
    ensures AppendErrorsLeaveToolsEmpty(config) <==> config.CompactionLimit() > 0
  {
    hide Appended, ToolsEmpty;
    if config.CompactionLimit() > 0 {
      forall cost, toolTokens: nat, ever, before, m, after, plan |
        toolTokens < config.HardLimit() && Appended(config, cost, toolTokens, ever, before, m, after, plan, ContextLimit)
        ensures ToolsEmpty(after)
      {
        AppendErrorEmpties(config, cost, toolTokens, ever, before, m, after, plan);
      }
    } else {
      var each: nat := config.HardLimit();
      AppendRefused(config, m => each);
    }
  }

  /** A capacity of two tokens: the compaction limit rounds down to none, the hard limit to one. */
  const NARROW: Config := Config(2, 0.4, 0.4, 0.9, 0.1, 0.1, 0, 8192, 4096, 2)

  lemma NarrowLimits()
    ensures NARROW.Valid() && NARROW.WithDefaults() == NARROW && NARROW.CompactionLimit() == 0 && NARROW.HardLimit() == 1
  {
  }

  /** There an unforced compaction reports the context limit and leaves the tool text in place. */
  method LimitErrorKeepsTools() returns (manager: MessageContextManager, err: ContextError)
    ensures err == Cancelled || (err == ContextLimit && manager.active == LongTool("x") && !ToolsEmpty(manager.active))
  {
    hide Outcome, ToolsEmpty, Total;
    NarrowLimits();
    var one: Message -> nat := m => 1;
    manager := new MessageContextManager(NARROW, one, 0, groups => None);
    var refused := manager.RestoreActive(LongTool("x"));
    assert manager.active == LongTool("x");
    err := manager.Compact(false, multiset{});
    RefusedUntouched(NARROW, one);
    ghost var plan :| Outcome(NARROW, one, 0, false, LongTool("x"), manager.active, plan, err) && PlanTells(manager.compactor, plan);
    NothingDue(NARROW, one, LongTool("x"), manager.active, plan, err);
  }

  lemma NothingDue(config: ValidConfig, cost: Message -> nat, before: seq<Message>, after: seq<Message>, plan: Plan, err: ContextError)
    requires config.CompactionLimit() == 0 && Outcome(config, cost, 0, false, before, after, plan, err)
    ensures after == before && (err == Cancelled || err == LimitError(config, cost, 0, before))
    ensures Outcome(config, cost, 0, false, before, before, NoPlan, ContextLimit) ==> LimitError(config, cost, 0, before) == ContextLimit
  {
  }

  lemma RebuildParts(layers: Layers, extra: seq<Message>, body: seq<Message>)
    ensures Rebuild(layers, extra, body) == layers.system + layers.anchor + extra + body
  {
  }

  lemma NothingCut(msgs: seq<Message>)
    ensures TextCut(msgs, msgs)
  {
  }

  lemma {:induction false} GroupsNonEmpty(msgs: seq<Message>, config: ValidConfig)
    ensures var groups := SplitLayers(msgs).groups;
            NonEmpty(MicroGroups(groups, |groups| - config.recentMessageGroups, config))
  {
    hide HasMarker, SplitSummary;
    var groups := SplitLayers(msgs).groups;
    var micro := MicroGroups(groups, |groups| - config.recentMessageGroups, config);
    forall g | g in micro ensures g != [] {
      var i :| 0 <= i < |micro| && micro[i] == g;
      assert groups[i] in groups && SameShapes(groups[i], micro[i]);
    }
  }
}
