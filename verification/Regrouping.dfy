/** Splitting a context into layers, and folding a replayed one, keep what they do not mean to drop. */
module Regrouping {
  import opened Text
  import opened Messages
  import opened ContextLayers
  import opened Pairing

  predicate WellFormed(group: Group) {
    group != [] && group[0].role != Tool && !group[0].IsSummary() && GroupLength(group) == |group|
  }

  predicate AllWellFormed(groups: seq<Group>) {
    forall i :: 0 <= i < |groups| ==> WellFormed(groups[i])
  }

  lemma {:induction false} ToolRunIs(msgs: seq<Message>, n: nat)
    requires n <= |msgs| && AllTools(msgs[..n])
    requires n < |msgs| ==> msgs[n].role != Tool
    ensures ToolRun(msgs) == n
  {
    var r := ToolRun(msgs);
    assert forall i :: 0 <= i < n ==> msgs[..n][i] == msgs[i];
    assert forall i :: 0 <= i < r ==> msgs[..r][i] == msgs[i];
  }

  lemma {:induction false} GroupLengthInside(group: Group, rest: seq<Message>)
    requires group != [] && GroupLength(group) == |group|
    requires rest != [] ==> rest[0].role != Tool
    ensures GroupLength(group + rest) == |group|
  {
    if group[0].IsCaller() {
      var tail := group[1..];
      assert (group + rest)[1..] == tail + rest;
      assert tail[..ToolRun(tail)] == tail;
      assert (tail + rest)[..|tail|] == tail;
      ToolRunIs(tail + rest, |tail|);
    }
  }

  lemma {:induction false} FlattenHead(groups: seq<Group>)
    requires AllWellFormed(groups)
    ensures if groups == [] then Flatten(groups) == []
            else Flatten(groups) != [] && Flatten(groups)[0] == groups[0][0] && Flatten(groups)[0].role != Tool
  {
  }

  /** Well-formed groups come out of a flattened list as they went in. */
  lemma {:induction false} RegroupFlattened(groups: seq<Group>, existing: string)
    requires AllWellFormed(groups)
    ensures HistoryGroups(Flatten(groups)) == groups
    ensures HistorySummary(Flatten(groups), existing) == existing
    decreases groups
  {
    hide HasMarker, SplitSummary, MergeSummary;
    if groups != [] {
      var group, rest := groups[0], Flatten(groups[1..]);
      FlattenHead(groups[1..]);
      GroupLengthInside(group, rest);
      assert (group + rest)[..|group|] == group && (group + rest)[|group|..] == rest;
      RegroupFlattened(groups[1..], existing);
    }
  }

  lemma {:induction false} FirstGroupWellFormed(msgs: seq<Message>)
    requires msgs != [] && msgs[0].role != Tool && !msgs[0].IsSummary()
    ensures WellFormed(msgs[..GroupLength(msgs)])
  {
    hide HasMarker;
    var n := GroupLength(msgs);
    var group := msgs[..n];
    if msgs[0].IsCaller() {
      assert group[1..] == msgs[1..][..n - 1];
      assert group[1..][..n - 1] == group[1..];
      ToolRunIs(group[1..], n - 1);
    }
  }

  lemma {:induction false} HistoryWellFormed(msgs: seq<Message>, ids: multiset<string>)
    requires Scan(CLEAR, msgs) == Owed(ids)
    ensures AllWellFormed(HistoryGroups(msgs))
    decreases msgs
  {
    hide HasMarker, WellFormed;
    if msgs == [] {
    } else if msgs[0].IsSummary() {
      HistoryWellFormed(msgs[1..], ids);
    } else {
      var n := GroupLength(msgs);
      NotBrokenHead(CLEAR, msgs);
      FirstGroupSettled(msgs, ids);
      FirstGroupWellFormed(msgs);
      if n < |msgs| { HistoryWellFormed(msgs[n..], ids); }
      var groups, tail := HistoryGroups(msgs), HistoryGroups(msgs[n..]);
      forall i | 0 <= i < |groups| ensures WellFormed(groups[i]) {
        if i > 0 { assert groups[i] == tail[i - 1]; }
      }
    }
  }

  lemma MergeSummaryTrimmed(existing: string, next: string)
    ensures Trimmed(MergeSummary(existing, next))
  {
    TrimmedIffTrimKeeps(existing);
    TrimmedIffTrimKeeps(next);
    var e, n := Trim(existing), Trim(next);
    if e != "" && n != "" {
      var text := e + "\n" + n;
      var merged := Truncate(text, 16000);
      assert text[0] == e[0] && text[|text| - 1] == n[|n| - 1];
      if |text| > 16000 {
        assert merged[0] == text[0];
        assert merged[|merged| - 1] == TRUNCATION_SUFFIX[|TRUNCATION_SUFFIX| - 1] == ']';
      }
    }
  }

  lemma {:induction false} HistorySummaryTrimmed(msgs: seq<Message>, existing: string)
    requires Trimmed(existing)
    ensures Trimmed(HistorySummary(msgs, existing))
    decreases msgs
  {
    hide HasMarker, SplitSummary, MergeSummary, Trimmed;
    if msgs == [] {
    } else if msgs[0].IsSummary() {
      MergeSummaryTrimmed(existing, SplitSummary(msgs[0].content).1);
      HistorySummaryTrimmed(msgs[1..], MergeSummary(existing, SplitSummary(msgs[0].content).1));
    } else {
      HistorySummaryTrimmed(msgs[GroupLength(msgs)..], existing);
    }
  }

  function SummarySlotFor(summary: string): seq<Message> {
    if summary == "" then [] else [SummaryMessage(summary)]
  }

  lemma {:induction false} SummaryTrimmed(msgs: seq<Message>)
    ensures Trimmed(SplitLayers(msgs).summary)
  {
    var n := SystemCount(msgs);
    if n < |msgs| {
      var content := msgs[n].content;
      var i := IndexFrom(content, MARKER, 0);
      if i >= 0 { TrimmedIffTrimKeeps(content[i + |MARKER|..]); }
      HistorySummaryTrimmed(msgs[AnchorEnd(msgs)..], SplitSummary(content).1);
    }
  }

  /** A trimmed summary put into the slot is found there again, alone. */
  lemma {:induction false} SlotHoldsSummary(summary: string, body: seq<Message>)
    requires Trimmed(summary)
    ensures SummarySlot(SummarySlotFor(summary))
    ensures HistorySummary(SummarySlotFor(summary) + body, "") == HistorySummary(body, summary)
    ensures HistoryGroups(SummarySlotFor(summary) + body) == HistoryGroups(body)
  {
    var slot := SummarySlotFor(summary);
    if summary == "" {
      assert slot + body == body;
    } else {
      WrapThenSplit(summary);
      TrimmedIffTrimKeeps(summary);
      TrimmedIffTrimKeeps("");
      assert (slot + body)[1..] == body;
      hide HasMarker, SplitSummary;
    }
  }

  lemma {:induction false} InjectedCountIs(msgs: seq<Message>, n: nat)
    requires n <= |msgs| && forall i :: 0 <= i < n ==> msgs[i].injected
    requires n < |msgs| ==> !msgs[n].injected
    ensures InjectedCount(msgs) == n
  {
  }

  /** What applyMicrocompactLocked builds when no text changes. */
  function Reassemble(layers: Layers): seq<Message> {
    Rebuild(layers, SummarySlotFor(layers.summary), Flatten(layers.groups))
  }

  /** Something that is not injected separates the anchor from the groups. */
  predicate AnchorEndsThere(layers: Layers) {
    layers.summary != "" || layers.groups == [] || (layers.groups[0] != [] && !layers.groups[0][0].injected)
  }

  lemma {:induction false} StripTwice(m: Message)
    ensures StripAnchor(StripAnchor(m)) == StripAnchor(m)
    ensures SplitSummary(StripAnchor(m).content).1 == ""
  {
    if SplitSummary(m.content).1 != "" { SplitBaseHasNoMarker(m.content); }
  }

  /** A system prompt, an anchor message and the injected run behind it, as they stand in a list. */
  predicate Head(system: seq<Message>, anchor: Message, injected: seq<Message>) {
    && (forall i :: 0 <= i < |system| ==> system[i].role == System)
    && anchor.role != System
    && (forall i :: 0 <= i < |injected| ==> injected[i].injected)
  }

  lemma {:induction false} SplitOfParts(system: seq<Message>, anchor: Message, injected: seq<Message>, rest: seq<Message>)
    requires Head(system, anchor, injected)
    ensures var layers := SplitLayers(system + [anchor] + injected + rest);
            if rest != [] && rest[0].injected then |layers.anchor| > 1 + |injected|
            else layers == Layers(system, [StripAnchor(anchor)] + injected,
                                  HistorySummary(rest, SplitSummary(anchor.content).1), HistoryGroups(rest))
  {
    hide HasMarker, SplitSummary, MergeSummary, HistoryGroups, HistorySummary, SystemCount, InjectedCount, StripAnchor;
    var list, n := system + [anchor] + injected + rest, |system|;
    SystemCountIs(list, n);
    assert list[..n] == system && list[n] == anchor;
    var tail := list[n + 1..];
    assert tail == injected + rest;
    if rest != [] && rest[0].injected {
      assert tail[|injected|] == rest[0];
      assert InjectedCount(tail) > |injected|;
    } else {
      if rest != [] { assert tail[|injected|] == rest[0]; }
      InjectedCountIs(tail, |injected|);
      assert list[n + 1..n + 1 + |injected|] == injected && list[n + 1 + |injected|..] == rest;
    }
  }

  lemma {:induction false} PartsOf(msgs: seq<Message>) returns (anchor: Message, injected: seq<Message>)
    requires HasAnchor(msgs)
    ensures var layers := SplitLayers(msgs);
            && anchor == StripAnchor(msgs[SystemCount(msgs)]) && layers.anchor == [anchor] + injected
            && Head(layers.system, anchor, injected)
  {
    hide HasMarker, SplitSummary, MergeSummary;
    var n, k := SystemCount(msgs), AnchorEnd(msgs);
    anchor, injected := StripAnchor(msgs[n]), msgs[n + 1..k];
    forall i | 0 <= i < |injected| ensures injected[i].injected { assert injected[i] == msgs[n + 1..][i]; }
  }

  /**
   * Splitting, reassembling and splitting again gives the same layers, exactly when the anchor
   * cannot run into the groups.
   */
  lemma {:induction false} SplitReassembleSplit(msgs: seq<Message>, ids: multiset<string>)
    requires Good(msgs, ids) && HasAnchor(msgs)
    ensures var layers := SplitLayers(msgs);
            SplitLayers(Reassemble(layers)) == layers <==> AnchorEndsThere(layers)
  {
    hide HasMarker, SplitSummary, MergeSummary, SplitLayers, Head;
    var layers := SplitLayers(msgs);
    var slot, body := SummarySlotFor(layers.summary), Flatten(layers.groups);
    var rest := slot + body;
    var anchor, injected := PartsOf(msgs);
    StripTwice(msgs[SystemCount(msgs)]);
    SplitOfParts(layers.system, anchor, injected, rest);
    assert Reassemble(layers) == layers.system + [anchor] + injected + rest;
    SummaryTrimmed(msgs);
    SlotHoldsSummary(layers.summary, body);
    GroupsFormed(msgs, ids);
    RegroupFlattened(layers.groups, layers.summary);
    FlattenHead(layers.groups);
    if slot != [] { assert rest[0] == slot[0] && !slot[0].injected; } else { assert rest == body; }
  }

  lemma {:induction false} GroupsFormed(msgs: seq<Message>, ids: multiset<string>)
    requires Good(msgs, ids)
    ensures AllWellFormed(SplitLayers(msgs).groups)
  {
    hide HasMarker, SplitSummary, WellFormed;
    var k := AnchorEnd(msgs);
    assert msgs == msgs[..k] + msgs[k..];
    ScanConcat(CLEAR, msgs[..k], msgs[k..]);
    PrefixNeverCalls(msgs);
    NoCallersScan(msgs[..k]);
    ScanBroken(msgs[k..]);
    HistoryWellFormed(msgs[k..], ids);
    if !HasAnchor(msgs) { assert msgs[k..] == []; }
  }

  // Replay: folding recorded increments behind the rendered prompt.

  /** foldCompacted */
  function FoldCompacted(msgs: seq<Message>, initial: nat, summary: string, dropped: int): (r: seq<Message>)
    requires initial <= |msgs|
  {
    if dropped <= 0 then msgs
    else
      var groups := Groups(msgs[initial..]);
      var d := if dropped >= |groups| then |groups| else dropped;
      msgs[..initial] + (if summary != "" then [SummaryMessage(summary)] else []) + Flatten(groups[d..])
  }

  /** The fold keeps the prompt verbatim and drops whole groups, the oldest ones, and nothing else. */
  lemma {:induction false} FoldDropsOldestGroups(msgs: seq<Message>, initial: nat, summary: string, dropped: int)
    returns (cut: nat, d: nat)
    requires initial <= |msgs|
    ensures cut <= |msgs| - initial && d <= |Groups(msgs[initial..])|
    ensures d == dropped || (d == 0 && dropped < 0) || (d == |Groups(msgs[initial..])| && dropped > d)
    ensures msgs[initial..][..cut] == Flatten(Groups(msgs[initial..])[..d])
    ensures FoldCompacted(msgs, initial, summary, dropped) ==
            msgs[..initial] + (if d > 0 || dropped > 0 then SummarySlotFor(summary) else []) + msgs[initial + cut..]
  {
    hide HasMarker, SplitSummary, AppendSummary;
    var increments := msgs[initial..];
    var groups := Groups(increments);
    d := if dropped <= 0 then 0 else if dropped >= |groups| then |groups| else dropped;
    assert groups == groups[..d] + groups[d..];
    FlattenConcat(groups[..d], groups[d..]);
    FlattenGroups(increments);
    cut := |Flatten(groups[..d])|;
    assert increments[..cut] == Flatten(groups[..d]) && increments[cut..] == Flatten(groups[d..]);
    assert msgs[initial + cut..] == increments[cut..];
    if dropped <= 0 { assert msgs == msgs[..initial] + [] + increments; }
  }
}
