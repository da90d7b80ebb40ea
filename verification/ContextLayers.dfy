/** How the active context splits into system prompt, anchor, summary and message groups. */
module ContextLayers {
  import opened Text
  import opened Messages

  type Group = seq<Message>

  datatype Layers = Layers(system: seq<Message>, anchor: seq<Message>, summary: string, groups: seq<Group>)

  // Message groups: a caller together with the tool messages that follow it, anything else alone.

  function GroupLength(msgs: seq<Message>): (n: nat)
    requires msgs != []
    ensures 1 <= n <= |msgs|
  {
    if msgs[0].IsCaller() then 1 + ToolRun(msgs[1..]) else 1
  }

  /** splitMessageGroups */
  function Groups(msgs: seq<Message>): (groups: seq<Group>)
    ensures forall g :: g in groups ==> g != []
  {
    if msgs == [] then []
    else
      var n := GroupLength(msgs);
      [msgs[..n]] + Groups(msgs[n..])
  }

  function Flatten(groups: seq<Group>): (msgs: seq<Message>) {
    if groups == [] then [] else groups[0] + Flatten(groups[1..])
  }

  lemma FlattenCons(g: Group, groups: seq<Group>)
    ensures Flatten([g] + groups) == g + Flatten(groups)
  {
    assert ([g] + groups)[1..] == groups;
  }

  /** Grouping loses nothing. */
  lemma {:induction false} FlattenGroups(msgs: seq<Message>)
    ensures Flatten(Groups(msgs)) == msgs
    decreases msgs
  {
    if msgs != [] {
      var n := GroupLength(msgs);
      FlattenGroups(msgs[n..]);
      FlattenCons(msgs[..n], Groups(msgs[n..]));
    }
  }

  lemma {:induction false} FlattenConcat(a: seq<Group>, b: seq<Group>)
    ensures Flatten(a + b) == Flatten(a) + Flatten(b)
  {
    if a == [] {
      assert a + b == b;
    } else {
      assert (a + b)[1..] == a[1..] + b;
      FlattenConcat(a[1..], b);
    }
  }

  // The layers.

  function SystemCount(msgs: seq<Message>): (n: nat)
    ensures n <= |msgs|
    ensures forall i :: 0 <= i < n ==> msgs[i].role == System
    ensures n < |msgs| ==> msgs[n].role != System
  {
    if msgs != [] && msgs[0].role == System then 1 + SystemCount(msgs[1..]) else 0
  }

  function InjectedCount(msgs: seq<Message>): (n: nat)
    ensures n <= |msgs|
    ensures forall i :: 0 <= i < n ==> msgs[i].injected
    ensures n < |msgs| ==> !msgs[n].injected
  {
    if msgs != [] && msgs[0].injected then 1 + InjectedCount(msgs[1..]) else 0
  }

  /** The groups behind the anchor, with earlier summaries left out. */
  function HistoryGroups(msgs: seq<Message>): (groups: seq<Group>)
    ensures forall g :: g in groups ==> g != []
  {
    if msgs == [] then []
    else if msgs[0].IsSummary() then HistoryGroups(msgs[1..])
    else
      var n := GroupLength(msgs);
      [msgs[..n]] + HistoryGroups(msgs[n..])
  }

  /** The earlier summaries behind the anchor, merged into `existing`. */
  function HistorySummary(msgs: seq<Message>, existing: string): (summary: string)
    decreases msgs
  {
    if msgs == [] then existing
    else if msgs[0].IsSummary() then
      HistorySummary(msgs[1..], MergeSummary(existing, SplitSummary(msgs[0].content).1))
    else HistorySummary(msgs[GroupLength(msgs)..], existing)
  }

  function StripAnchor(m: Message): (r: Message)
    ensures SameShape(m, r)
  {
    var (base, summary) := SplitSummary(m.content);
    if summary != "" then m.WithContent(base) else m
  }

  /** splitContextLayers */
  function SplitLayers(msgs: seq<Message>): (layers: Layers) {
    var n := SystemCount(msgs);
    if n == |msgs| then Layers(msgs, [], "", [])
    else
      var k := n + 1 + InjectedCount(msgs[n + 1..]);
      Layers(msgs[..n], [StripAnchor(msgs[n])] + msgs[n + 1..k],
             HistorySummary(msgs[k..], SplitSummary(msgs[n].content).1), HistoryGroups(msgs[k..]))
  }

  method LeadingSystem(messages: seq<Message>) returns (index: nat)
    ensures index == SystemCount(messages)
  {
    index := 0;
    while index < |messages| && messages[index].role == System
      invariant index <= SystemCount(messages)
      decreases |messages| - index
    {
      index := index + 1;
    }
  }

  method LeadingInjected(messages: seq<Message>) returns (index: nat)
    ensures index == InjectedCount(messages)
  {
    index := 0;
    while index < |messages| && messages[index].injected
      invariant index <= InjectedCount(messages)
      decreases |messages| - index
    {
      index := index + 1;
    }
  }

  /** The group that starts a non-empty list: a caller absorbs the tool messages behind it. */
  method NextGroup(messages: seq<Message>) returns (group: Group)
    requires messages != []
    ensures group == messages[..GroupLength(messages)]
  {
    group := [messages[0]];
    if messages[0].IsCaller() {
      var tail := messages[1..];
      var index := 0;
      while index < |tail| && tail[index].role == Tool
        invariant index <= ToolRun(tail)
        invariant group == messages[..1 + index]
        decreases |tail| - index
      {
        group := group + [tail[index]];
        index := index + 1;
      }
    }
  }

  method CollectHistory(messages: seq<Message>, existing: string) returns (summary: string, groups: seq<Group>)
    ensures summary == HistorySummary(messages, existing)
    ensures groups == HistoryGroups(messages)
  {
    hide SplitSummary, HasMarker, MergeSummary;
    summary, groups := existing, [];
    var rest := messages;
    while rest != []
      invariant HistorySummary(rest, summary) == HistorySummary(messages, existing)
      invariant groups + HistoryGroups(rest) == HistoryGroups(messages)
      decreases |rest|
    {
      if rest[0].IsSummary() {
        summary := MergeSummary(summary, SplitSummary(rest[0].content).1);
        rest := rest[1..];
      } else {
        var group := NextGroup(rest);
        assert groups + ([group] + HistoryGroups(rest[|group|..])) == groups + [group] + HistoryGroups(rest[|group|..]);
        groups := groups + [group];
        rest := rest[|group|..];
      }
    }
  }

  /** splitContextLayers, in its own loops. */
  method SplitContextLayers(messages: seq<Message>) returns (layers: Layers)
    ensures layers == SplitLayers(messages)
  {
    hide SplitSummary, HasMarker, MergeSummary, HistoryGroups, HistorySummary, StripAnchor;
    var n := LeadingSystem(messages);
    if n == |messages| { return Layers(messages, [], "", []); }
    var k := LeadingInjected(messages[n + 1..]);
    var index := n + 1 + k;
    var summary, groups := CollectHistory(messages[index..], SplitSummary(messages[n].content).1);
    layers := Layers(messages[..n], [StripAnchor(messages[n])] + messages[n + 1..index], summary, groups);
  }
}
