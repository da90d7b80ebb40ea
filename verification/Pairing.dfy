/** Pairing survives everything the context manager does to the layers of a message list. */
module Pairing {
  import opened Text
  import opened Messages
  import opened ContextLayers

  /** The harness never injects a message that asks for tools. */
  predicate Quiet(msgs: seq<Message>) {
    forall i :: 0 <= i < |msgs| && msgs[i].injected ==> !msgs[i].IsCaller()
  }

  predicate HasAnchor(msgs: seq<Message>) {
    SystemCount(msgs) < |msgs|
  }

  /** A user message whose marker introduces no summary: it is not stripped, but it can be removed. */
  predicate BlankMarked(m: Message) {
    m.IsSummary() && SplitSummary(m.content).1 == ""
  }

  /** The message behind the system prompt asks for no tools. */
  predicate Anchored(msgs: seq<Message>) {
    HasAnchor(msgs) ==> !msgs[SystemCount(msgs)].IsCaller()
  }

  /** Nor is it an empty summary, which a removal of summaries would take away. */
  predicate PlainAnchor(msgs: seq<Message>) {
    HasAnchor(msgs) ==> !BlankMarked(msgs[SystemCount(msgs)])
  }

  /** A context the loop may extend: `ids` are the calls still owed a result. */
  predicate Good(msgs: seq<Message>, ids: multiset<string>) {
    Scan(CLEAR, msgs) == Owed(ids) && Quiet(msgs) && Anchored(msgs)
  }

  /** Only the newest group may be unfinished. */
  predicate GroupsOwe(groups: seq<Group>, ids: multiset<string>) {
    && (groups == [] ==> ids == multiset{})
    && (forall i :: 0 <= i < |groups| - 1 ==> Paired(groups[i]))
    && (groups != [] ==> Scan(CLEAR, groups[|groups| - 1]) == Owed(ids))
  }

  lemma NotBrokenHead(debt: Debt, msgs: seq<Message>)
    requires msgs != [] && !Scan(debt, msgs).Broken?
    ensures !Step(debt, msgs[0]).Broken?
    ensures msgs[0].role != Tool ==> debt == CLEAR
    ensures msgs[0].role == Tool ==> debt != CLEAR
  {
    ScanBroken(msgs[1..]);
  }

  /** The next group can only begin once the previous one is settled. */
  lemma {:induction false} FirstGroupSettled(msgs: seq<Message>, ids: multiset<string>)
    requires msgs != [] && Scan(CLEAR, msgs) == Owed(ids)
    ensures var n := GroupLength(msgs);
            if n < |msgs| then Paired(msgs[..n]) && Scan(CLEAR, msgs[n..]) == Owed(ids)
            else Scan(CLEAR, msgs[..n]) == Owed(ids)
  {
    var n := GroupLength(msgs);
    var group, rest := msgs[..n], msgs[n..];
    assert msgs == group + rest;
    ScanConcat(CLEAR, group, rest);
    if n < |msgs| {
      NotBrokenHead(Scan(CLEAR, group), rest);
      NotBrokenHead(CLEAR, msgs);
      if msgs[0].IsCaller() {
        assert rest[0] == msgs[1..][n - 1];
      } else {
        assert group[1..] == [];
      }
    } else {
      assert group == msgs;
    }
  }

  lemma GroupsOweCons(group: Group, groups: seq<Group>, ids: multiset<string>)
    requires if groups == [] then Scan(CLEAR, group) == Owed(ids) else Paired(group) && GroupsOwe(groups, ids)
    ensures GroupsOwe([group] + groups, ids)
  {
    hide Scan;
    var all := [group] + groups;
    forall i | 0 <= i < |all| - 1 ensures Paired(all[i]) {
      if i > 0 { assert all[i] == groups[i - 1]; }
    }
  }

  /** A paired list falls into closed groups, the last one alone possibly open. */
  lemma {:induction false} HistoryOwes(msgs: seq<Message>, ids: multiset<string>)
    requires Scan(CLEAR, msgs) == Owed(ids)
    ensures GroupsOwe(HistoryGroups(msgs), ids)
    decreases msgs
  {
    hide HasMarker;
    if msgs == [] {
    } else if msgs[0].IsSummary() {
      HistoryOwes(msgs[1..], ids);
    } else {
      var n := GroupLength(msgs);
      FirstGroupSettled(msgs, ids);
      if n < |msgs| { HistoryOwes(msgs[n..], ids); }
      GroupsOweCons(msgs[..n], HistoryGroups(msgs[n..]), ids);
    }
  }

  // Dropping groups.

  function Pick<T>(items: seq<T>, flags: seq<bool>): (picked: seq<T>)
    requires |items| == |flags|
  {
    if items == [] then [] else (if flags[0] then [items[0]] else []) + Pick(items[1..], flags[1..])
  }

  function Negate(flags: seq<bool>): (r: seq<bool>)
    ensures |r| == |flags| && forall i :: 0 <= i < |r| ==> r[i] == !flags[i]
  {
    seq(|flags|, i requires 0 <= i < |flags| => !flags[i])
  }

  /** Any choice of groups that keeps the newest one owes exactly what the whole list owed. */
  lemma {:induction false} PickOwes(groups: seq<Group>, flags: seq<bool>, ids: multiset<string>)
    requires |groups| == |flags| && GroupsOwe(groups, ids)
    requires groups != [] ==> flags[|flags| - 1]
    ensures Scan(CLEAR, Flatten(Pick(groups, flags))) == Owed(ids)
    decreases groups
  {
    if |groups| == 1 {
      assert Pick(groups[1..], flags[1..]) == [];
      assert Flatten([groups[0]]) == groups[0] + [] == groups[0];
    } else if groups != [] {
      var rest := groups[1..];
      forall i | 0 <= i < |rest| ensures rest[i] == groups[i + 1] {}
      PickOwes(rest, flags[1..], ids);
      var tail := Pick(rest, flags[1..]);
      if flags[0] {
        FlattenCons(groups[0], tail);
        ScanConcat(CLEAR, groups[0], Flatten(tail));
      } else {
        assert [] + tail == tail;
      }
    }
  }

  // Rewriting text.

  predicate SameGroupShapes(a: seq<Group>, b: seq<Group>) {
    |a| == |b| && forall i :: 0 <= i < |a| ==> SameShapes(a[i], b[i])
  }

  lemma RewrittenGroupsOwe(a: seq<Group>, b: seq<Group>, ids: multiset<string>)
    requires SameGroupShapes(a, b) && GroupsOwe(a, ids)
    ensures GroupsOwe(b, ids)
  {
    forall i | 0 <= i < |a| ensures Scan(CLEAR, a[i]) == Scan(CLEAR, b[i]) {
      ScanSameShapes(CLEAR, a[i], b[i]);
    }
  }

  // Rebuilding the list.

  lemma {:induction false} SystemCountIs(msgs: seq<Message>, n: nat)
    requires n <= |msgs| && forall i :: 0 <= i < n ==> msgs[i].role == System
    requires n < |msgs| ==> msgs[n].role != System
    ensures SystemCount(msgs) == n
  {
  }

  /** Messages that ask for nothing leave the debt clear. */
  lemma {:induction false} NoCallersScan(msgs: seq<Message>)
    requires forall i :: 0 <= i < |msgs| ==> !msgs[i].IsCaller()
    ensures Scan(CLEAR, msgs) == CLEAR || Scan(CLEAR, msgs) == Broken
    decreases msgs
  {
    if msgs != [] {
      forall i | 0 <= i < |msgs| - 1 ensures !msgs[1..][i].IsCaller() { assert msgs[1..][i] == msgs[i + 1]; }
      if msgs[0].role == Tool { ScanBroken(msgs[1..]); } else { NoCallersScan(msgs[1..]); }
    }
  }

  function AnchorEnd(msgs: seq<Message>): (k: nat)
    ensures SystemCount(msgs) <= k <= |msgs|
    ensures HasAnchor(msgs) ==> SystemCount(msgs) < k
  {
    var n := SystemCount(msgs);
    if n == |msgs| then n else n + 1 + InjectedCount(msgs[n + 1..])
  }

  lemma PrefixNeverCalls(msgs: seq<Message>)
    requires Quiet(msgs) && Anchored(msgs)
    ensures forall i :: 0 <= i < AnchorEnd(msgs) ==> !msgs[i].IsCaller()
  {
    hide HasMarker;
    var n := SystemCount(msgs);
    forall i | 0 <= i < AnchorEnd(msgs) ensures !msgs[i].IsCaller() {
      if i > n { assert msgs[i] == msgs[n + 1..][i - n - 1]; }
    }
  }

  lemma PrefixShapes(msgs: seq<Message>)
    ensures var layers := SplitLayers(msgs);
            SameShapes(layers.system + layers.anchor, msgs[..AnchorEnd(msgs)])
  {
    hide HasMarker, SplitSummary;
    var layers, n := SplitLayers(msgs), SystemCount(msgs);
    if HasAnchor(msgs) {
      assert layers.system + layers.anchor == msgs[..n] + [StripAnchor(msgs[n])] + msgs[n + 1..AnchorEnd(msgs)];
    }
  }

  /** Splitting a good context: a settled prefix, and groups that owe what the context owes. */
  lemma LayersOwe(msgs: seq<Message>, ids: multiset<string>)
    requires Good(msgs, ids)
    ensures var layers := SplitLayers(msgs);
            Paired(layers.system + layers.anchor) && GroupsOwe(layers.groups, ids)
  {
    hide HasMarker, SplitSummary;
    var layers, k := SplitLayers(msgs), AnchorEnd(msgs);
    var prefix, rest := msgs[..k], msgs[k..];
    assert msgs == prefix + rest;
    ScanConcat(CLEAR, prefix, rest);
    PrefixNeverCalls(msgs);
    NoCallersScan(prefix);
    ScanBroken(rest);
    PrefixShapes(msgs);
    ScanSameShapes(CLEAR, layers.system + layers.anchor, prefix);
    HistoryOwes(rest, ids);
    if !HasAnchor(msgs) { assert rest == []; }
  }

  /** Stripping takes the marker away, unless there is no summary behind it. */
  lemma StrippedAnchorIsPlain(m: Message)
    ensures StripAnchor(m).IsSummary() <==> BlankMarked(m)
  {
    if SplitSummary(m.content).1 != "" { SplitBaseHasNoMarker(m.content); }
  }

  lemma PlainIsNotBlank(m: Message)
    ensures !m.IsSummary() ==> !BlankMarked(m)
  {
  }

  /** The message right behind the system prompt is no summary, or nothing follows it. */
  predicate StableAnchor(msgs: seq<Message>) {
    HasAnchor(msgs) ==> !msgs[SystemCount(msgs)].IsSummary() || |msgs| == SystemCount(msgs) + 1
  }

  function Rebuild(layers: Layers, extra: seq<Message>, body: seq<Message>): seq<Message> {
    layers.system + layers.anchor + extra + body
  }

  lemma {:induction false} QuietConcat(a: seq<Message>, b: seq<Message>)
    ensures Quiet(a + b) <==> Quiet(a) && Quiet(b)
  {
    if Quiet(a + b) {
      forall i | 0 <= i < |a| && a[i].injected ensures !a[i].IsCaller() { assert (a + b)[i] == a[i]; }
      forall i | 0 <= i < |b| && b[i].injected ensures !b[i].IsCaller() { assert (a + b)[|a| + i] == b[i]; }
    }
  }

  lemma {:induction false} QuietSameShapes(a: seq<Message>, b: seq<Message>)
    requires SameShapes(a, b) && Quiet(a)
    ensures Quiet(b)
  {
    forall i | 0 <= i < |b| && b[i].injected ensures !b[i].IsCaller() { assert SameShape(a[i], b[i]); }
  }

  /** What may stand between the anchor and the groups: at most one message with a real summary. */
  predicate SummarySlot(extra: seq<Message>) {
    extra == [] || (|extra| == 1 && extra[0].role == User && !extra[0].injected && !BlankMarked(extra[0]))
  }

  lemma {:induction false} SlotScans(extra: seq<Message>)
    requires SummarySlot(extra)
    ensures Paired(extra) && Quiet(extra)
  {
    hide HasMarker, SplitSummary;
    if extra != [] {
      ScanAppend(CLEAR, [], extra[0]);
      assert [] + [extra[0]] == extra;
    }
  }

  lemma {:induction false} RebuiltScans(msgs: seq<Message>, ids: multiset<string>, extra: seq<Message>, body: seq<Message>)
    requires Good(msgs, ids) && SummarySlot(extra)
    ensures Scan(CLEAR, Rebuild(SplitLayers(msgs), extra, body)) == Scan(CLEAR, body)
  {
    hide HasMarker, SplitSummary, SplitLayers;
    var layers := SplitLayers(msgs);
    var prefix := layers.system + layers.anchor;
    LayersOwe(msgs, ids);
    SlotScans(extra);
    ScanConcat(CLEAR, prefix, extra);
    ScanConcat(CLEAR, prefix + extra, body);
  }

  lemma {:induction false} RebuiltQuiet(msgs: seq<Message>, extra: seq<Message>, body: seq<Message>)
    requires Quiet(msgs) && SummarySlot(extra) && Quiet(body)
    ensures Quiet(Rebuild(SplitLayers(msgs), extra, body))
  {
    hide HasMarker, SplitSummary, SplitLayers;
    var layers := SplitLayers(msgs);
    var prefix, k := layers.system + layers.anchor, AnchorEnd(msgs);
    assert msgs == msgs[..k] + msgs[k..];
    QuietConcat(msgs[..k], msgs[k..]);
    PrefixShapes(msgs);
    QuietSameShapes(msgs[..k], prefix);
    SlotScans(extra);
    QuietConcat(prefix, extra);
    QuietConcat(prefix + extra, body);
  }

  lemma {:induction false} RebuiltAnchored(msgs: seq<Message>, extra: seq<Message>, body: seq<Message>)
    requires Anchored(msgs) && SummarySlot(extra)
    requires HasAnchor(msgs) || body == []
    ensures var list, n := Rebuild(SplitLayers(msgs), extra, body), SystemCount(msgs);
            && Anchored(list) && (PlainAnchor(msgs) ==> PlainAnchor(list) && StableAnchor(list))
            && SystemCount(list) == n && list[..n] == msgs[..n]
            && (HasAnchor(msgs) ==> HasAnchor(list) && list[n] == StripAnchor(msgs[n]))
  {
    hide HasMarker, SplitSummary;
    var layers, n := SplitLayers(msgs), SystemCount(msgs);
    var list := Rebuild(layers, extra, body);
    if HasAnchor(msgs) {
      assert list[n] == StripAnchor(msgs[n]);
      StrippedAnchorIsPlain(msgs[n]);
      PlainIsNotBlank(list[n]);
    } else {
      assert list == msgs + extra;
    }
    forall i | 0 <= i < n ensures list[i] == msgs[i] {}
    SystemCountIs(list, n);
  }

  /** Putting the layers back together, with at most one summary message between anchor and groups. */
  lemma {:induction false} RebuiltGood(msgs: seq<Message>, ids: multiset<string>, extra: seq<Message>, body: seq<Message>)
    requires Good(msgs, ids) && SummarySlot(extra)
    requires Scan(CLEAR, body) == Owed(ids) && Quiet(body)
    requires HasAnchor(msgs) || body == []
    ensures var list := Rebuild(SplitLayers(msgs), extra, body);
            Good(list, ids) && (HasAnchor(msgs) ==> HasAnchor(list))
            && (PlainAnchor(msgs) ==> PlainAnchor(list) && StableAnchor(list))
  {
    hide HasMarker, SplitSummary, SplitLayers, Rebuild;
    RebuiltScans(msgs, ids, extra, body);
    RebuiltQuiet(msgs, extra, body);
    RebuiltAnchored(msgs, extra, body);
  }
}
