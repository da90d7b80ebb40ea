/** What giving up the summaries does to a context whose anchor is an empty summary. */
module AnchorRemoval {
  import opened Wrappers
  import opened Text
  import opened Messages
  import opened ContextLayers
  import opened Pairing
  import opened Regrouping
  import opened Trimming
  import opened ContextConfig
  import opened ContextManagement

  predicate AllSystem(msgs: seq<Message>) {
    forall i :: 0 <= i < |msgs| ==> msgs[i].role == System
  }

  lemma {:induction false} AnchorOf(system: seq<Message>, m: Message, rest: seq<Message>)
    requires AllSystem(system) && m.role != System
    ensures var msgs := system + [m] + rest;
            HasAnchor(msgs) && SystemCount(msgs) == |system| && msgs[SystemCount(msgs)] == m
  {
    var msgs := system + [m] + rest;
    forall i | 0 <= i < |system| ensures msgs[i].role == System { assert msgs[i] == system[i]; }
    SystemCountIs(msgs, |system|);
  }

  /** A compaction, forced or due, may give up the summaries: there is a hard limit that the schemas do not use up. */
  predicate GivesUp(config: ValidConfig, toolTokens: nat, forced: bool) {
    !KeepsSummaries(config, toolTokens) && (forced || config.CompactionLimit() > 0)
  }

  /** Whatever stands around the anchor and whatever its messages cost, every compaction leaves a context that can be extended. */
  ghost predicate Survives(config: ValidConfig, toolTokens: nat, forced: bool, m: Message) {
    forall cost, system, rest, ids, after, plan, err ::
      Compacting(config, cost, toolTokens, forced, system, m, rest, ids, after, plan, err) ==> Good(after, ids)
  }

  ghost predicate Compacting(config: ValidConfig, cost: Message -> nat, toolTokens: nat, forced: bool, system: seq<Message>, m: Message,
                             rest: seq<Message>, ids: multiset<string>, after: seq<Message>, plan: Plan, err: ContextError)
  {
    && AllSystem(system) && Good(system + [m] + rest, ids)
    && Outcome(config, cost, toolTokens, forced, system + [m] + rest, after, plan, err)
  }

  /** A context survives every compaction exactly when its anchor is no empty summary, or no compaction can give up the summaries. */
  lemma {:induction false} SurvivesIff(config: ValidConfig, toolTokens: nat, forced: bool, m: Message)
    requires m.role != System
    ensures Survives(config, toolTokens, forced, m) <==> !BlankMarked(m) || !GivesUp(config, toolTokens, forced)
  {
    hide Outcome, Good, BlankMarked, GivesUp;
    if !BlankMarked(m) || !GivesUp(config, toolTokens, forced) {
      forall cost, system, rest, ids, after, plan, err | Compacting(config, cost, toolTokens, forced, system, m, rest, ids, after, plan, err)
        ensures Good(after, ids)
      {
        AnchorOf(system, m, rest);
        OnlyGivenUpIf(config, cost, toolTokens, forced, system + [m] + rest, after, plan, err);
        CompactedStaysGood(config, system + [m] + rest, after, plan, ids);
      }
    } else {
      var cost := Price(Room(config, toolTokens), m);
      LosesItsAnchor(config, toolTokens, forced, m);
      assert [] + [m] + [CALL] == [m, CALL];
      assert Compacting(config, cost, toolTokens, forced, [], m, [CALL], multiset{"c"}, [CALL], GiveUp(m), NoError);
    }
  }

  lemma OnlyGivenUpIf(config: ValidConfig, cost: Message -> nat, toolTokens: nat, forced: bool, before: seq<Message>, after: seq<Message>,
                      plan: Plan, err: ContextError)
    requires Outcome(config, cost, toolTokens, forced, before, after, plan, err)
    ensures Compacted(config, before, after, plan) && (plan.Plan? && plan.removed ==> GivesUp(config, toolTokens, forced))
  {
    hide Compacted, Chosen;
  }

  // An anchor that is an empty summary, a call, its result, and a further call.

  const CALL: Message := Message(Assistant, "", [ToolCall("c", "t", "")], "", "", "", false)
  const RESULT: Message := Message(Tool, "", [], "c", "", "", false)
  const NEXT: Message := Message(Assistant, "", [ToolCall("d", "t", "")], "", "", "", false)

  /** The anchor fills the room alone; result and further call leave just enough of it for the first call. */
  function Price(room: nat, m: Message): Message -> nat {
    x => if x == m then room else if x == CALL then 1 else if x == RESULT || x == NEXT then Max(0, room - 1) else room + 4096
  }

  lemma BlankIsUser(m: Message)
    requires BlankMarked(m)
    ensures m.role == User
  {
  }

  lemma NoMarkerThere()
    ensures !CALL.IsSummary() && !RESULT.IsSummary() && !NEXT.IsSummary()
  {
  }

  lemma Prices(room: nat, m: Message)
    requires room > 0 && m.role == User
    ensures var cost := Price(room, m);
            && Total(cost, [m]) == room && Total(cost, [CALL]) == 1 && Total(cost, [RESULT]) == Total(cost, [NEXT]) == room - 1
            && Total(cost, [m, CALL]) == room + 1 && Total(cost, [CALL, RESULT]) == room && Total(cost, [CALL, NEXT]) == room
            && Total(cost, [CALL, RESULT, NEXT]) == 2 * room - 1
  {
    var cost := Price(room, m);
    forall x: Message ensures Total(cost, [x]) == cost(x) { assert [x][1..] == []; }
    assert [m, CALL] == [m] + [CALL] && [CALL, RESULT] == [CALL] + [RESULT] && [CALL, NEXT] == [CALL] + [NEXT];
    assert [CALL, RESULT, NEXT] == [CALL, RESULT] + [NEXT];
    TotalConcat(cost, [m], [CALL]);
    TotalConcat(cost, [CALL], [RESULT]);
    TotalConcat(cost, [CALL], [NEXT]);
    TotalConcat(cost, [CALL, RESULT], [NEXT]);
  }

  // How these contexts split into layers.

  /** Anchor and groups make up the whole list, and microcompaction leaves the groups alone. */
  ghost predicate Simple(config: ValidConfig, msgs: seq<Message>, anchor: Message, groups: seq<Group>) {
    && SplitLayers(msgs) == Layers([], [anchor], "", groups) && msgs == [anchor] + Flatten(groups)
    && MicroGroups(groups, |groups| - config.recentMessageGroups, config) == groups
  }

  lemma HistoryNext(x: Message, rest: seq<Message>)
    requires !x.IsSummary() && GroupLength([x] + rest) == 1
    ensures HistoryGroups([x] + rest) == [[x]] + HistoryGroups(rest) && HistorySummary([x] + rest, "") == HistorySummary(rest, "")
  {
    hide HasMarker;
    assert ([x] + rest)[..1] == [x] && ([x] + rest)[1..] == rest;
  }

  lemma PlainSplit(anchor: Message, rest: seq<Message>)
    requires anchor.role != System && SplitSummary(anchor.content).1 == "" && (rest != [] ==> !rest[0].injected)
    ensures SplitLayers([anchor] + rest) == Layers([], [anchor], HistorySummary(rest, ""), HistoryGroups(rest))
  {
    hide HasMarker, SplitSummary;
    var msgs := [anchor] + rest;
    AnchorOf([], anchor, rest);
    assert [] + [anchor] + rest == msgs && msgs[1..] == rest && rest[0..] == rest;
  }

  lemma NoSummaryInNothing()
    ensures SplitSummary("") == ("", "")
  {
    assert |MARKER| > 1;
  }

  lemma UncutGroups(groups: seq<Group>, before: int, config: ValidConfig)
    requires forall g: Group :: g in groups ==> |g| == 1 && g[0].content == ""
    ensures MicroGroups(groups, before, config) == groups
  {
    hide MicroText;
    forall i | 0 <= i < |groups| ensures MicroGroup(groups[i], config) == groups[i] {
      assert groups[i] in groups;
      assert groups[i] == [groups[i][0]];
    }
  }

  lemma FlattenThese()
    ensures Flatten([]) == [] && forall x: Message :: Flatten([[x]]) == [x]
    ensures Flatten([[RESULT], [NEXT]]) == [RESULT, NEXT]
  {
    forall x: Message ensures Flatten([[x]]) == [x] { FlattenCons([x], []); assert [[x]] + [] == [[x]]; }
    FlattenCons([RESULT], [[NEXT]]);
    assert [[RESULT]] + [[NEXT]] == [[RESULT], [NEXT]];
  }

  lemma HistoryOfThese()
    ensures HistoryGroups([CALL]) == [[CALL]] && HistorySummary([CALL], "") == ""
    ensures HistoryGroups([RESULT]) == [[RESULT]] && HistorySummary([RESULT], "") == ""
    ensures HistoryGroups([RESULT, NEXT]) == [[RESULT], [NEXT]] && HistorySummary([RESULT, NEXT], "") == ""
  {
    hide HasMarker;
    NoMarkerThere();
    forall x: Message ensures [x] + [] == [x] && [x][1..] == [] && ToolRun([]) == 0 {}
    HistoryNext(CALL, []);
    HistoryNext(RESULT, []);
    HistoryNext(NEXT, []);
    assert [RESULT] + [NEXT] == [RESULT, NEXT];
    HistoryNext(RESULT, [NEXT]);
    assert [[RESULT]] + [[NEXT]] == [[RESULT], [NEXT]];
  }

  lemma AnchorAlone(config: ValidConfig, m: Message)
    requires BlankMarked(m)
    ensures Simple(config, [m], m, []) && Simple(config, [m, CALL], m, [[CALL]])
  {
    hide HasMarker, SplitSummary, HistoryGroups, HistorySummary, SplitLayers, Flatten, MicroGroups;
    FlattenThese();
    HistoryOfThese();
    NoHistory();
    assert [m] + [] == [m] && [m] + [CALL] == [m, CALL];
    PlainSplit(m, []);
    PlainSplit(m, [CALL]);
    UncutGroups([], 0 - config.recentMessageGroups, config);
    UncutGroups([[CALL]], 1 - config.recentMessageGroups, config);
  }

  lemma NoHistory()
    ensures HistoryGroups([]) == [] && HistorySummary([], "") == ""
  {
  }

  lemma CallAnchors(config: ValidConfig)
    ensures Simple(config, [CALL, RESULT], CALL, [[RESULT]]) && Simple(config, [CALL, RESULT, NEXT], CALL, [[RESULT], [NEXT]])
  {
    hide HasMarker, SplitSummary, HistoryGroups, HistorySummary, SplitLayers, Flatten, MicroGroups;
    FlattenThese();
    HistoryOfThese();
    NoSummaryInNothing();
    assert [CALL] + [RESULT] == [CALL, RESULT] && [CALL] + [RESULT, NEXT] == [CALL, RESULT, NEXT];
    PlainSplit(CALL, [RESULT]);
    PlainSplit(CALL, [RESULT, NEXT]);
    UncutGroups([[RESULT]], 1 - config.recentMessageGroups, config);
    UncutGroups([[RESULT], [NEXT]], 2 - config.recentMessageGroups, config);
  }

  // Giving the anchor up.

  /** The compaction that keeps the one group and gives up the anchor. */
  function GiveUp(m: Message): Plan {
    Plan([[CALL]], [true], "", [], [m, CALL], [m, CALL], true)
  }

  lemma RemovesOnly(m: Message)
    requires BlankMarked(m)
    ensures RemoveSummaries([m, CALL]) == [CALL] && NoTools([m, CALL]) && LedByBlank([m, CALL]) && Marked([m, CALL])
  {
    hide HasMarker, SplitSummary;
    NoMarkerThere();
    assert [m, CALL][1..] == [CALL] && [CALL][1..] == [];
    assert FirstIsBlank([m, CALL], 0);
    assert [m, CALL][0].IsSummary();
    assert [CALL] + [] == [CALL] && [] + [CALL] == [CALL];
    assert RemoveSummaries([CALL]) == [CALL];
  }

  lemma CallIsOwed(m: Message)
    requires m.role == User
    ensures Good([m, CALL], multiset{"c"}) && forall ids :: !Good([CALL], ids)
  {
    AnchorOf([], m, [CALL]);
    assert [] + [m] + [CALL] == [m, CALL];
    AnchorOf([], CALL, []);
    assert [] + [CALL] + [] == [CALL];
    ScanAppend(CLEAR, [], m);
    ScanAppend(CLEAR, [m], CALL);
    assert [] + [m] == [m] && [m] + [CALL] == [m, CALL];
    assert IdsOf(CALL.calls) == ["c"];
  }

  lemma FittedGiveUp(cost: Message -> nat, limit: nat, m: Message)
    requires BlankMarked(m) && 0 < limit < Total(cost, [m, CALL])
    ensures Fitted(cost, limit, [m, CALL], [m, CALL], true, [CALL])
  {
    hide Total, BlankMarked, LedByBlank, Marked, RemoveSummaries;
    RemovesOnly(m);
    NothingCut([m, CALL]);
  }

  lemma ChosenOne(config: ValidConfig, cost: Message -> nat, toolTokens: nat, forced: bool, m: Message)
    requires Simple(config, [m, CALL], m, [[CALL]])
    ensures Chosen(config, cost, toolTokens, forced, [m, CALL], GiveUp(m))
  {
    hide Total, SplitLayers, MicroGroups, Flatten, Remaining, SummaryBudget;
    var groups, flags := [[CALL]], [true];
    assert groups[1..] == [] && flags[1..] == [];
    assert Pick(groups, flags) == groups;
    FlattenThese();
    forall remaining: nat ensures KeptWithin(cost, groups, flags, remaining) && Greedy(cost, groups, flags, remaining) {}
  }

  lemma PickOne()
    ensures Pick([[CALL]], [true]) == [[CALL]] && Flatten([[CALL]]) == [CALL] && Pick([[CALL]], Negate([true])) == []
  {
    var groups: seq<Group> := [[CALL]];
    FlattenThese();
    assert groups[1..] == [] && [true][1..] == [] && [false][1..] == [] && Negate([true]) == [false];
    assert [[CALL]] + [] == groups;
  }

  lemma NothingToTell()
    ensures SlotFor("", [], "", []) && SummarySlot([])
  {
    assert BuildSummary([]) == "";
  }

  lemma CompactedGiveUp(config: ValidConfig, m: Message)
    requires BlankMarked(m) && Simple(config, [m, CALL], m, [[CALL]])
    ensures Compacted(config, [m, CALL], [CALL], GiveUp(m))
  {
    hide SplitLayers, MicroGroups, BlankMarked, RemoveSummaries, HasMarker, SplitSummary, MergeSummary, TextCut, Rebuild;
    PickOne();
    NothingToTell();
    hide Pick, Negate, BuildSummary, Flatten, SlotFor;
    RemovesOnly(m);
    NothingCut([m, CALL]);
    RebuildParts(SplitLayers([m, CALL]), [], [CALL]);
    assert [] + [m] + [] + [CALL] == [m, CALL];
  }

  /** Where the summaries can be given up, an anchor that is an empty summary can, and the call behind it takes its place. */
  lemma {:induction false} LosesItsAnchor(config: ValidConfig, toolTokens: nat, forced: bool, m: Message)
    requires BlankMarked(m) && GivesUp(config, toolTokens, forced)
    ensures Good([m, CALL], multiset{"c"}) && forall ids :: !Good([CALL], ids)
    ensures Outcome(config, Price(Room(config, toolTokens), m), toolTokens, forced, [m, CALL], [CALL], GiveUp(m), NoError)
  {
    hide Compacted, Chosen, Fitted, Simple, Total, Controllable, BlankMarked, Price, Good;
    var cost := Price(Room(config, toolTokens), m);
    BlankIsUser(m);
    Prices(Room(config, toolTokens), m);
    CallIsOwed(m);
    AnchorAlone(config, m);
    CompactedGiveUp(config, m);
    ChosenOne(config, cost, toolTokens, forced, m);
    FittedGiveUp(cost, Room(config, toolTokens), m);
    CompactionBeforeHardLimit(config);
    ControllableIsCheaper(cost, [CALL]);
  }

  // The manager on this input.

  /** Appending brings a list of this form before the compaction as it is. */
  lemma Appends(config: ValidConfig, cost: Message -> nat, toolTokens: nat, ever: bool, before: seq<Message>, m: Message, after: seq<Message>,
                plan: Plan, err: ContextError, anchor: Message, groups: seq<Group>)
    requires Appended(config, cost, toolTokens, ever, before, m, after, plan, err) && StoredMessage(m, config) == m
    requires Simple(config, before + [m], anchor, groups)
    ensures Outcome(config, cost, toolTokens, false, before + [m], after, plan, err)
  {
    hide Outcome, SplitLayers, MicroGroups, Flatten;
    var msgs := before + [m];
    RebuildParts(SplitLayers(msgs), SummarySlotFor(""), Flatten(groups));
    assert [] + [anchor] + [] + Flatten(groups) == msgs;
    assert Microcompacted(config, msgs) == msgs;
  }

  lemma SlotIsPaidFor(cost: Message -> nat, anchor: Message, slot: seq<Message>)
    ensures slot != [] ==> Total(cost, [anchor] + slot) >= cost(slot[0])
  {
    TotalConcat(cost, [anchor], slot);
  }

  lemma ChosenGreedily(cost: Message -> nat, plan: Plan, groups: seq<Group>, remaining: nat, recent: nat)
    requires plan.Plan? && |plan.flags| == |plan.groups|
    ensures plan.groups == groups && ChoiceMade(cost, plan.groups, plan.flags, remaining, false, recent) ==>
      Greedy(cost, groups, plan.flags, remaining)
  {
  }

  /** No summary is cheap enough to be put behind the anchor. */
  lemma NoSlotFits(config: ValidConfig, cost: Message -> nat, toolTokens: nat, msgs: seq<Message>, anchor: Message, groups: seq<Group>,
                   after: seq<Message>, plan: Plan, err: ContextError)
    requires Outcome(config, cost, toolTokens, false, msgs, after, plan, err) && plan.Plan? && Simple(config, msgs, anchor, groups)
    requires forall x: Message :: x.role == User && !BlankMarked(x) ==> cost(x) > SummaryBudget(config, toolTokens)
    ensures plan.slot == [] && plan.groups == groups && |plan.flags| == |groups| && (groups != [] ==> plan.flags[|groups| - 1])
    ensures plan.candidate == [anchor] + Flatten(Pick(groups, plan.flags))
    ensures Greedy(cost, groups, plan.flags, Remaining(config, cost, toolTokens, [anchor]))
    ensures Fitted(cost, Room(config, toolTokens), plan.candidate, plan.trimmed, plan.removed, after)
  {
    hide SplitLayers, MicroGroups, Flatten, Fitted, Greedy, BlankMarked, Rebuild, SummaryBudget, Pick, Remaining, BestSlot, ChoiceMade,
      MergeSummary, Simple, Outcome;
    Unpacked(config, cost, toolTokens, msgs, anchor, groups, after, plan, err);
    ChosenGreedily(cost, plan, groups, Remaining(config, cost, toolTokens, [anchor]), config.recentMessageGroups);
    BestSlotFits(cost, [anchor], SummaryBudget(config, toolTokens), MergeSummary("", plan.next), plan.slot);
    SlotIsPaidFor(cost, anchor, plan.slot);
    RebuildParts(SplitLayers(msgs), [], Flatten(Pick(groups, plan.flags)));
    assert [] + [anchor] + [] + Flatten(Pick(groups, plan.flags)) == [anchor] + Flatten(Pick(groups, plan.flags));
  }

  /** What a compaction of such a list is made of. */
  lemma Unpacked(config: ValidConfig, cost: Message -> nat, toolTokens: nat, msgs: seq<Message>, anchor: Message, groups: seq<Group>,
                 after: seq<Message>, plan: Plan, err: ContextError)
    requires Outcome(config, cost, toolTokens, false, msgs, after, plan, err) && plan.Plan? && Simple(config, msgs, anchor, groups)
    ensures plan.groups == groups && |plan.flags| == |groups| && (groups != [] ==> plan.flags[|groups| - 1])
    ensures SplitLayers(msgs).system == [] && SplitLayers(msgs).anchor == [anchor]
    ensures SummarySlot(plan.slot) && plan.candidate == Rebuild(SplitLayers(msgs), plan.slot, Flatten(Pick(groups, plan.flags)))
    ensures ChoiceMade(cost, groups, plan.flags, Remaining(config, cost, toolTokens, [anchor]), false, config.recentMessageGroups)
    ensures BestSlot(cost, [anchor], SummaryBudget(config, toolTokens), MergeSummary("", plan.next), plan.slot)
    ensures Fitted(cost, Room(config, toolTokens), plan.candidate, plan.trimmed, plan.removed, after)
  {
    hide SplitLayers, MicroGroups, Flatten, Fitted, KeptWithin, SlotFor, TextCut, OnlyToolText, RemoveSummaries, Rebuild, SummaryBudget, Pick,
      Negate, Remaining, BestSlot, ChoiceMade, MergeSummary, SummarySlot;
    assert [] + [anchor] == [anchor];
  }

  /** A list that fits is left as it is. */
  lemma FitsAsItIs(cost: Message -> nat, limit: nat, candidate: seq<Message>, trimmed: seq<Message>, removed: bool, after: seq<Message>)
    requires Fitted(cost, limit, candidate, trimmed, removed, after) && Total(cost, candidate) <= limit
    ensures after == candidate && !removed
  {
    hide Total, TextCut, LedByBlank, Marked, ToolsEmpty;
  }

  lemma NoErrorBelow(config: ValidConfig, cost: Message -> nat, toolTokens: nat, msgs: seq<Message>)
    requires Total(cost, msgs) <= Room(config, toolTokens) && toolTokens < config.HardLimit()
    ensures LimitError(config, cost, toolTokens, msgs) == NoError
  {
    hide Total, Controllable;
    ControllableIsCheaper(cost, msgs);
  }

  /** The room these limits leave, and what the compaction aims at below it. */
  predicate Roomy(config: ValidConfig, toolTokens: nat) {
    config.CompactionLimit() > 0 && config.TargetLimit() <= config.HardLimit() && toolTokens + 2 <= config.HardLimit()
  }

  lemma Dear(config: ValidConfig, toolTokens: nat, m: Message)
    requires Roomy(config, toolTokens) && BlankMarked(m)
    ensures var cost := Price(Room(config, toolTokens), m);
            && (forall x: Message :: x.role == User && !BlankMarked(x) ==> cost(x) > SummaryBudget(config, toolTokens))
            && Remaining(config, cost, toolTokens, [CALL]) <= Room(config, toolTokens) - 1
  {
    hide BlankMarked;
    CompactionBeforeHardLimit(config);
    Prices(Room(config, toolTokens), m) by { BlankIsUser(m); }
  }

  /** A list of at most one group, within the room, comes through an append as it is. */
  lemma ComesThrough(config: ValidConfig, toolTokens: nat, ever: bool, m: Message, before: seq<Message>, next: Message,
                     after: seq<Message>, plan: Plan, err: ContextError, anchor: Message, groups: seq<Group>)
    requires Roomy(config, toolTokens) && BlankMarked(m) && err != Cancelled
    requires Appended(config, Price(Room(config, toolTokens), m), toolTokens, ever, before, next, after, plan, err)
    requires StoredMessage(next, config) == next && Simple(config, before + [next], anchor, groups) && |groups| <= 1
    requires Total(Price(Room(config, toolTokens), m), before + [next]) <= Room(config, toolTokens)
    ensures after == before + [next] && err == NoError
  {
    hide Appended, Price, BlankMarked, Simple, Total, Chosen, Fitted, Compacted, Controllable, Greedy, Remaining, SummaryBudget, Pick, Flatten;
    var cost, msgs := Price(Room(config, toolTokens), m), before + [next];
    Appends(config, cost, toolTokens, ever, before, next, after, plan, err, anchor, groups);
    if plan.Plan? {
      Dear(config, toolTokens, m);
      NoSlotFits(config, cost, toolTokens, msgs, anchor, groups, after, plan, err);
      AllPicked(groups, plan.flags);
      SimpleIs(config, msgs, anchor, groups);
      FitsAsItIs(cost, Room(config, toolTokens), plan.candidate, plan.trimmed, plan.removed, after);
    } else {
      NoPlanNoChange(config, msgs, after, plan);
    }
    NoErrorBelow(config, cost, toolTokens, msgs);
  }

  lemma AllPicked(groups: seq<Group>, flags: seq<bool>)
    requires |flags| == |groups| <= 1 && (groups != [] ==> flags[|groups| - 1])
    ensures Pick(groups, flags) == groups
  {
  }

  lemma SimpleIs(config: ValidConfig, msgs: seq<Message>, anchor: Message, groups: seq<Group>)
    requires Simple(config, msgs, anchor, groups)
    ensures msgs == [anchor] + Flatten(groups)
  {
  }

  lemma NoPlanNoChange(config: ValidConfig, before: seq<Message>, after: seq<Message>, plan: Plan)
    requires Compacted(config, before, after, plan) && plan.NoPlan?
    ensures after == before
  {
  }

  /** The first call does not fit beside the anchor, and the anchor is what goes. */
  lemma AnchorGoes(config: ValidConfig, toolTokens: nat, ever: bool, m: Message, after: seq<Message>, plan: Plan, err: ContextError)
    requires Roomy(config, toolTokens) && BlankMarked(m) && err != Cancelled
    requires Appended(config, Price(Room(config, toolTokens), m), toolTokens, ever, [m], CALL, after, plan, err)
    ensures after == [CALL] && err == NoError
  {
    hide Appended, Price, BlankMarked, Simple, Total, Chosen, Fitted, Compacted, Controllable, Greedy, Remaining, SummaryBudget, Pick, Flatten;
    var cost, room := Price(Room(config, toolTokens), m), Room(config, toolTokens);
    assert [m] + [CALL] == [m, CALL];
    BlankIsUser(m);
    Prices(room, m);
    AnchorAlone(config, m);
    Appends(config, cost, toolTokens, ever, [m], CALL, after, plan, err, m, [[CALL]]);
    CompactionBeforeHardLimit(config);
    Dear(config, toolTokens, m);
    NoSlotFits(config, cost, toolTokens, [m, CALL], m, [[CALL]], after, plan, err);
    AllPicked([[CALL]], plan.flags);
    SimpleIs(config, [m, CALL], m, [[CALL]]);
    FittedToCall(cost, room, m, plan.trimmed, plan.removed, after);
    NoErrorBelow(config, cost, toolTokens, [CALL]);
  }

  lemma FittedToCall(cost: Message -> nat, limit: nat, m: Message, trimmed: seq<Message>, removed: bool, after: seq<Message>)
    requires Fitted(cost, limit, [m, CALL], trimmed, removed, after) && BlankMarked(m)
    requires 0 < limit < Total(cost, [m, CALL]) && Total(cost, [CALL]) <= limit
    ensures after == [CALL]
  {
    hide Total, BlankMarked, LedByBlank, Marked, RemoveSummaries, TextCut, ToolsEmpty, NoTools;
    RemovesOnly(m);
  }

  /** Behind the call as anchor the result is a group of its own, and too much beside the newest one. */
  lemma ResultGoes(config: ValidConfig, toolTokens: nat, ever: bool, m: Message, after: seq<Message>, plan: Plan, err: ContextError)
    requires Roomy(config, toolTokens) && BlankMarked(m) && err != Cancelled
    requires Appended(config, Price(Room(config, toolTokens), m), toolTokens, ever, [CALL, RESULT], NEXT, after, plan, err)
    ensures after == [CALL, NEXT] && err == NoError
  {
    hide Appended, Price, BlankMarked, Simple, Total, Chosen, Fitted, Compacted, Controllable, Greedy, Remaining, SummaryBudget, Pick, Flatten;
    var cost, room, groups := Price(Room(config, toolTokens), m), Room(config, toolTokens), [[RESULT], [NEXT]];
    assert [CALL, RESULT] + [NEXT] == [CALL, RESULT, NEXT];
    BlankIsUser(m);
    Prices(room, m);
    CallAnchors(config);
    Appends(config, cost, toolTokens, ever, [CALL, RESULT], NEXT, after, plan, err, CALL, groups);
    CompactionBeforeHardLimit(config);
    Dear(config, toolTokens, m);
    NoSlotFits(config, cost, toolTokens, [CALL, RESULT, NEXT], CALL, groups, after, plan, err);
    NewestOnly(cost, plan.flags, Remaining(config, cost, toolTokens, [CALL]));
    assert [CALL] + [NEXT] == [CALL, NEXT];
    FitsAsItIs(cost, room, plan.candidate, plan.trimmed, plan.removed, after);
    NoErrorBelow(config, cost, toolTokens, [CALL, NEXT]);
  }

  lemma NewestOnly(cost: Message -> nat, flags: seq<bool>, remaining: int)
    requires |flags| == 2 && flags[1] && Greedy(cost, [[RESULT], [NEXT]], flags, remaining)
    requires Total(cost, [NEXT]) + Total(cost, [RESULT]) > remaining
    ensures Flatten(Pick([[RESULT], [NEXT]], flags)) == [NEXT]
  {
    hide Total, Flatten;
    FlattenThese();
    var groups: seq<Group> := [[RESULT], [NEXT]];
    assert groups[1..] == [[NEXT]] && flags[1..] == [true];
    var tail: seq<Group> := [[NEXT]];
    assert tail[1..] == [] && [true][1..] == [];
    assert Pick(tail, [true]) == tail;
    assert [] + tail == tail;
  }

  /**
   * The manager itself loses the result of a call: at any limits that leave room for two tokens, a prompt that is an
   * empty summary is given up for the first call, and the result of that call for the next one. No error is reported,
   * and nothing that is appended later makes the context paired again.
   */
  method LosesItsResult(config: Config, toolTokens: nat, m: Message) returns (manager: MessageContextManager, err: ContextError)
    requires BlankMarked(m) && Roomy(config.WithDefaults(), toolTokens)
    ensures err == Cancelled || err == NoError
    ensures err == NoError ==> manager.canonical == [m, CALL, RESULT, NEXT] && manager.active == [CALL, NEXT]
    ensures Scan(CLEAR, [m, CALL, RESULT, NEXT]) == Owed(multiset{"d"}) && forall more :: !Paired([CALL, NEXT] + more)
  {
    hide Appended, Outcome, Roomy, BlankMarked, Price, Simple, Total, Scan, Continued, Good, MayFollow;
    ghost var room := Room(config.WithDefaults(), toolTokens);
    var limits := config.WithDefaults();
    var cost := Price(Max(0, limits.HardLimit() - toolTokens), m);
    RunFacts(limits, toolTokens, m);
    manager := new MessageContextManager(config, cost, toolTokens, groups => None);
    ghost var plan, ever;
    ever := manager.microcompacts > 0;
    err, plan := manager.AddMessageContext(m, multiset{}, multiset{});
    if err == Cancelled { return; }
    assert [] + [m] == [m];
    ComesThrough(limits, toolTokens, ever, m, [], m, manager.active, plan, err, m, []);
    ever := manager.microcompacts > 0;
    err, plan := manager.AddMessageContext(CALL, multiset{}, multiset{});
    if err == Cancelled { return; }
    AnchorGoes(limits, toolTokens, ever, m, manager.active, plan, err);
    ever := manager.microcompacts > 0;
    err, plan := manager.AddMessageContext(RESULT, multiset{}, multiset{});
    if err == Cancelled { return; }
    assert [CALL] + [RESULT] == [CALL, RESULT];
    ComesThrough(limits, toolTokens, ever, m, [CALL], RESULT, manager.active, plan, err, CALL, [[RESULT]]);
    ever := manager.microcompacts > 0;
    err, plan := manager.AddMessageContext(NEXT, multiset{}, multiset{});
    if err == Cancelled { return; }
    ResultGoes(limits, toolTokens, ever, m, manager.active, plan, err);
  }

  lemma RunFacts(config: ValidConfig, toolTokens: nat, m: Message)
    requires Roomy(config, toolTokens) && BlankMarked(m)
    ensures Simple(config, [m], m, []) && Simple(config, [CALL, RESULT], CALL, [[RESULT]])
    ensures StoredMessage(m, config) == m && StoredMessage(RESULT, config) == RESULT
    ensures var cost, room := Price(Room(config, toolTokens), m), Room(config, toolTokens);
            Total(cost, [m]) <= room && Total(cost, [CALL, RESULT]) <= room
    ensures Scan(CLEAR, [m, CALL, RESULT, NEXT]) == Owed(multiset{"d"}) && forall more :: !Paired([CALL, NEXT] + more)
  {
    hide BlankMarked, Simple, Total, Scan;
    BlankIsUser(m);
    AnchorAlone(config, m);
    CallAnchors(config);
    Prices(Room(config, toolTokens), m);
    CallWithoutResult();
    ResultThenCall(m);
  }

  lemma ResultThenCall(m: Message)
    requires m.role == User
    ensures Scan(CLEAR, [m, CALL, RESULT, NEXT]) == Owed(multiset{"d"})
  {
    assert IdsOf(CALL.calls) == ["c"] && IdsOf(NEXT.calls) == ["d"] && multiset(["c"]) - multiset{"c"} == multiset{};
    assert [m, CALL, RESULT, NEXT] == [m] + [CALL] + [RESULT] + [NEXT];
    ScanAppend(CLEAR, [], m);
    assert [] + [m] == [m];
    ScanAppend(CLEAR, [m], CALL);
    ScanAppend(CLEAR, [m] + [CALL], RESULT);
    ScanAppend(CLEAR, [m] + [CALL] + [RESULT], NEXT);
  }

  lemma CallWithoutResult()
    ensures forall more :: !Paired([CALL, NEXT] + more)
  {
    assert IdsOf(CALL.calls)[0] == "c" && "c" in CALL.CallIds();
    ScanAppend(CLEAR, [], CALL);
    ScanAppend(CLEAR, [CALL], NEXT);
    assert [] + [CALL] == [CALL] && [CALL] + [NEXT] == [CALL, NEXT];
    forall more ensures !Paired([CALL, NEXT] + more) {
      ScanConcat(CLEAR, [CALL, NEXT], more);
      ScanBroken(more);
    }
  }

  /** The default ratios leave such room at a capacity of a thousand tokens: the limits are 700, 800 and 850. */
  lemma DefaultsAreRoomy()
    ensures Roomy(Config(1000, 0.0, 0.0, 0.0, -1.0, 0.0, -1, 0, 0, 0).WithDefaults(), 0)
  {
  }

  lemma MarkerBegins()
    ensures |MARKER| > 3 && MARKER[0] == '#' && MARKER[1] == '#' && MARKER[2] == ' ' && MARKER[3] == 'C'
  {
  }

  lemma WindowAt(s: string, sub: string, i: nat, k: nat)
    requires OccursAt(s, sub, i) && k < |sub|
    ensures s[i + k] == sub[k]
  {
    assert s[i..i + |sub|][k] == s[i + k];
  }

  const INPUT: string := "## Input\n"

  lemma InputBegins()
    ensures |INPUT| == 9 && INPUT[0] == '#' && INPUT[1] == '#' && INPUT[2] == ' ' && INPUT[3] == 'I'
    ensures forall k :: 2 <= k < 9 ==> INPUT[k] != '#'
  {
  }

  /** A rendered input that ends in the marker is such an anchor. */
  lemma {:induction false} MarkerAtTheEnd()
    ensures BlankMarked(Plain(User, INPUT + MARKER))
  {
    MarkerBegins();
    InputBegins();
    var content := INPUT + MARKER;
    hide MARKER, INPUT;
    assert OccursAt(content, MARKER, |INPUT|);
    var i := IndexFrom(content, MARKER, 0);
    assert OccursAt(content, MARKER, i) && i <= |INPUT|;
    WindowAt(content, MARKER, i, 0);
    WindowAt(content, MARKER, i, 1);
    WindowAt(content, MARKER, i, 3);
    assert forall k :: 0 <= k < |INPUT| ==> content[k] == INPUT[k];
    assert i == |INPUT|;
    assert content[i + |MARKER|..] == "";
  }
}
