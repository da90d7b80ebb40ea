/** The loops that cut message text down to a token limit, for any estimator of message lists. */
module Trimming {
  import opened Text
  import opened Messages
  import opened ContextLayers
  import opened Pairing

  type Estimator = seq<Message> -> int

  // Tool output.

  predicate OnlyToolText(a: seq<Message>, b: seq<Message>) {
    |a| == |b| && forall i :: 0 <= i < |a| ==> if a[i].role == Tool then SameShape(a[i], b[i]) else a[i] == b[i]
  }

  predicate ToolsEmpty(msgs: seq<Message>) {
    forall i :: 0 <= i < |msgs| && msgs[i].role == Tool ==> msgs[i].content == ""
  }

  function ToolText(msgs: seq<Message>): (n: nat) {
    if msgs == [] then 0 else (if msgs[0].role == Tool then |msgs[0].content| else 0) + ToolText(msgs[1..])
  }

  lemma {:induction false} ToolTextUpdate(msgs: seq<Message>, i: nat, text: string)
    requires i < |msgs| && msgs[i].role == Tool
    ensures ToolText(msgs[i := msgs[i].WithContent(text)]) == ToolText(msgs) - |msgs[i].content| + |text|
    decreases msgs
  {
    var changed := msgs[i := msgs[i].WithContent(text)];
    if i > 0 {
      ToolTextUpdate(msgs[1..], i - 1, text);
      assert changed[1..] == msgs[1..][i - 1 := msgs[i].WithContent(text)];
    } else {
      assert changed[1..] == msgs[1..];
    }
  }

  method LongestTool(messages: seq<Message>) returns (index: int, longest: nat)
    ensures index >= 0 ==> index < |messages| && messages[index].role == Tool && longest == |messages[index].content| > 0
    ensures index < 0 ==> ToolsEmpty(messages)
    ensures forall i :: 0 <= i < |messages| && messages[i].role == Tool ==> |messages[i].content| <= longest
  {
    index, longest := -1, 0;
    for i := 0 to |messages|
      invariant index >= 0 ==> index < i && messages[index].role == Tool && longest == |messages[index].content| > 0
      invariant index < 0 ==> longest == 0
      invariant forall j :: 0 <= j < i && messages[j].role == Tool ==> |messages[j].content| <= longest
    {
      if messages[i].role == Tool && |messages[i].content| > longest {
        longest, index := |messages[i].content|, i;
      }
    }
  }

  function CutAt(messages: seq<Message>, index: nat, length: int): seq<Message>
    requires index < |messages|
  {
    messages[index := messages[index].WithContent(Truncate(messages[index].content, length))]
  }

  /** The binary search for a cut that fits. The cost need not be monotone in the cut. */
  method SearchCut(messages: seq<Message>, estimator: Estimator, maxTokens: int, index: nat, longest: nat)
    returns (best: int)
    requires index < |messages| && longest > 0
    ensures -1 <= best < longest
    ensures best >= 0 ==> estimator(CutAt(messages, index, best)) <= maxTokens
  {
    var low, high := 0, longest - 1;
    best := -1;
    while low <= high
      invariant 0 <= low && high < longest && -1 <= best < longest
      invariant best >= 0 ==> estimator(CutAt(messages, index, best)) <= maxTokens
      decreases high - low
    {
      var mid := low + (high - low) / 2;
      if estimator(CutAt(messages, index, mid)) <= maxTokens {
        best := mid;
        low := mid + 1;
      } else {
        high := mid - 1;
      }
    }
  }

  /** trimToolMessagesToLimit */
  method TrimToolMessages(messages: seq<Message>, estimator: Estimator, maxTokens: int)
    returns (result: seq<Message>, ok: bool)
    ensures OnlyToolText(messages, result)
    ensures ok <==> estimator(result) <= maxTokens
    ensures !ok ==> ToolsEmpty(result)
    ensures estimator(messages) <= maxTokens ==> result == messages
  {
    result := messages;
    while estimator(result) > maxTokens
      invariant OnlyToolText(messages, result)
      invariant estimator(messages) <= maxTokens ==> result == messages
      decreases ToolText(result)
    {
      var index, longest := LongestTool(result);
      if index < 0 || longest == 0 { return result, false; }
      var best := SearchCut(result, estimator, maxTokens, index, longest);
      var text := if best < 0 then "" else Truncate(result[index].content, best);
      assert result[index := result[index].WithContent(result[index].content)] == result;
      assert best != 0;
      ToolTextUpdate(result, index, text);
      result := result[index := result[index].WithContent(text)];
    }
    ok := true;
  }

  // Compaction summaries.

  /** `b` is `a` with the text of some summary messages cut; none of them turns into an empty summary. */
  predicate OnlySummaryText(a: seq<Message>, b: seq<Message>) {
    && |a| == |b|
    && forall i :: 0 <= i < |a| ==>
         a[i] == b[i] || (a[i].IsSummary() && SameShape(a[i], b[i]) && (!BlankMarked(a[i]) ==> !BlankMarked(b[i])))
  }

  function SummaryCount(msgs: seq<Message>): (n: nat)
    ensures n == 0 <==> forall i :: 0 <= i < |msgs| ==> !msgs[i].IsSummary()
  {
    if msgs == [] then 0
    else
      assert forall i :: 1 <= i < |msgs| ==> msgs[i] == msgs[1..][i - 1];
      (if msgs[0].IsSummary() then 1 else 0) + SummaryCount(msgs[1..])
  }

  lemma {:induction false} SummaryCountUpdate(msgs: seq<Message>, i: nat, m: Message)
    requires i < |msgs|
    ensures SummaryCount(msgs[i := m]) ==
            SummaryCount(msgs) - (if msgs[i].IsSummary() then 1 else 0) + (if m.IsSummary() then 1 else 0)
    decreases msgs
  {
    hide HasMarker;
    if i > 0 {
      SummaryCountUpdate(msgs[1..], i - 1, m);
      assert msgs[i := m][1..] == msgs[1..][i - 1 := m];
    } else {
      assert msgs[i := m][1..] == msgs[1..];
    }
  }

  lemma {:induction false} BehindFirstMarker(front: string, marker: string, s: string)
    requires s != "" && !IsSpace(s[|s| - 1])
    ensures var text := front + marker + s;
            var i := IndexFrom(text, marker, 0);
            0 <= i <= |front| && Trim(text[i + |marker|..]) != ""
  {
    var text := front + marker + s;
    assert OccursAt(text, marker, |front|);
    var behind := text[IndexFrom(text, marker, 0) + |marker|..];
    assert behind[|behind| - 1] == s[|s| - 1];
    NotBlank(behind);
  }

  lemma Reassociate(a: string, b: string, c: string, d: string)
    ensures a + (b + c + d) == (a + b) + c + d
  {
  }

  /** A summary written behind any base is found again, so it is not blank. */
  lemma {:induction false} AppendedSummaryNotBlank(base: string, summary: string)
    requires Trim(summary) != ""
    ensures SplitSummary(AppendSummary(base, summary)).1 != ""
  {
    hide Trim, IsSpace, PREAMBLE, MARKER;
    var s, b := Trim(summary), Trim(base);
    TrimmedIffTrimKeeps(summary);
    var lead := PREAMBLE + "\n\n";
    var front := if b == "" then lead else b + "\n\n" + lead;
    Reassociate(b + "\n\n", lead, MARKER, s);
    BehindFirstMarker(front, MARKER, s);
  }

  lemma {:induction false} NotBlank(s: string)
    requires s != "" && !IsSpace(s[|s| - 1])
    ensures Trim(s) != ""
  {
    var k := TrimLeftIsSuffix(s);
    assert k < |s|;
    assert TrimLeft(s)[|s| - k - 1] == s[|s| - 1];
  }

  /** Writing back the base and any part of the summary keeps a real summary real, or removes the marker. */
  lemma {:induction false} RewrittenSummary(m: Message, part: string)
    requires m.IsSummary()
    ensures var base := SplitSummary(m.content).0;
            && !HasMarker(base) && Trim(base) == base
            && !BlankMarked(m.WithContent(base))
            && !BlankMarked(m.WithContent(AppendSummary(base, part)))
  {
    SplitBaseHasNoMarker(m.content);
    var base := SplitSummary(m.content).0;
    TrimIdempotent(m.content[..IndexFrom(m.content, MARKER, 0)]);
    if Trim(part) != "" {
      AppendedSummaryNotBlank(base, part);
    }
  }

  method FirstSummary(messages: seq<Message>) returns (index: int)
    ensures index >= 0 ==> index < |messages| && messages[index].IsSummary()
    ensures forall i :: 0 <= i < |messages| && messages[i].IsSummary() ==> 0 <= index <= i
  {
    for i := 0 to |messages|
      invariant forall j :: 0 <= j < i ==> !messages[j].IsSummary()
    {
      if messages[i].IsSummary() { return i; }
    }
    return -1;
  }

  method SearchSummaryCut(messages: seq<Message>, estimator: Estimator, maxTokens: int, index: nat, base: string, summary: string)
    returns (best: int)
    requires index < |messages|
    ensures -1 <= best <= |summary|
    ensures best >= 0 ==>
      estimator(messages[index := messages[index].WithContent(AppendSummary(base, summary[..best]))]) <= maxTokens
  {
    hide AppendSummary;
    var low, high := 0, |summary|;
    best := -1;
    while low <= high
      invariant 0 <= low && high <= |summary| && -1 <= best <= |summary|
      invariant best >= 0 ==>
        estimator(messages[index := messages[index].WithContent(AppendSummary(base, summary[..best]))]) <= maxTokens
      decreases high - low
    {
      var mid := low + (high - low) / 2;
      if estimator(messages[index := messages[index].WithContent(AppendSummary(base, summary[..mid]))]) <= maxTokens {
        best := mid;
        low := mid + 1;
      } else {
        high := mid - 1;
      }
    }
  }

  /** The first message that carries the marker is an empty summary; what follows it is not looked at. */
  predicate FirstIsBlank(msgs: seq<Message>, i: nat) {
    i < |msgs| && BlankMarked(msgs[i]) && forall k :: 0 <= k < i ==> !msgs[k].IsSummary()
  }

  ghost predicate LedByBlank(msgs: seq<Message>) {
    exists i :: FirstIsBlank(msgs, i)
  }

  lemma NotLedByBlank(msgs: seq<Message>, i: nat)
    requires i < |msgs| && msgs[i].IsSummary() && SplitSummary(msgs[i].content).1 != ""
    requires forall k :: 0 <= k < |msgs| && msgs[k].IsSummary() ==> i <= k
    ensures !LedByBlank(msgs)
  {
    hide SplitSummary, HasMarker;
    forall k: nat ensures !FirstIsBlank(msgs, k) {}
  }

  lemma BlankAt(msgs: seq<Message>, i: nat)
    requires i < |msgs| && msgs[i].IsSummary() && SplitSummary(msgs[i].content).1 == ""
    requires forall k :: 0 <= k < |msgs| && msgs[k].IsSummary() ==> i <= k
    ensures LedByBlank(msgs)
  {
    assert FirstIsBlank(msgs, i);
    hide SplitSummary, HasMarker;
  }

  /** trimCompactionSummaryToLimit */
  method TrimCompactionSummary(messages: seq<Message>, estimator: Estimator, maxTokens: int)
    returns (result: seq<Message>, ok: bool)
    ensures OnlySummaryText(messages, result)
    ensures ok <==> estimator(result) <= maxTokens
    ensures !ok ==> (forall i :: 0 <= i < |result| ==> !result[i].IsSummary()) || LedByBlank(result)
    ensures estimator(messages) <= maxTokens || LedByBlank(messages) ==> result == messages
  {
    result := messages;
    while estimator(result) > maxTokens
      invariant OnlySummaryText(messages, result)
      invariant estimator(messages) <= maxTokens || LedByBlank(messages) ==> result == messages
      decreases SummaryCount(result) + if estimator(result) > maxTokens then 1 else 0
    {
      hide AppendSummary, SplitSummary, HasMarker, FirstIsBlank, BlankMarked, SummaryCount, OnlySummaryText, LedByBlank;
      var index := FirstSummary(result);
      if index < 0 { return result, false; }
      if SplitSummary(result[index].content).1 == "" {
        BlankAt(result, index);
        return result, false;
      }
      assert !LedByBlank(result) by { NotLedByBlank(result, index); }
      var (base, summary) := SplitSummary(result[index].content);
      var best := SearchSummaryCut(result, estimator, maxTokens, index, base, summary);
      var content := if best < 0 then base else AppendSummary(base, summary[..best]);
      RewrittenSummary(result[index], if best < 0 then "" else summary[..best]);
      SummaryCountUpdate(result, index, result[index].WithContent(content));
      result := result[index := result[index].WithContent(content)];
    }
    ok := true;
  }

  // Removing summaries.

  /** removeCompactionSummary */
  function RemoveSummaries(msgs: seq<Message>): (r: seq<Message>)
    ensures forall m :: m in r <==> m in msgs && !m.IsSummary()
  {
    if msgs == [] then []
    else (if msgs[0].IsSummary() then [] else [msgs[0]]) + RemoveSummaries(msgs[1..])
  }

  lemma {:induction false} RemoveAppend(msgs: seq<Message>, m: Message)
    ensures RemoveSummaries(msgs + [m]) == RemoveSummaries(msgs) + (if m.IsSummary() then [] else [m])
    decreases msgs
  {
    hide HasMarker;
    if msgs == [] {
      assert [] + [m] == [m] && [m][1..] == [];
    } else {
      assert (msgs + [m])[1..] == msgs[1..] + [m];
      RemoveAppend(msgs[1..], m);
    }
  }

  method RemoveCompactionSummary(messages: seq<Message>) returns (result: seq<Message>)
    ensures result == RemoveSummaries(messages)
  {
    hide HasMarker;
    result := [];
    for i := 0 to |messages|
      invariant result == RemoveSummaries(messages[..i])
    {
      RemoveAppend(messages[..i], messages[i]);
      assert messages[..i] + [messages[i]] == messages[..i + 1];
      if !messages[i].IsSummary() { result := result + [messages[i]]; }
    }
    assert messages[..|messages|] == messages;
  }

  /** A summary message settles nothing and owes nothing. */
  lemma {:induction false} RemoveScans(debt: Debt, msgs: seq<Message>)
    requires !Scan(debt, msgs).Broken?
    requires debt == CLEAR || msgs == [] || !msgs[0].IsSummary()
    ensures Scan(debt, RemoveSummaries(msgs)) == Scan(debt, msgs)
    decreases msgs
  {
    hide HasMarker;
    if msgs != [] {
      var next, rest := Step(debt, msgs[0]), msgs[1..];
      if rest != [] && rest[0].IsSummary() { NotBrokenHead(next, rest); }
      RemoveScans(next, rest);
      if msgs[0].IsSummary() {
        assert [] + RemoveSummaries(rest) == RemoveSummaries(rest);
      } else {
        assert ([msgs[0]] + RemoveSummaries(rest))[1..] == RemoveSummaries(rest);
      }
    }
  }

  lemma RemoveHead(msgs: seq<Message>)
    requires msgs != [] && !msgs[0].IsSummary()
    ensures RemoveSummaries(msgs) == [msgs[0]] + RemoveSummaries(msgs[1..])
  {
  }

  /** The first `n` messages stay in place when none of them is a summary. */
  lemma {:induction false} RemoveKeepsFront(msgs: seq<Message>, n: nat)
    requires n <= |msgs| && forall i :: 0 <= i < n ==> !msgs[i].IsSummary()
    ensures n <= |RemoveSummaries(msgs)| && RemoveSummaries(msgs)[..n] == msgs[..n]
    ensures n == 0 || RemoveSummaries(msgs)[n - 1] == msgs[n - 1]
    decreases n
  {
    hide Message.IsSummary;
    if n > 0 {
      var rest := msgs[1..];
      forall i | 0 <= i < n - 1 ensures !rest[i].IsSummary() { assert rest[i] == msgs[i + 1]; }
      RemoveKeepsFront(rest, n - 1);
      RemoveHead(msgs);
      hide RemoveSummaries;
      assert msgs[..n] == [msgs[0]] + rest[..n - 1];
    }
  }

  // What all three do to a context.

  /** Tool output and summary text may shrink; everything else stays. */
  predicate TextCut(a: seq<Message>, b: seq<Message>) {
    && |a| == |b|
    && forall i :: 0 <= i < |a| ==>
         || a[i] == b[i]
         || (a[i].role == Tool && SameShape(a[i], b[i]))
         || (a[i].IsSummary() && SameShape(a[i], b[i]) && (!BlankMarked(a[i]) ==> !BlankMarked(b[i])))
  }

  lemma {:induction false} CutsCompose(a: seq<Message>, b: seq<Message>, c: seq<Message>)
    requires OnlyToolText(a, b) && OnlySummaryText(b, c)
    ensures TextCut(a, c)
  {
    hide HasMarker, SplitSummary;
    forall i | 0 <= i < |a| ensures
         || a[i] == c[i]
         || (a[i].role == Tool && SameShape(a[i], c[i]))
         || (a[i].IsSummary() && SameShape(a[i], c[i]) && (!BlankMarked(a[i]) ==> !BlankMarked(c[i])))
    {
      assert b[i] == c[i] || b[i].IsSummary();
    }
  }

  /** The system prompt stays, and so does an anchor that is no summary itself. */
  predicate AnchorHeld(a: seq<Message>, b: seq<Message>) {
    var n := SystemCount(a);
    && n <= |b| && b[..n] == a[..n]
    && (HasAnchor(a) && !a[n].IsSummary() ==> HasAnchor(b) && SystemCount(b) == n && b[n] == a[n])
  }

  lemma {:induction false} AnchorIsNoTool(msgs: seq<Message>, ids: multiset<string>)
    requires Good(msgs, ids) && HasAnchor(msgs)
    ensures msgs[SystemCount(msgs)].role != Tool
  {
    hide HasMarker;
    var n := SystemCount(msgs);
    ScanConcat(CLEAR, msgs[..n], msgs[n..]);
    assert msgs == msgs[..n] + msgs[n..];
    NoCallersScan(msgs[..n]);
    ScanBroken(msgs[n..]);
    NotBrokenHead(CLEAR, msgs[n..]);
  }

  lemma {:induction false} TextCutKeepsGood(a: seq<Message>, b: seq<Message>, ids: multiset<string>)
    requires Good(a, ids) && TextCut(a, b)
    ensures Good(b, ids) && SystemCount(b) == SystemCount(a) && b[..SystemCount(a)] == a[..SystemCount(a)]
    ensures PlainAnchor(a) ==> PlainAnchor(b)
    ensures StableAnchor(a) ==> StableAnchor(b) && AnchorHeld(a, b)
  {
    hide HasMarker, SplitSummary;
    var n := SystemCount(a);
    ScanSameShapes(CLEAR, a, b);
    QuietSameShapes(a, b);
    assert forall i :: 0 <= i < |a| ==> SameShape(a[i], b[i]) && a[i].role == b[i].role;
    SystemCountIs(b, n);
    if HasAnchor(a) { AnchorIsNoTool(a, ids); }
  }

  lemma {:induction false} RemoveKeepsAnchor(a: seq<Message>)
    requires HasAnchor(a) && !a[SystemCount(a)].IsSummary()
    ensures AnchorHeld(a, RemoveSummaries(a)) && HasAnchor(RemoveSummaries(a))
  {
    hide HasMarker, SplitSummary;
    var n, b := SystemCount(a), RemoveSummaries(a);
    RemoveKeepsFront(a, n + 1);
    RemoveKeepsFront(a, n);
    forall i | 0 <= i < n ensures b[i].role == System { assert b[..n][i] == a[i]; }
    SystemCountIs(b, n);
  }

  lemma {:induction false} RemoveLeavesSystem(a: seq<Message>)
    requires StableAnchor(a) && (HasAnchor(a) ==> a[SystemCount(a)].IsSummary())
    ensures RemoveSummaries(a) == a[..SystemCount(a)] && !HasAnchor(RemoveSummaries(a))
  {
    hide HasMarker, SplitSummary;
    var n := SystemCount(a);
    var system := a[..n];
    RemoveFromPlain(system);
    if HasAnchor(a) {
      assert a == system + [a[n]];
      RemoveAppend(system, a[n]);
    } else {
      assert a == system;
    }
    SystemCountIs(system, n);
  }

  lemma {:induction false} RemoveFromPlain(msgs: seq<Message>)
    requires forall i :: 0 <= i < |msgs| ==> !msgs[i].IsSummary()
    ensures RemoveSummaries(msgs) == msgs
    decreases msgs
  {
    hide HasMarker;
    if msgs != [] { RemoveFromPlain(msgs[1..]); }
  }

  lemma {:induction false} RemoveKeepsGood(a: seq<Message>, ids: multiset<string>)
    requires Good(a, ids) && StableAnchor(a)
    ensures var b := RemoveSummaries(a);
            Good(b, ids) && StableAnchor(b) && PlainAnchor(b) && AnchorHeld(a, b)
  {
    hide HasMarker, SplitSummary, RemoveSummaries;
    var b := RemoveSummaries(a);
    RemoveScans(CLEAR, a);
    forall i | 0 <= i < |b| && b[i].injected ensures !b[i].IsCaller() { assert b[i] in b; }
    if HasAnchor(a) && !a[SystemCount(a)].IsSummary() {
      RemoveKeepsAnchor(a);
    } else {
      RemoveLeavesSystem(a);
    }
  }

  // Fitting a new summary.

  /** A longer piece of summary text never makes its message cheaper. */
  ghost predicate MonotoneInSummary(estimator: Estimator, base: seq<Message>, summary: string) {
    forall i, j {:trigger summary[..i], summary[..j]} :: 0 <= i <= j <= |summary| ==>
      estimator(base + [SummaryMessage(summary[..i])]) <= estimator(base + [SummaryMessage(summary[..j])])
  }

  predicate PrefixFits(summary: string, base: seq<Message>, estimator: Estimator, maxTokens: int, k: nat)
    requires k <= |summary|
  {
    estimator(base + [SummaryMessage(summary[..k])]) <= maxTokens
  }

  /** fitCompactionSummary: the longest piece of the summary that fits behind `base`. */
  method FitCompactionSummary(summary: string, base: seq<Message>, estimator: Estimator, maxTokens: int)
    returns (best: seq<Message>, ghost length: nat)
    ensures best == [] || (1 <= length <= |summary| && best == [SummaryMessage(summary[..length])])
    ensures best != [] ==> !Blank(summary) && maxTokens > 0 && PrefixFits(summary, base, estimator, maxTokens, length)
    ensures best != [] && MonotoneInSummary(estimator, base, summary) ==>
      forall k :: length < k <= |summary| ==> !PrefixFits(summary, base, estimator, maxTokens, k)
    ensures best == [] && !Blank(summary) && maxTokens > 0 && MonotoneInSummary(estimator, base, summary) ==>
      forall k :: 1 <= k <= |summary| ==> !PrefixFits(summary, base, estimator, maxTokens, k)
  {
    hide AppendSummary;
    best, length := [], 0;
    if Blank(summary) || maxTokens <= 0 { return; }
    var low, high := 1, |summary|;
    while low <= high
      invariant 1 <= low <= |summary| + 1 && low - 1 <= high <= |summary|
      invariant if best == [] then length == 0 && low == 1 else 1 <= length == low - 1 && best == [SummaryMessage(summary[..length])]
      invariant best != [] ==> PrefixFits(summary, base, estimator, maxTokens, length)
      invariant MonotoneInSummary(estimator, base, summary) ==>
        forall k :: high < k <= |summary| ==> !PrefixFits(summary, base, estimator, maxTokens, k)
      decreases high - low
    {
      var mid := low + (high - low) / 2;
      var message := SummaryMessage(summary[..mid]);
      if estimator(base + [message]) <= maxTokens {
        best, length := [message], mid;
        low := mid + 1;
      } else {
        high := mid - 1;
      }
    }
  }

  // The default estimator.

  /** estimateContextText summed over the fields of a message; `callTokens` prices the marshalled calls. */
  function MessageTokens(m: Message, callTokens: seq<ToolCall> -> nat): nat {
    Estimate(RoleName(m.role)) + Estimate(m.content) + 4 + Estimate(m.teamId)
    + (if m.calls != [] then callTokens(m.calls) else 0) + Estimate(m.callId) + Estimate(m.toolName)
  }

  function RoleName(role: Role): string {
    match role
    case System => "system"
    case User => "user"
    case Assistant => "assistant"
    case Tool => "tool"
  }

  function Total(cost: Message -> nat, msgs: seq<Message>): (tokens: nat) {
    if msgs == [] then 0 else cost(msgs[0]) + Total(cost, msgs[1..])
  }

  lemma {:induction false} TotalConcat(cost: Message -> nat, a: seq<Message>, b: seq<Message>)
    ensures Total(cost, a + b) == Total(cost, a) + Total(cost, b)
    decreases a
  {
    if a == [] {
      assert a + b == b;
    } else {
      assert (a + b)[1..] == a[1..] + b;
      TotalConcat(cost, a[1..], b);
    }
  }

  lemma {:induction false} TrimRightOfPrefix(s: string, t: string)
    requires s <= t
    ensures TrimRight(s) <= TrimRight(t)
  {
    TrimRightEnds(s);
    TrimRightEnds(t);
    var r := |TrimRight(s)|;
    assert r > 0 ==> TrimRight(s)[r - 1] == t[r - 1];
  }

  lemma {:induction false} TrimLeftOfPrefix(s: string, t: string)
    requires s <= t
    ensures TrimLeft(s) <= TrimLeft(t)
    decreases s
  {
    if s != "" && IsSpace(s[0]) { TrimLeftOfPrefix(s[1..], t[1..]); }
  }

  /** Trimming keeps the order of prefixes, so a longer piece of summary makes a longer message. */
  lemma {:induction false} SummaryPieceCost(summary: string, i: nat, j: nat)
    requires i <= j <= |summary|
    ensures Estimate(AppendSummary("", summary[..i])) <= Estimate(AppendSummary("", summary[..j]))
  {
    hide Estimate;
    TrimLeftOfPrefix(summary[..i], summary[..j]);
    TrimRightOfPrefix(TrimLeft(summary[..i]), TrimLeft(summary[..j]));
    var front := PREAMBLE + "\n\n" + MARKER;
    assert front + Trim(summary[..i]) <= front + Trim(summary[..j]);
    if Trim(summary[..i]) == "" {
      EstimateMonotone("", AppendSummary("", summary[..j]));
    } else {
      EstimateMonotone(AppendSummary("", summary[..i]), AppendSummary("", summary[..j]));
    }
  }

  /** The default estimator meets what the search for the longest fitting summary relies on. */
  lemma {:induction false} DefaultEstimatorMonotone(callTokens: seq<ToolCall> -> nat, base: seq<Message>, summary: string)
    ensures MonotoneInSummary(msgs => Total(m => MessageTokens(m, callTokens), msgs), base, summary)
  {
    hide AppendSummary, Estimate;
    var cost: Message -> nat := m => MessageTokens(m, callTokens);
    forall i, j {:trigger summary[..i], summary[..j]} | 0 <= i <= j <= |summary|
      ensures Total(cost, base + [SummaryMessage(summary[..i])]) <= Total(cost, base + [SummaryMessage(summary[..j])])
    {
      SummaryPieceCost(summary, i, j);
      TotalConcat(cost, base, [SummaryMessage(summary[..i])]);
      TotalConcat(cost, base, [SummaryMessage(summary[..j])]);
    }
  }
}
