/** The message list sent to the model, and what it means for tool calls and results to be paired. */
module Messages {
  import opened Text

  datatype Role = System | User | Assistant | Tool

  datatype ToolCall = ToolCall(id: string, name: string, arguments: string)

  datatype Message = Message(
    role: Role,
    content: string,
    calls: seq<ToolCall>,
    callId: string,
    toolName: string,
    teamId: string,
    injected: bool)
  {
    /** An assistant message that asks for tools: the next tool messages answer it. */
    predicate IsCaller() {
      role == Assistant && calls != []
    }

    /** A user message that carries a compaction summary. */
    predicate IsSummary() {
      role == User && HasMarker(content)
    }

    function CallIds(): multiset<string> {
      multiset(IdsOf(calls))
    }

    function WithContent(text: string): Message {
      this.(content := text)
    }
  }

  function IdsOf(calls: seq<ToolCall>): (ids: seq<string>)
    ensures |ids| == |calls| && forall i :: 0 <= i < |ids| ==> ids[i] == calls[i].id
  {
    seq(|calls|, i requires 0 <= i < |calls| => calls[i].id)
  }

  function Plain(role: Role, content: string): Message {
    Message(role, content, [], "", "", "", false)
  }

  function SummaryMessage(summary: string): Message {
    Plain(User, AppendSummary("", summary))
  }

  /** The two messages differ in their text at most. */
  predicate SameShape(a: Message, b: Message) {
    a.(content := "") == b.(content := "")
  }

  predicate SameShapes(a: seq<Message>, b: seq<Message>) {
    |a| == |b| && forall i :: 0 <= i < |a| ==> SameShape(a[i], b[i])
  }

  // Pairing, read from left to right: the state is the multiset of call ids still owed a result,
  // and None once a message stood where it could not.

  datatype Debt = Broken | Owed(ids: multiset<string>)

  const CLEAR: Debt := Owed(multiset{})

  function Step(debt: Debt, m: Message): Debt {
    if debt.Broken? then Broken
    else if m.role == Tool then
      if m.callId in debt.ids then Owed(debt.ids - multiset{m.callId}) else Broken
    else if debt.ids != multiset{} then Broken
    else if m.IsCaller() then Owed(m.CallIds())
    else CLEAR
  }

  function Scan(debt: Debt, msgs: seq<Message>): Debt
    decreases msgs
  {
    if msgs == [] then debt else Scan(Step(debt, msgs[0]), msgs[1..])
  }

  /** Every tool call is answered: what a provider accepts as a request. */
  predicate Paired(msgs: seq<Message>) {
    Scan(CLEAR, msgs) == CLEAR
  }

  lemma {:induction false} ScanConcat(debt: Debt, a: seq<Message>, b: seq<Message>)
    ensures Scan(debt, a + b) == Scan(Scan(debt, a), b)
    decreases a
  {
    if a == [] {
      assert a + b == b;
    } else {
      assert (a + b)[1..] == a[1..] + b;
      ScanConcat(Step(debt, a[0]), a[1..], b);
    }
  }

  lemma ScanAppend(debt: Debt, a: seq<Message>, m: Message)
    ensures Scan(debt, a + [m]) == Step(Scan(debt, a), m)
  {
    ScanConcat(debt, a, [m]);
    assert [m][1..] == [];
  }

  lemma {:induction false} ScanBroken(msgs: seq<Message>)
    ensures Scan(Broken, msgs) == Broken
  {
    if msgs != [] { ScanBroken(msgs[1..]); }
  }

  /** Rewriting message text never changes the pairing. */
  lemma {:induction false} ScanSameShapes(debt: Debt, a: seq<Message>, b: seq<Message>)
    requires SameShapes(a, b)
    ensures Scan(debt, a) == Scan(debt, b)
    decreases a
  {
    if a != [] {
      assert SameShape(a[0], b[0]);
      assert Step(debt, a[0]) == Step(debt, b[0]);
      forall i | 0 <= i < |a| - 1 ensures SameShape(a[1..][i], b[1..][i]) {
        assert a[1..][i] == a[i + 1] && b[1..][i] == b[i + 1];
      }
      ScanSameShapes(Step(debt, a[0]), a[1..], b[1..]);
    }
  }

  // The same property by positions, which is how a provider states it.

  function ToolIds(msgs: seq<Message>): (ids: seq<string>)
    ensures |ids| == |msgs| && forall i :: 0 <= i < |ids| ==> ids[i] == msgs[i].callId
  {
    seq(|msgs|, i requires 0 <= i < |msgs| => msgs[i].callId)
  }

  predicate AllTools(msgs: seq<Message>) {
    forall i :: 0 <= i < |msgs| ==> msgs[i].role == Tool
  }

  predicate ToolsBetween(msgs: seq<Message>, lo: nat, hi: nat)
    requires hi <= |msgs|
  {
    forall k :: lo <= k < hi ==> msgs[k].role == Tool
  }

  /** The caller at `i` is followed directly by one tool message per call, and by no further one. */
  predicate AnsweredAt(msgs: seq<Message>, i: nat)
    requires i < |msgs|
  {
    var end := i + 1 + |msgs[i].calls|;
    && end <= |msgs|
    && ToolsBetween(msgs, i + 1, end)
    && multiset(ToolIds(msgs[i + 1..end])) == msgs[i].CallIds()
    && (end < |msgs| ==> msgs[end].role != Tool)
  }

  /** The tool message at `j` stands in the run that answers the caller at `i`. */
  predicate Answers(msgs: seq<Message>, i: nat, j: nat)
    requires j < |msgs|
  {
    i < j && msgs[i].IsCaller() && j <= i + |msgs[i].calls| && ToolsBetween(msgs, i + 1, j)
  }

  predicate BelongsAt(msgs: seq<Message>, j: nat)
    requires j < |msgs|
  {
    exists i: nat :: i < j && Answers(msgs, i, j)
  }

  predicate DirectlyAnswered(msgs: seq<Message>) {
    && (forall i :: 0 <= i < |msgs| && msgs[i].IsCaller() ==> AnsweredAt(msgs, i))
    && (forall j :: 0 <= j < |msgs| && msgs[j].role == Tool ==> BelongsAt(msgs, j))
  }

  function ToolRun(msgs: seq<Message>): (n: nat)
    ensures n <= |msgs|
    ensures AllTools(msgs[..n])
    ensures n < |msgs| ==> msgs[n].role != Tool
  {
    if msgs != [] && msgs[0].role == Tool then
      var n := 1 + ToolRun(msgs[1..]);
      assert msgs[..n] == [msgs[0]] + msgs[1..][..n - 1];
      n
    else 0
  }

  lemma SubtractFirst(ids: multiset<string>, id: string, rest: multiset<string>)
    ensures multiset{id} + rest <= ids <==> id in ids && rest <= ids - multiset{id}
    ensures ids - multiset{id} - rest == ids - (multiset{id} + rest)
  {
    if id in ids && rest <= ids - multiset{id} {
      forall x ensures (multiset{id} + rest)[x] <= ids[x] { assert rest[x] <= (ids - multiset{id})[x]; }
    }
    if multiset{id} + rest <= ids {
      assert (multiset{id} + rest)[id] <= ids[id];
      forall x ensures rest[x] <= (ids - multiset{id})[x] { assert (multiset{id} + rest)[x] <= ids[x]; }
    }
  }

  /** A run of tool messages settles exactly the ids it carries. */
  lemma {:induction false} ScanTools(ids: multiset<string>, tools: seq<Message>)
    requires AllTools(tools)
    ensures var given := multiset(ToolIds(tools));
            Scan(Owed(ids), tools) == if given <= ids then Owed(ids - given) else Broken
    decreases tools
  {
    if tools == [] {
      assert multiset(ToolIds(tools)) == multiset{};
    } else {
      var id, rest := tools[0].callId, multiset(ToolIds(tools[1..]));
      assert ToolIds(tools) == [id] + ToolIds(tools[1..]);
      assert multiset(ToolIds(tools)) == multiset{id} + rest;
      SubtractFirst(ids, id, rest);
      if id in ids {
        ScanTools(ids - multiset{id}, tools[1..]);
      } else {
        ScanBroken(tools[1..]);
      }
    }
  }

  /** A debt that ends up clear was settled by the tool messages standing first. */
  lemma ClearedByFirstRun(ids: multiset<string>, tail: seq<Message>)
    requires Scan(Owed(ids), tail) == CLEAR
    ensures multiset(ToolIds(tail[..ToolRun(tail)])) == ids
    ensures Scan(CLEAR, tail[ToolRun(tail)..]) == CLEAR
  {
    var k := ToolRun(tail);
    var given, rest := multiset(ToolIds(tail[..k])), tail[k..];
    assert tail[..k] + rest == tail;
    ScanConcat(Owed(ids), tail[..k], rest);
    ScanTools(ids, tail[..k]);
    if !(given <= ids) {
      ScanBroken(rest);
    } else {
      var left := ids - given;
      if left != multiset{} && rest != [] { ScanBroken(rest[1..]); }
      assert left == multiset{};
      forall x ensures given[x] == ids[x] { assert left[x] == 0; }
    }
  }

  lemma SameLength(a: seq<string>, b: seq<string>)
    requires multiset(a) == multiset(b)
    ensures |a| == |b|
  {
    assert |multiset(a)| == |a| && |multiset(b)| == |b|;
  }

  lemma RunAnswers(msgs: seq<Message>, k: nat)
    requires msgs != [] && k == |msgs[0].calls| && 1 + k <= |msgs| && ToolsBetween(msgs, 1, 1 + k)
    requires multiset(ToolIds(msgs[1..1 + k])) == msgs[0].CallIds() && (1 + k < |msgs| ==> msgs[1 + k].role != Tool)
    ensures AnsweredAt(msgs, 0)
  {
  }

  /** A paired caller got exactly its own ids, and got them at once. */
  lemma PairedCallerIsAnswered(msgs: seq<Message>)
    requires msgs != [] && msgs[0].IsCaller() && Paired(msgs)
    ensures AnsweredAt(msgs, 0)
  {
    var tail, ids := msgs[1..], msgs[0].CallIds();
    ClearedByFirstRun(ids, tail);
    hide Scan, ToolRun, AnsweredAt;
    var k := ToolRun(tail);
    SameLength(ToolIds(tail[..k]), IdsOf(msgs[0].calls));
    assert tail[..k] == msgs[1..1 + k];
    forall j | 1 <= j < 1 + k ensures msgs[j].role == Tool { assert msgs[j] == tail[..k][j - 1]; }
    RunAnswers(msgs, k);
  }

  /** Conversely an answered caller leaves the scan clear at the end of its run. */
  lemma AnsweredCallerScans(msgs: seq<Message>, c: nat)
    requires msgs != [] && AnsweredAt(msgs, 0) && c == 1 + |msgs[0].calls|
    ensures Scan(Owed(msgs[0].CallIds()), msgs[1..]) == Scan(CLEAR, msgs[c..])
  {
    var block, rest := msgs[1..c], msgs[c..];
    assert msgs[1..] == block + rest;
    SettlesAll(msgs[0].CallIds(), block, rest);
  }

  lemma SettlesAll(ids: multiset<string>, block: seq<Message>, rest: seq<Message>)
    requires AllTools(block) && multiset(ToolIds(block)) == ids
    ensures Scan(Owed(ids), block + rest) == Scan(CLEAR, rest)
  {
    ScanTools(ids, block);
    ScanConcat(Owed(ids), block, rest);
  }

  lemma AnsweredShift(msgs: seq<Message>, c: nat, i: nat)
    requires c + i < |msgs|
    ensures AnsweredAt(msgs[c..], i) <==> AnsweredAt(msgs, c + i)
  {
    var rest, end := msgs[c..], i + 1 + |msgs[c + i].calls|;
    assert rest[i] == msgs[c + i];
    if c + end <= |msgs| {
      assert rest[i + 1..end] == msgs[c + i + 1..c + end];
      if ToolsBetween(rest, i + 1, end) {
        forall k | c + i + 1 <= k < c + end ensures msgs[k].role == Tool { assert rest[k - c] == msgs[k]; }
      }
    }
  }

  lemma BelongsShift(msgs: seq<Message>, c: nat, j: nat)
    requires c + j < |msgs|
    requires forall i: nat :: i < c && msgs[i].IsCaller() ==> i + |msgs[i].calls| < c
    ensures BelongsAt(msgs[c..], j) <==> BelongsAt(msgs, c + j)
  {
    var rest := msgs[c..];
    if BelongsAt(rest, j) {
      var i: nat :| i < j && Answers(rest, i, j);
      forall k | c + i + 1 <= k < c + j ensures msgs[k].role == Tool { assert rest[k - c] == msgs[k]; }
      assert Answers(msgs, c + i, c + j);
    }
    if BelongsAt(msgs, c + j) {
      var i: nat :| i < c + j && Answers(msgs, i, c + j);
      assert i >= c;
      assert rest[i - c] == msgs[i];
      assert Answers(rest, i - c, j);
    }
  }

  /** Cutting off one complete leading group keeps the positional reading of the rest. */
  lemma DirectlyAnsweredCut(msgs: seq<Message>, c: nat)
    requires 0 < c <= |msgs| && msgs[0].role != Tool
    requires if msgs[0].IsCaller() then c == 1 + |msgs[0].calls| && AnsweredAt(msgs, 0) else c == 1
    ensures DirectlyAnswered(msgs) <==> DirectlyAnswered(msgs[c..])
  {
    var rest := msgs[c..];
    forall j | 1 <= j < c ensures msgs[j].role == Tool && BelongsAt(msgs, j) {
      assert Answers(msgs, 0, j);
    }
    forall i | 0 <= i < |rest| ensures AnsweredAt(rest, i) <==> AnsweredAt(msgs, c + i) { AnsweredShift(msgs, c, i); }
    forall j | 0 <= j < |rest| ensures BelongsAt(rest, j) <==> BelongsAt(msgs, c + j) { BelongsShift(msgs, c, j); }
    if DirectlyAnswered(rest) {
      forall i | 0 <= i < |msgs| && msgs[i].IsCaller() ensures AnsweredAt(msgs, i) {
        if i >= c { assert rest[i - c] == msgs[i]; }
      }
      forall j | 0 <= j < |msgs| && msgs[j].role == Tool ensures BelongsAt(msgs, j) {
        if j >= c { assert rest[j - c] == msgs[j]; }
      }
    }
  }

  /** The left-to-right reading and the positional one agree on every message list. */
  lemma {:induction false} PairedIffDirectlyAnswered(msgs: seq<Message>)
    ensures Paired(msgs) <==> DirectlyAnswered(msgs)
    decreases msgs
  {
    if msgs == [] {
    } else if msgs[0].role == Tool {
      ScanBroken(msgs[1..]);
      assert !BelongsAt(msgs, 0);
    } else if !msgs[0].IsCaller() {
      PairedIffDirectlyAnswered(msgs[1..]);
      DirectlyAnsweredCut(msgs, 1);
    } else {
      if Paired(msgs) { PairedCallerIsAnswered(msgs); }
      if AnsweredAt(msgs, 0) {
        var c := 1 + |msgs[0].calls|;
        AnsweredCallerScans(msgs, c);
        PairedIffDirectlyAnswered(msgs[c..]);
        DirectlyAnsweredCut(msgs, c);
      }
    }
  }
}
