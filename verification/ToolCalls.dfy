/** One batch of tool calls: their ids, the gates before them, and one result for each. */
module ToolCalls {
  import opened Wrappers
  import opened Messages

  datatype Next = NoNext | Proceed | WaitApproval | WaitTool | OtherNext

  /** `content` is the text the model is shown; `effects` stands for workspace operations and record references. */
  datatype ToolResult = ToolResult(
    success: bool,
    content: string,
    next: Next,
    wantsInput: bool,
    approval: Option<ToolCall>,
    fileChanges: nat,
    effects: bool)

  function Failure(content: string): ToolResult {
    ToolResult(false, content, NoNext, false, None, 0, false)
  }

  // Ids.

  function Digits(n: nat): (s: string)
    ensures s != ""
  {
    var digit := [(n % 10) as char + '0'];
    if n < 10 then digit else Digits(n / 10) + digit
  }

  function WithId(call: ToolCall, round: nat, index: nat): (r: ToolCall)
    ensures r.id != "" && (call.id != "" ==> r == call) && r.name == call.name && r.arguments == call.arguments
  {
    if call.id == "" then call.(id := "tc-" + Digits(round) + "-" + Digits(index)) else call
  }

  /** ensureToolCallIDs */
  method EnsureToolCallIds(calls: seq<ToolCall>, round: nat) returns (result: seq<ToolCall>)
    ensures |result| == |calls|
    ensures forall i :: 0 <= i < |calls| ==> result[i] == WithId(calls[i], round, i)
  {
    hide WithId;
    result := calls;
    for i := 0 to |calls|
      invariant |result| == |calls|
      invariant forall k :: 0 <= k < i ==> result[k] == WithId(calls[k], round, k)
      invariant forall k :: i <= k < |calls| ==> result[k] == calls[k]
    {
      result := result[i := WithId(calls[i], round, i)];
    }
  }

  // Gates.

  datatype Decision = Allow | Deny | RequireApproval

  /** What the knowledge gate and the policy said of a call, and a tool with approval rules of its own. */
  datatype Answer = Answer(withheld: bool, failed: bool, decision: Decision, asksApproval: bool, askFailed: bool)

  /** toolDecision; None is a policy error. */
  function ToolDecision(answer: Answer, hitl: bool): (r: Option<Decision>)
    ensures r == Some(RequireApproval) ==> hitl
    ensures r == Some(Allow) ==> answer.decision == Allow && !answer.withheld && !answer.asksApproval
  {
    if answer.withheld then Some(Deny)
    else if answer.failed then None
    else
      match answer.decision
      case Deny => Some(Deny)
      case RequireApproval => Some(if hitl then RequireApproval else Deny)
      case Allow =>
        if answer.askFailed then Some(Deny)
        else if answer.asksApproval then Some(if hitl then RequireApproval else Deny)
        else Some(Allow)
  }

  /** Whoever may hand work out may also collect it. A call without a name is never executed. */
  predicate Allowed(tools: set<string>, name: string) {
    name != "" && (name in tools || (name == "Collect" && ("Team" in tools || "Spawn" in tools)))
  }

  /** The gates in front of a batch: the allowlist, the policy as it answers each call, and whether people may approve. */
  datatype Gates = Gates(tools: set<string>, policy: ToolCall -> Answer, hitl: bool)
  {
    function Verdict(call: ToolCall): Option<Decision> {
      if Allowed(tools, call.name) then ToolDecision(policy(call), hitl) else Some(Deny)
    }

    predicate NeedsApproval(calls: seq<ToolCall>, i: nat)
      requires i < |calls|
    {
      Verdict(calls[i]) == Some(RequireApproval)
    }

    predicate EarlierGate(calls: seq<ToolCall>, k: nat)
      requires k <= |calls|
    {
      exists i :: 0 <= i < k && NeedsApproval(calls, i)
    }
  }

  const GATED: ToolResult := ToolResult(false, "tool approval required", WaitApproval, false, None, 0, false)

  const HELD: ToolResult := ToolResult(false, "not executed: another Tool call is waiting", Proceed, false, None, 0, false)

  /** A batch that ended at an approval gate: the call at `k` waits, every other one has a plain result. */
  predicate HeldAt(calls: seq<ToolCall>, results: seq<ToolResult>, k: nat) {
    && k < |calls| == |results|
    && results[k].next == WaitApproval && results[k].approval == Some(calls[k])
    && forall i :: 0 <= i < |calls| ==> !results[i].wantsInput && !results[i].success && (i != k ==> results[i].next == Proceed)
  }

  /** approvalResults */
  method ApprovalResults(calls: seq<ToolCall>, k: nat) returns (results: seq<ToolResult>)
    requires k < |calls|
    ensures HeldAt(calls, results, k)
  {
    results := [];
    for i := 0 to |calls|
      invariant |results| == i
      invariant forall j :: 0 <= j < i ==> results[j] == if j == k then GATED.(approval := Some(calls[k])) else HELD
    {
      results := results + [if i == k then GATED.(approval := Some(calls[k])) else HELD];
    }
  }

  const REJECTED: string := "tool is not allowed for this Agent"

  /** The allowlist: a call that is not allowed loses its name and keeps its id. */
  method FilterAllowed(tools: set<string>, calls: seq<ToolCall>) returns (filtered: seq<ToolCall>)
    ensures |filtered| == |calls|
    ensures forall i :: 0 <= i < |calls| ==>
      filtered[i] == if Allowed(tools, calls[i].name) then calls[i] else ToolCall(calls[i].id, "", REJECTED)
  {
    filtered := calls;
    for i := 0 to |calls|
      invariant |filtered| == |calls|
      invariant forall k :: 0 <= k < i ==>
        filtered[k] == if Allowed(tools, calls[k].name) then calls[k] else ToolCall(calls[k].id, "", REJECTED)
      invariant forall k :: i <= k < |calls| ==> filtered[k] == calls[k]
    {
      if !Allowed(tools, calls[i].name) { filtered := filtered[i := ToolCall(calls[i].id, "", REJECTED)]; }
    }
  }

  /** What is left of a call once its gates have spoken: the call itself if they allow it, and otherwise no name to run. */
  predicate Judged(gates: Gates, call: ToolCall, filtered: ToolCall) {
    if gates.Verdict(call) == Some(Allow) then filtered == call else filtered.id == call.id && filtered.name == ""
  }

  /** The policy gate. It stops at the first call that needs approval; until then a refused call loses its name. */
  method PolicyGate(gates: Gates, calls: seq<ToolCall>, listed: seq<ToolCall>) returns (filtered: seq<ToolCall>, gate: Option<nat>)
    requires |listed| == |calls|
    requires forall i :: 0 <= i < |calls| ==>
      listed[i] == if Allowed(gates.tools, calls[i].name) then calls[i] else ToolCall(calls[i].id, "", REJECTED)
    ensures |filtered| == |calls|
    ensures match gate
      case None =>
        forall i :: 0 <= i < |calls| ==> Judged(gates, calls[i], filtered[i]) && !gates.NeedsApproval(calls, i)
      case Some(k) =>
        && k < |calls| && gates.NeedsApproval(calls, k) && filtered[k] == calls[k]
        && (forall i :: 0 <= i < k ==> !gates.NeedsApproval(calls, i))
        && (forall i :: 0 <= i < |calls| ==> filtered[i].id == calls[i].id)
  {
    filtered, gate := listed, None;
    for i := 0 to |calls|
      invariant gate == None && |filtered| == |calls|
      invariant forall k :: 0 <= k < i ==> Judged(gates, calls[k], filtered[k]) && !gates.NeedsApproval(calls, k)
      invariant forall k :: i <= k < |calls| ==> filtered[k] == listed[k]
    {
      hide ToolDecision;
      var call := filtered[i];
      if call.name != "" {
        match ToolDecision(gates.policy(call), gates.hitl)
        case Some(RequireApproval) => return filtered, Some(i);
        case Some(Allow) =>
        case _ => filtered := filtered[i := ToolCall(call.id, "", "policy")];
      }
    }
  }

  /** What a tool does is its own affair. */
  method Execute(call: ToolCall) returns (result: ToolResult) {
    result := *;
  }

  /** The calls among the first `n` that are run: those that kept their name and to which no start hook objects. */
  function RunOf(calls: seq<ToolCall>, objected: set<nat>, n: nat): seq<ToolCall>
    requires n <= |calls|
  {
    if n == 0 then []
    else RunOf(calls, objected, n - 1) + if calls[n - 1].name != "" && n - 1 !in objected then [calls[n - 1]] else []
  }

  /** Every call that kept its name is executed, unless its start hook objects; every call gets a result. */
  method RunCalls(calls: seq<ToolCall>) returns (results: seq<ToolResult>, ghost objected: set<nat>, ran: seq<ToolCall>, asked: bool)
    ensures |results| == |calls|
    ensures ran == RunOf(calls, objected, |calls|)
    ensures forall i :: 0 <= i < |calls| && (calls[i].name == "" || i in objected) ==> results[i] == Failure(results[i].content)
    ensures asked <==> exists i :: 0 <= i < |results| && results[i].next == WaitApproval
  {
    results, objected, ran, asked := [], {}, [], false;
    for i := 0 to |calls|
      invariant |results| == i && forall k :: k in objected ==> k < i
      invariant ran == RunOf(calls, objected, i)
      invariant forall k :: 0 <= k < i && (calls[k].name == "" || k in objected) ==> results[k] == Failure(results[k].content)
      invariant asked <==> exists k :: 0 <= k < i && results[k].next == WaitApproval
    {
      var reason: string := *;
      var result := Failure(reason);
      var hookFailed: bool := *;
      ghost var before, was := results, objected;
      if calls[i].name != "" && hookFailed { objected := objected + {i}; }
      SameRun(calls, was, objected, i);
      if calls[i].name != "" && !hookFailed {
        result := Execute(calls[i]);
        ran := ran + [calls[i]];
        if result.next == WaitApproval { asked := true; }
      }
      results := results + [result];
      assert results[i] == result && forall k :: 0 <= k < i ==> results[k] == before[k];
    }
  }

  lemma {:induction false} SameRun(calls: seq<ToolCall>, a: set<nat>, b: set<nat>, n: nat)
    requires n <= |calls| && forall k: nat :: k < n ==> (k in a <==> k in b)
    ensures RunOf(calls, a, n) == RunOf(calls, b, n)
  {
    if n > 0 { SameRun(calls, a, b, n - 1); }
  }

  /** The calls among the first `n` that their gates allow and no start hook objects to. */
  function AdmittedOf(gates: Gates, calls: seq<ToolCall>, objected: set<nat>, n: nat): seq<ToolCall>
    requires n <= |calls|
  {
    if n == 0 then []
    else
      AdmittedOf(gates, calls, objected, n - 1)
      + if gates.Verdict(calls[n - 1]) == Some(Allow) && n - 1 !in objected then [calls[n - 1]] else []
  }

  lemma {:induction false} RunsTheAdmitted(gates: Gates, calls: seq<ToolCall>, filtered: seq<ToolCall>, objected: set<nat>, n: nat)
    requires n <= |calls| == |filtered| && forall i :: 0 <= i < |calls| ==> Judged(gates, calls[i], filtered[i])
    ensures RunOf(filtered, objected, n) == AdmittedOf(gates, calls, objected, n)
  {
    hide ToolDecision;
    if n > 0 {
      RunsTheAdmitted(gates, calls, filtered, objected, n - 1);
      assert Judged(gates, calls[n - 1], filtered[n - 1]);
    }
  }

  /**
   * executeToolCalls. When a call needs approval nothing of its batch runs and every call still
   * has a result; otherwise exactly the calls that passed every gate run, in order. `asked` says that a tool
   * itself, and not the gate, reported to wait for approval.
   */
  method ExecuteToolCalls(gates: Gates, calls: seq<ToolCall>)
    returns (results: seq<ToolResult>, ghost gate: Option<nat>, ghost objected: set<nat>, ran: seq<ToolCall>, asked: bool)
    ensures |results| == |calls|
    ensures gate.Some? <==> exists i :: 0 <= i < |calls| && gates.NeedsApproval(calls, i)
    ensures gate.Some? ==> gate.value < |calls| && gates.NeedsApproval(calls, gate.value) && !gates.EarlierGate(calls, gate.value)
    ensures gate.Some? ==> ran == [] && !asked && gates.hitl && HeldAt(calls, results, gate.value)
    ensures gate.None? ==> ran == AdmittedOf(gates, calls, objected, |calls|)
    ensures gate.None? ==> forall i :: 0 <= i < |calls| && gates.Verdict(calls[i]) != Some(Allow) ==> results[i] == Failure(results[i].content)
    ensures gate.None? ==> (asked <==> exists i :: 0 <= i < |results| && results[i].next == WaitApproval)
  {
    hide ToolDecision;
    var listed := FilterAllowed(gates.tools, calls);
    var filtered, held := PolicyGate(gates, calls, listed);
    objected, ran, asked := {}, [], false;
    gate := held;
    if held.Some? {
      OnlyPeopleApprove(gates, calls, held.value);
      results := ApprovalResults(filtered, held.value);
    } else {
      results, objected, ran, asked := RunCalls(filtered);
      RunsTheAdmitted(gates, calls, filtered, objected, |calls|);
    }
  }

  lemma OnlyPeopleApprove(gates: Gates, calls: seq<ToolCall>, i: nat)
    requires i < |calls| && gates.NeedsApproval(calls, i)
    ensures gates.hitl
  {
  }
}
