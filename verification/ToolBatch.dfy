/** A batch of tool calls in which runs of read-only calls are executed concurrently. */
module ToolBatch {
  import opened Wrappers
  import opened Messages
  import opened ToolCalls

  /** What a tool gives back; a reply of NoResult stands for the nil result. */
  datatype Reply = Errored(error: string) | NoResult | Gave(result: ToolResult)

  datatype Phase = Waiting | InFlight | Done

  /** Skip is a call given up because the turn was cancelled before it began. */
  datatype Event = Begin(i: nat) | End(i: nat) | Skip(i: nat)

  // What the log of a batch must look like.

  function Flying(log: seq<Event>): int {
    if log == [] then 0 else Flying(log[..|log| - 1]) + Change(log[|log| - 1])
  }

  function Change(e: Event): int {
    match e
    case Begin(_) => 1
    case End(_) => -1
    case Skip(_) => 0
  }

  predicate Over(log: seq<Event>, i: nat) {
    End(i) in log || Skip(i) in log
  }

  lemma FlyingNext(log: seq<Event>, e: Event)
    ensures Flying(log + [e]) == Flying(log) + Change(e)
  {
    assert (log + [e])[..|log|] == log;
  }

  /** Never more than `limit` calls in flight, at any moment. */
  ghost predicate Bounded(log: seq<Event>, limit: nat) {
    forall n :: 0 <= n <= |log| ==> Flying(log[..n]) <= limit
  }

  lemma BoundedNext(log: seq<Event>, e: Event, limit: nat)
    requires Bounded(log, limit) && Flying(log + [e]) <= limit
    ensures Bounded(log + [e], limit)
  {
    var all := log + [e];
    forall n | 0 <= n <= |all| ensures Flying(all[..n]) <= limit {
      if n <= |log| { assert all[..n] == log[..n]; } else { assert all[..n] == all; }
    }
  }

  lemma OverGrows(log: seq<Event>, e: Event, i: nat)
    requires Over(log, i)
    ensures Over(log + [e], i)
  {
  }

  lemma NowOver(log: seq<Event>, i: nat)
    ensures Over(log + [End(i)], i) && Over(log + [Skip(i)], i)
  {
    assert (log + [End(i)])[|log|] == End(i) && (log + [Skip(i)])[|log|] == Skip(i);
  }

  ghost predicate AllOver(log: seq<Event>, n: nat) {
    forall i :: 0 <= i < n ==> Over(log, i)
  }

  /** A serial call is a barrier: it begins after every earlier call is over, and is over before any later one begins. */
  ghost predicate Barriers(log: seq<Event>, serial: int -> bool) {
    forall q :: 0 <= q < |log| && log[q].Begin? ==>
      forall i: nat :: i < log[q].i && (serial(i) || serial(log[q].i)) ==> Over(log[..q], i)
  }

  lemma BarriersNext(log: seq<Event>, e: Event, serial: int -> bool)
    requires Barriers(log, serial)
    requires e.Begin? ==> forall i: nat :: i < e.i && (serial(i) || serial(e.i)) ==> Over(log, i)
    ensures Barriers(log + [e], serial)
  {
    var all := log + [e];
    forall q | 0 <= q < |all| && all[q].Begin?
      ensures forall i: nat :: i < all[q].i && (serial(i) || serial(all[q].i)) ==> Over(all[..q], i)
    {
      assert all[..q] == if q < |log| then log[..q] else log;
      if q < |log| { assert all[q] == log[q]; }
    }
  }

  // Counting phases.

  function Sum(phases: seq<Phase>, weight: Phase -> nat): nat {
    if phases == [] then 0 else weight(phases[0]) + Sum(phases[1..], weight)
  }

  lemma {:induction false} SumUpdate(phases: seq<Phase>, i: nat, p: Phase, weight: Phase -> nat)
    requires i < |phases|
    ensures Sum(phases[i := p], weight) == Sum(phases, weight) - weight(phases[i]) + weight(p)
    decreases phases
  {
    if i > 0 {
      assert phases[i := p][1..] == phases[1..][i - 1 := p];
      SumUpdate(phases[1..], i - 1, p, weight);
    } else {
      assert phases[0 := p][1..] == phases[1..];
    }
  }

  lemma {:induction false} SumPositive(phases: seq<Phase>, weight: Phase -> nat)
    requires Sum(phases, weight) > 0
    ensures exists i :: 0 <= i < |phases| && weight(phases[i]) > 0
    decreases phases
  {
    if weight(phases[0]) == 0 {
      SumPositive(phases[1..], weight);
      var i :| 0 <= i < |phases| - 1 && weight(phases[1..][i]) > 0;
      assert phases[i + 1] == phases[1..][i];
    }
  }

  function Airborne(p: Phase): nat { if p == InFlight then 1 else 0 }

  function Left(p: Phase): nat { if p == Waiting then 2 else if p == InFlight then 1 else 0 }

  lemma {:induction false} NoneAirborne(phases: seq<Phase>)
    requires forall i :: 0 <= i < |phases| ==> phases[i] != InFlight
    ensures Sum(phases, Airborne) == 0
    decreases phases
  {
    if phases != [] {
      forall i | 0 <= i < |phases| - 1 ensures phases[1..][i] != InFlight { assert phases[1..][i] == phases[i + 1]; }
      NoneAirborne(phases[1..]);
    }
  }

  const CANCELLED: ToolResult := Failure("context canceled")

  /** Tools act on a world of type W; the executor is the only one to run them here. */
  class ToolBatchExecutor<W(!new)> {
    const tools: (ToolCall, W) -> (W, Reply)
    const readOnly: string -> bool
    const maxParallel: nat
    const parallelSafe: bool
    var world: W
    ghost var log: seq<Event>

    constructor (tools: (ToolCall, W) -> (W, Reply), readOnly: string -> bool, maxParallel: int, parallelSafe: bool, world: W)
      ensures this.tools == tools && this.readOnly == readOnly && this.parallelSafe == parallelSafe && this.world == world
      ensures this.maxParallel == if maxParallel <= 0 then 5 else maxParallel
      ensures log == []
    {
      this.tools, this.readOnly, this.parallelSafe, this.world := tools, readOnly, parallelSafe, world;
      this.maxParallel := if maxParallel <= 0 then 5 else maxParallel;
      log := [];
    }

    /** executeOne never leaves a call without a result. */
    function ResultOf(call: ToolCall, world: W): ToolResult {
      match tools(call, world).1
      case Errored(error) => Failure(call.name + ": " + error)
      case NoResult => Failure(call.name + " returned nil result")
      case Gave(result) => result
    }

    /** The calls one by one, in order: the final world and the results. */
    function OneByOne(calls: seq<ToolCall>, world: W): (r: (W, seq<ToolResult>))
      ensures |r.1| == |calls|
    {
      if calls == [] then (world, [])
      else
        var n := |calls| - 1;
        var (before, results) := OneByOne(calls[..n], world);
        (tools(calls[n], before).0, results + [ResultOf(calls[n], before)])
    }

    lemma OneMore(calls: seq<ToolCall>, world: W, n: nat)
      requires n < |calls|
      ensures var (before, results) := OneByOne(calls[..n], world);
              OneByOne(calls[..n + 1], world) == (tools(calls[n], before).0, results + [ResultOf(calls[n], before)])
    {
      assert calls[..n + 1][..n] == calls[..n];
    }

    function Serial(calls: seq<ToolCall>): int -> bool {
      i => 0 <= i < |calls| && !readOnly(calls[i].name)
    }

    /** The contract of the read-only class: such tools do not change the world. */
    ghost predicate ReadOnlyToolsOnlyRead() {
      forall call: ToolCall, w: W :: readOnly(call.name) ==> tools(call, w).0 == w
    }

    ghost predicate Logged(calls: seq<ToolCall>, n: nat)
      reads this
    {
      && Flying(log) == 0 && Bounded(log, maxParallel) && AllOver(log, n)
      && Barriers(log, Serial(calls))
    }

    lemma OneLogged(calls: seq<ToolCall>, n: nat, log: seq<Event>)
      requires Flying(log) == 0 && Bounded(log, maxParallel) && AllOver(log, n) && Barriers(log, Serial(calls)) && maxParallel > 0
      ensures var after := log + [Begin(n)] + [End(n)];
              Flying(after) == 0 && Bounded(after, maxParallel) && AllOver(after, n + 1) && Barriers(after, Serial(calls))
    {
      hide Bounded, Barriers, Flying;
      var begun := log + [Begin(n)];
      FlyingNext(log, Begin(n));
      FlyingNext(begun, End(n));
      BoundedNext(log, Begin(n), maxParallel);
      BoundedNext(begun, End(n), maxParallel);
      BarriersNext(log, Begin(n), Serial(calls));
      BarriersNext(begun, End(n), Serial(calls));
      forall i | 0 <= i < n ensures Over(begun, i) { OverGrows(log, Begin(n), i); }
      forall i | 0 <= i < n + 1 ensures Over(begun + [End(n)], i) {
        if i < n { OverGrows(begun, End(n), i); } else { NowOver(begun, n); }
      }
    }

    /** A serial call, or any call when nothing may run in parallel. */
    method ExecuteOne(calls: seq<ToolCall>, n: nat) returns (result: ToolResult)
      requires n < |calls| && Logged(calls, n) && maxParallel > 0
      modifies this
      ensures result == ResultOf(calls[n], old(world)) && world == tools(calls[n], old(world)).0
      ensures Logged(calls, n + 1)
    {
      var answer := tools(calls[n], world);
      result := ResultOf(calls[n], world);
      world := answer.0;
      OneLogged(calls, n, log);
      log := log + [Begin(n)] + [End(n)];
    }

    /** Some call of the segment can move: one in flight can end, a waiting one can begin, or be given up. */
    method PickNext(phases: seq<Phase>, mayCancel: bool) returns (k: nat)
      requires maxParallel > 0 && exists k :: 0 <= k < |phases| && phases[k] != Done
      ensures k < |phases| && phases[k] != Done
      ensures phases[k] == Waiting && !mayCancel ==> Sum(phases, Airborne) < maxParallel
    {
      if Sum(phases, Airborne) > 0 { SumPositive(phases, Airborne); }
      k :| 0 <= k < |phases| && phases[k] != Done && (phases[k] == Waiting && !mayCancel ==> Sum(phases, Airborne) < maxParallel);
    }

    ghost predicate SegmentLogged(calls: seq<ToolCall>, start: nat, phases: seq<Phase>)
      reads this
    {
      && Flying(log) == Sum(phases, Airborne) && Bounded(log, maxParallel)
      && Barriers(log, Serial(calls))
      && AllOver(log, start)
      && forall k :: 0 <= k < |phases| && phases[k] == Done ==> Over(log, start + k)
    }

    /** The call at `k` of the segment moves on, in the log and in its phase. */
    method Advance(calls: seq<ToolCall>, start: nat, phases: seq<Phase>, k: nat, p: Phase) returns (after: seq<Phase>)
      requires k < |phases| && start + |phases| <= |calls| && SegmentLogged(calls, start, phases)
      requires forall i :: start <= i < start + |phases| ==> readOnly(calls[i].name)
      requires (phases[k] == Waiting && p == InFlight) || (phases[k] == InFlight && p == Done) || (phases[k] == Waiting && p == Done)
      requires p == InFlight ==> Sum(phases, Airborne) < maxParallel
      modifies this`log
      ensures after == phases[k := p] && SegmentLogged(calls, start, after)
      ensures Sum(after, Left) < Sum(phases, Left)
    {
      hide Bounded, Barriers, Flying, Sum, Over;
      ghost var e := if p == InFlight then Begin(start + k) else if phases[k] == InFlight then End(start + k) else Skip(start + k);
      SumUpdate(phases, k, p, Airborne);
      SumUpdate(phases, k, p, Left);
      FlyingNext(log, e);
      BoundedAtEnd(log, maxParallel);
      BoundedNext(log, e, maxParallel);
      BarriersNext(log, e, Serial(calls));
      after := phases[k := p];
      forall i | 0 <= i < start ensures Over(log + [e], i) { OverGrows(log, e, i); }
      forall i | 0 <= i < |after| && after[i] == Done ensures Over(log + [e], start + i) {
        if i == k { NowOver(log, start + k); } else { OverGrows(log, e, start + i); }
      }
      log := log + [e];
    }

    lemma BoundedAtEnd(log: seq<Event>, limit: nat)
      requires Bounded(log, limit)
      ensures Flying(log) <= limit
    {
      assert log[..|log|] == log;
    }

    /**
     * executeReadOnlySegment: any order of beginnings and endings that the semaphore admits.
     * Without cancellation every slot holds the result the call has on its own.
     */
    method ExecuteReadOnlySegment(calls: seq<ToolCall>, results: array<Option<ToolResult>>, start: nat, end: nat, mayCancel: bool)
      requires start < end <= |calls| == results.Length && maxParallel > 0
      requires forall i :: start <= i < end ==> readOnly(calls[i].name)
      requires ReadOnlyToolsOnlyRead() && Logged(calls, start)
      modifies results, this`world, this`log
      ensures world == old(world) && Logged(calls, end)
      ensures forall i :: 0 <= i < start || end <= i < results.Length ==> results[i] == old(results[i])
      ensures forall i :: start <= i < end ==>
        results[i].Some? && (!mayCancel ==> results[i] == Some(ResultOf(calls[i], world)))
    {
      hide Bounded, Barriers, Flying, Sum;
      var phases := seq(end - start, _ => Waiting);
      NoneAirborne(phases);
      while exists k :: 0 <= k < |phases| && phases[k] != Done
        invariant |phases| == end - start && world == old(world) && SegmentLogged(calls, start, phases)
        invariant forall i :: 0 <= i < start || end <= i < results.Length ==> results[i] == old(results[i])
        invariant forall k :: 0 <= k < |phases| && phases[k] == Done ==>
          results[start + k].Some? && (!mayCancel ==> results[start + k] == Some(ResultOf(calls[start + k], world)))
        decreases Sum(phases, Left)
      {
        var k := PickNext(phases, mayCancel);
        var call := calls[start + k];
        if phases[k] == InFlight {
          results[start + k] := Some(ResultOf(call, world));
          world := tools(call, world).0;
          phases := Advance(calls, start, phases, k, Done);
        } else {
          var giveUp: bool := *;
          if mayCancel && (giveUp || Sum(phases, Airborne) >= maxParallel) {
            results[start + k] := Some(CANCELLED);
            phases := Advance(calls, start, phases, k, Done);
          } else {
            phases := Advance(calls, start, phases, k, InFlight);
          }
        }
      }
      SegmentOver(calls, start, phases);
      forall i | start <= i < end
        ensures results[i].Some? && (!mayCancel ==> results[i] == Some(ResultOf(calls[i], world)))
      {
        assert phases[i - start] == Done;
      }
    }

    lemma SegmentOver(calls: seq<ToolCall>, start: nat, phases: seq<Phase>)
      requires SegmentLogged(calls, start, phases) && forall k :: 0 <= k < |phases| ==> phases[k] == Done
      ensures Logged(calls, start + |phases|)
    {
      hide Bounded, Barriers, Flying;
      NoneAirborne(phases);
      forall i | 0 <= i < start + |phases| ensures Over(log, i) {
        if i >= start { assert phases[i - start] == Done; }
      }
    }

    /** What the batch is compared with: the first `n` slots and the world are those of running call after call. */
    ghost predicate LikeOneByOne(calls: seq<ToolCall>, first: W, n: nat, slots: seq<Option<ToolResult>>, now: W)
      requires n <= |calls| == |slots|
    {
      && now == OneByOne(calls[..n], first).0
      && forall k :: 0 <= k < n ==> slots[k] == Some(OneByOne(calls[..n], first).1[k])
    }

    /** A run of read-only calls may be taken in one go. */
    lemma {:induction false} SegmentLikeOneByOne(calls: seq<ToolCall>, first: W, start: nat, end: nat, before: seq<Option<ToolResult>>,
                                                 after: seq<Option<ToolResult>>, now: W)
      requires start <= end <= |calls| == |before| == |after| && ReadOnlyToolsOnlyRead()
      requires forall i :: start <= i < end ==> readOnly(calls[i].name) && after[i] == Some(ResultOf(calls[i], now))
      requires forall i :: 0 <= i < start ==> after[i] == before[i]
      requires LikeOneByOne(calls, first, start, before, now)
      ensures LikeOneByOne(calls, first, end, after, now)
      decreases end
    {
      if end > start {
        var shorter := after[end - 1 := before[end - 1]];
        SegmentLikeOneByOne(calls, first, start, end - 1, before, shorter, now);
        OneMore(calls, first, end - 1);
        assert readOnly(calls[end - 1].name) && tools(calls[end - 1], now).0 == now;
        forall k | 0 <= k < end ensures after[k] == Some(OneByOne(calls[..end], first).1[k]) {
          if k < end - 1 { assert shorter[k] == after[k]; }
        }
      }
    }

    lemma SerialLikeOneByOne(calls: seq<ToolCall>, first: W, n: nat, slots: seq<Option<ToolResult>>, now: W)
      requires n < |calls| == |slots| && LikeOneByOne(calls, first, n, slots, now)
      ensures LikeOneByOne(calls, first, n + 1, slots[n := Some(ResultOf(calls[n], now))], tools(calls[n], now).0)
    {
      OneMore(calls, first, n);
    }

    /** The end of the run of read-only calls that starts at `start`. */
    method SegmentEnd(calls: seq<ToolCall>, start: nat) returns (end: nat)
      requires start < |calls| && readOnly(calls[start].name)
      ensures start < end <= |calls| && forall i :: start <= i < end ==> readOnly(calls[i].name)
    {
      end := start;
      while end < |calls| && readOnly(calls[end].name)
        invariant start <= end <= |calls| && forall i :: start <= i < end ==> readOnly(calls[i].name)
        decreases |calls| - end
      {
        end := end + 1;
      }
    }

    /**
     * Execute. Whatever the schedule, every call gets a result in its own slot, no more than
     * `maxParallel` calls are in flight, and serial calls are barriers; and without cancellation
     * results and world are those of running the calls one by one.
     */
    method Execute(calls: seq<ToolCall>, mayCancel: bool) returns (results: array<Option<ToolResult>>)
      requires ReadOnlyToolsOnlyRead() && maxParallel > 0 && log == []
      modifies this
      ensures fresh(results) && results.Length == |calls|
      ensures forall i :: 0 <= i < |calls| ==> results[i].Some?
      ensures !mayCancel ==> LikeOneByOne(calls, old(world), |calls|, results[..], world)
      ensures Logged(calls, |calls|)
    {
      hide LikeOneByOne, Logged;
      results := new Option<ToolResult>[|calls|](_ => None);
      ghost var first := world;
      Empty(calls, first, results[..]);
      var i := 0;
      while i < |calls|
        invariant i <= |calls| == results.Length && Logged(calls, i) && fresh(results)
        invariant forall k :: 0 <= k < i ==> results[k].Some?
        invariant !mayCancel ==> LikeOneByOne(calls, first, i, results[..], world)
        decreases |calls| - i
      {
        ghost var before, now := results[..], world;
        if !parallelSafe || !readOnly(calls[i].name) {
          var result := ExecuteOne(calls, i);
          if !mayCancel { SerialLikeOneByOne(calls, first, i, before, now); }
          results[i] := Some(result);
          assert results[..] == before[i := Some(result)];
          i := i + 1;
        } else {
          var end := SegmentEnd(calls, i);
          ExecuteReadOnlySegment(calls, results, i, end, mayCancel);
          if !mayCancel { SegmentLikeOneByOne(calls, first, i, end, before, results[..], now); }
          i := end;
        }
      }
    }

    lemma Empty(calls: seq<ToolCall>, first: W, slots: seq<Option<ToolResult>>)
      requires |slots| == |calls| && log == []
      ensures LikeOneByOne(calls, first, 0, slots, first) && Logged(calls, 0)
    {
    }
  }
}
