/** The requests a turn sends to the model: how many, in which round, and with what usage behind them. */
module ModelRequests {
  import opened Messages
  import opened Checkpoints

  datatype ModelRequest = ModelRequest(round: nat, messages: seq<Message>, usage: Usage)

  function CountIn(requests: seq<ModelRequest>, round: nat): nat {
    if requests == [] then 0
    else CountIn(requests[..|requests| - 1], round) + if requests[|requests| - 1].round == round then 1 else 0
  }

  predicate InRounds(requests: seq<ModelRequest>, lo: nat, hi: nat) {
    forall i :: 0 <= i < |requests| ==> lo <= requests[i].round < hi
  }

  /** What the provider may rely on in every request. */
  predicate AllPaired(requests: seq<ModelRequest>) {
    forall i :: 0 <= i < |requests| ==> Paired(requests[i].messages)
  }

  /** Every request shows from `least` to `most` model rounds more than its round index. */
  predicate InStep(requests: seq<ModelRequest>, least: int, most: int) {
    forall i :: 0 <= i < |requests| ==> requests[i].round + least <= requests[i].usage.modelRounds <= requests[i].round + most
  }

  /** Every request finds the tool calls within the limit, or as they were when the execution began. */
  predicate ToolsBounded(requests: seq<ModelRequest>, limits: Limits, calls: nat) {
    forall i :: 0 <= i < |requests| ==> requests[i].usage.ToolsWithin(limits) || requests[i].usage.toolCalls == calls
  }

  /** One round can ask again after each retry and once more after an overflow. */
  function RequestsPerRound(maxModelRetries: int): nat {
    (if maxModelRetries == 0 then 2 else if maxModelRetries < 0 then 0 else maxModelRetries) + 2
  }

  lemma {:induction false} CountConcat(a: seq<ModelRequest>, b: seq<ModelRequest>, round: nat)
    ensures CountIn(a + b, round) == CountIn(a, round) + CountIn(b, round)
  {
    if b == [] {
      assert a + b == a;
    } else {
      assert (a + b)[..|a + b| - 1] == a + b[..|b| - 1];
      CountConcat(a, b[..|b| - 1], round);
    }
  }

  lemma {:induction false} CountIsSmall(requests: seq<ModelRequest>, round: nat)
    ensures CountIn(requests, round) <= |requests|
  {
    if requests != [] { CountIsSmall(requests[..|requests| - 1], round); }
  }

  lemma {:induction false} CountElsewhere(requests: seq<ModelRequest>, lo: nat, hi: nat, round: nat)
    requires InRounds(requests, lo, hi) && !(lo <= round < hi)
    ensures CountIn(requests, round) == 0
  {
    if requests != [] { CountElsewhere(requests[..|requests| - 1], lo, hi, round); }
  }

  /**
   * How often each round was asked when the loop stands before round `end`: the rounds behind it once
   * more than those ahead, which only an execution that took rounds up again can have asked.
   */
  ghost predicate Spread(requests: seq<ModelRequest>, end: nat, perRound: nat, repeats: nat) {
    forall round: nat :: CountIn(requests, round) <= perRound * (repeats + if round < end then 1 else 0)
  }

  lemma {:induction false} NothingSpread(end: nat, perRound: nat)
    ensures Spread([], end, perRound, 0)
  {
  }

  /** A further round adds at most its own requests. */
  lemma {:induction false} SpreadNext(a: seq<ModelRequest>, b: seq<ModelRequest>, round: nat, perRound: nat)
    requires Spread(a, round, perRound, 0) && |b| <= perRound && forall i :: 0 <= i < |b| ==> b[i].round == round
    ensures Spread(a + b, round + 1, perRound, 0)
  {
    forall r: nat ensures CountIn(a + b, r) <= perRound * (if r < round + 1 then 1 else 0) {
      CountConcat(a, b, r);
      CountIsSmall(b, r);
      if r != round { CountElsewhere(b, round, round + 1, r); }
    }
  }

  /** An execution that goes on where the last one ended asks no round again; one that starts further back asks some once more. */
  lemma {:induction false} SpreadConcat(a: seq<ModelRequest>, b: seq<ModelRequest>, before: nat, start: nat, end: nat, perRound: nat, repeats: nat)
    requires start <= before && start <= end && InRounds(b, start, end)
    requires Spread(a, before, perRound, repeats) && Spread(b, end, perRound, 0)
    ensures Spread(a + b, end, perRound, repeats + if start < before then 1 else 0)
  {
    var again := repeats + if start < before then 1 else 0;
    forall round: nat ensures CountIn(a + b, round) <= perRound * (again + if round < end then 1 else 0) {
      CountConcat(a, b, round);
      SpreadAt(a, before, perRound, repeats, round);
      SpreadAt(b, end, perRound, 0, round);
      if !(start <= round < end) { CountElsewhere(b, start, end, round); }
      Scaled(perRound, repeats);
    }
  }

  lemma Scaled(perRound: nat, n: nat)
    ensures perRound * (n + 0) + perRound == perRound * (n + 1) && perRound * (n + 1) + perRound == perRound * (n + 1 + 1)
    ensures perRound * n <= perRound * (n + 1)
  {
  }

  lemma SpreadAt(requests: seq<ModelRequest>, end: nat, perRound: nat, repeats: nat, round: nat)
    requires Spread(requests, end, perRound, repeats)
    ensures CountIn(requests, round) <= perRound * (repeats + if round < end then 1 else 0)
  {
  }

  /** No round in between went by without a request. */
  ghost predicate Covered(requests: seq<ModelRequest>, lo: int, hi: int) {
    forall round: nat :: lo <= round < hi ==> CountIn(requests, round) >= 1
  }

  lemma {:induction false} CoveredConcat(a: seq<ModelRequest>, b: seq<ModelRequest>, lo: int, mid: int, hi: int)
    requires Covered(a, lo, mid) && Covered(b, mid, hi)
    ensures Covered(a + b, lo, hi)
  {
    forall round: nat | lo <= round < hi ensures CountIn(a + b, round) >= 1 {
      CountConcat(a, b, round);
    }
  }

  lemma {:induction false} CountAll(requests: seq<ModelRequest>, round: nat)
    requires forall i :: 0 <= i < |requests| ==> requests[i].round == round
    ensures CountIn(requests, round) == |requests|
  {
    if requests != [] { CountAll(requests[..|requests| - 1], round); }
  }

  /** A round that sent anything is covered. */
  lemma {:induction false} CoveredNext(a: seq<ModelRequest>, b: seq<ModelRequest>, lo: int, round: nat)
    requires Covered(a, lo, round) && b != [] && forall i :: 0 <= i < |b| ==> b[i].round == round
    ensures Covered(a + b, lo, round + 1)
  {
    CountAll(b, round);
    CoveredConcat(a, b, lo, round, round + 1);
  }

  /**
   * One execution that began before round `start` and stands before round `end`: every round in between was
   * asked, none too often, and every request shows the rounds and the tool calls counted before it.
   */
  ghost predicate Recorded(requests: seq<ModelRequest>, start: nat, end: nat, lag: int, calls: nat, limits: Limits, perRound: nat) {
    && InRounds(requests, start, end) && InStep(requests, lag, lag) && ToolsBounded(requests, limits, calls)
    && Spread(requests, end, perRound, 0) && Covered(requests, start, end)
  }

  lemma {:induction false} NothingRecorded(start: nat, lag: int, calls: nat, limits: Limits, perRound: nat)
    ensures Recorded([], start, start, lag, calls, limits, perRound)
  {
    NothingSpread(start, perRound);
  }

  /** A round that asked at all moves the record on by one. */
  lemma {:induction false} RecordedNext(a: seq<ModelRequest>, b: seq<ModelRequest>, start: nat, round: nat, usage: Usage, calls: nat,
                                        limits: Limits, perRound: nat)
    requires start <= round && Recorded(a, start, round, usage.modelRounds - round, calls, limits, perRound)
    requires |b| <= perRound && forall i :: 0 <= i < |b| ==> b[i].round == round && b[i].usage == usage
    requires usage.ToolsWithin(limits) || usage.toolCalls == calls
    ensures Recorded(a + b, start, if b == [] then round else round + 1, usage.modelRounds - round, calls, limits, perRound)
  {
    hide CountIn;
    if b == [] {
      assert a + b == a;
    } else {
      hide Spread, Covered;
      SpreadNext(a, b, round, perRound);
      CoveredNext(a, b, start, round);
    }
  }

  /**
   * Executions one after the other. `repeats` of them took rounds up again, `lag` model rounds were
   * counted for rounds that were asked again.
   */
  ghost predicate Chained(requests: seq<ModelRequest>, end: nat, lag: int, limits: Limits, perRound: nat, repeats: nat) {
    && InStep(requests, 0, lag) && (forall i :: 0 <= i < |requests| ==> requests[i].usage.ToolsWithin(limits))
    && Spread(requests, end, perRound, repeats) && Covered(requests, 0, end)
  }

  lemma {:induction false} RecordedIsChained(requests: seq<ModelRequest>, end: nat, limits: Limits, perRound: nat)
    requires Recorded(requests, 0, end, 0, 0, limits, perRound)
    ensures Chained(requests, end, 0, limits, perRound, 0)
  {
    hide Spread, Covered;
    forall i | 0 <= i < |requests| ensures requests[i].usage.ToolsWithin(limits) {}
  }

  lemma {:induction false} ChainedNext(a: seq<ModelRequest>, b: seq<ModelRequest>, before: nat, start: nat, end: nat,
                                       lag: nat, calls: nat, limits: Limits, perRound: nat, repeats: nat)
    requires start <= before && start <= end && (limits.maxToolCalls > 0 ==> calls <= limits.maxToolCalls)
    requires Chained(a, before, lag, limits, perRound, repeats)
    requires Recorded(b, start, end, lag + before - start, calls, limits, perRound)
    ensures Chained(a + b, end, lag + before - start, limits, perRound, repeats + if start < before then 1 else 0)
  {
    hide Spread, CountIn;
    SpreadConcat(a, b, before, start, end, perRound, repeats);
    CoveredConcat(a, b, 0, start, end);
    forall i | 0 <= i < |a + b| ensures (a + b)[i].usage.ToolsWithin(limits) {}
  }

  lemma AllPairedConcat(a: seq<ModelRequest>, b: seq<ModelRequest>)
    ensures AllPaired(a) && AllPaired(b) ==> AllPaired(a + b)
  {
  }
}
