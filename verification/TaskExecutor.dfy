/** What the durable task executor promises over every schedule of its steps, and where that ends. */
module TaskExecutor {
  import opened Wrappers
  import opened TaskSteps

  // The promises, over every schedule.

  /** No start is forced, and no recovery is there to force one. */
  predicate Unforced(processes: seq<Process>) {
    forall i :: 0 <= i < |processes| ==> !processes[i].Recovery? && (processes[i].Starter? ==> !processes[i].forced)
  }

  predicate Free(choice: Choice) {
    !choice.Recover? && (choice.Start? ==> !choice.forced)
  }

  predicate NoRecovery(schedule: seq<Choice>) {
    forall i :: 0 <= i < |schedule| ==> Free(schedule[i])
  }

  /** Same kind of process, and a start stays forced or unforced. */
  predicate SameKind(a: Process, b: Process) {
    && (a.Starter? <==> b.Starter?) && (a.Worker? <==> b.Worker?) && (a.Recovery? <==> b.Recovery?)
    && (a.Starter? && b.Starter? ==> a.forced == b.forced)
  }

  predicate SameKinds(a: seq<Process>, b: seq<Process>) {
    |a| == |b| && forall k :: 0 <= k < |a| ==> SameKind(a[k], b[k])
  }

  /** Everybody stays, perhaps with a newcomer; a worker joins exactly when one is launched. */
  predicate Follows(s: State, t: State) {
    && |s.processes| <= |t.processes| <= |s.processes| + 1
    && SameKinds(s.processes, t.processes[..|s.processes|])
    && var joined := |t.processes| > |s.processes| && t.processes[|s.processes|].Worker?;
       if joined then |t.launchers| == |s.launchers| + 1 else t.launchers == s.launchers
  }

  lemma {:induction false} StarterFollows(s: State, i: nat, ok: bool)
    requires i < |s.processes| && s.processes[i].Starter?
    ensures Follows(s, StarterStep(s, i, ok))
  {
    var t := StarterStep(s, i, ok);
    forall k | 0 <= k < |s.processes| ensures SameKind(s.processes[k], t.processes[k]) {}
  }

  lemma {:induction false} WorkerFollows(s: State, i: nat, ok: bool)
    requires i < |s.processes| && s.processes[i].Worker?
    ensures Follows(s, WorkerStep(s, i, ok)) && |WorkerStep(s, i, ok).processes| == |s.processes|
  {
    var t := WorkerStep(s, i, ok);
    forall k | 0 <= k < |s.processes| ensures SameKind(s.processes[k], t.processes[k]) {}
  }

  lemma {:induction false} CancellerFollows(s: State, i: nat, ok: bool)
    requires i < |s.processes| && s.processes[i].Canceller?
    ensures Follows(s, CancellerStep(s, i, ok)) && |CancellerStep(s, i, ok).processes| == |s.processes|
  {
    var t := CancellerStep(s, i, ok);
    forall k | 0 <= k < |s.processes| ensures SameKind(s.processes[k], t.processes[k]) {}
  }

  /** Without recoveries a newcomer is whoever the choice brings, or a launched worker. */
  lemma {:induction false} NextFollows(s: State, choice: Choice)
    requires Unforced(s.processes) && Free(choice)
    ensures Follows(s, Next(s, choice)) && Unforced(Next(s, choice).processes[|s.processes|..])
  {
    hide StarterStep, WorkerStep, CancellerStep, RecoveryStep;
    match choice
    case Start(forced) => assert (s.processes + [Starter(Enter, forced)])[..|s.processes|] == s.processes;
    case Cancel => assert (s.processes + [Canceller(FindWorker, None)])[..|s.processes|] == s.processes;
    case Move(i, ok) =>
      if i < |s.processes| {
        match s.processes[i]
        case Starter(_, _) => StarterFollows(s, i, ok); LauncherIsWorker(s, i, ok);
        case Worker(_, _, _) => WorkerFollows(s, i, ok);
        case Canceller(_, _) => CancellerFollows(s, i, ok);
      }
  }

  lemma LauncherIsWorker(s: State, i: nat, ok: bool)
    requires i < |s.processes| && s.processes[i].Starter?
    ensures var t := StarterStep(s, i, ok); |t.processes| > |s.processes| ==> t.processes[|s.processes|].Worker?
  {
  }

  lemma {:induction false} NextStaysUnforced(s: State, choice: Choice)
    requires Unforced(s.processes) && Free(choice)
    ensures Unforced(Next(s, choice).processes)
  {
    hide Next;
    NextFollows(s, choice);
    var t, n := Next(s, choice), |s.processes|;
    forall k | 0 <= k < |t.processes| ensures !t.processes[k].Recovery? && (t.processes[k].Starter? ==> !t.processes[k].forced) {
      if k < n {
        assert SameKind(s.processes[k], t.processes[..n][k]);
      } else {
        assert t.processes[n..][k - n] == t.processes[k];
      }
    }
  }

  lemma {:induction false} RunStaysUnforced(s: State, schedule: seq<Choice>)
    requires Unforced(s.processes) && NoRecovery(schedule)
    ensures Unforced(Exec(s, schedule).processes)
    decreases schedule
  {
    hide Next, Unforced;
    if schedule != [] {
      assert Free(schedule[0]) && NoRecovery(schedule[1..]);
      NextStaysUnforced(s, schedule[0]);
      RunStaysUnforced(Next(s, schedule[0]), schedule[1..]);
    }
  }

  /** However starts, workers and cancels interleave, at most one worker is launched. */
  lemma {:induction false} AtMostOneWorker(store: Option<Status>, schedule: seq<Choice>)
    requires ReliableRun(Fresh(store), schedule) && NoRecovery(schedule)
    ensures |Exec(Fresh(store), schedule).launchers| <= 1
  {
    hide Next;
    RunKeepsInvariant(Fresh(store), schedule);
    RunStaysUnforced(Fresh(store), schedule);
    UnforcedLaunchesOnce(Exec(Fresh(store), schedule));
  }

  lemma TwoLaunches(s: State)
    requires Launched(s) && |s.launchers| > 1
    ensures !Unforced(s.processes)
  {
    var i, j := s.launchers[0], s.launchers[1];
    assert s.processes[i].forced || s.processes[j].forced;
  }

  lemma UnforcedLaunchesOnce(s: State)
    requires Launched(s) && Unforced(s.processes)
    ensures |s.launchers| <= 1
  {
    hide Launched, Unforced;
    if |s.launchers| > 1 { TwoLaunches(s); }
  }

  /** With forced starts among them, each start still launches at most one worker, and only one of these is unforced. */
  lemma {:induction false} LaunchesAreDistinct(store: Option<Status>, schedule: seq<Choice>)
    requires ReliableRun(Fresh(store), schedule)
    ensures var s := Exec(Fresh(store), schedule);
            forall k, l :: 0 <= k < l < |s.launchers| ==>
              && s.launchers[k] != s.launchers[l]
              && s.launchers[k] < |s.processes| && s.launchers[l] < |s.processes|
              && s.processes[s.launchers[k]].Starter? && s.processes[s.launchers[l]].Starter?
              && (s.processes[s.launchers[k]].forced || s.processes[s.launchers[l]].forced)
  {
    hide Next;
    RunKeepsInvariant(Fresh(store), schedule);
  }

  lemma {:induction false} NextReports(s: State, choice: Choice)
    requires Reported(s)
    ensures Reported(Next(s, choice)) && s.fired <= Next(s, choice).fired
  {
    hide Reported, StarterStep, WorkerStep, CancellerStep, RecoveryStep;
    match choice
    case Move(i, ok) =>
      if i < |s.processes| {
        match s.processes[i]
        case Starter(_, _) => StarterReports(s, i, ok);
        case Worker(_, _, _) => WorkerReports(s, i, ok);
        case Canceller(_, _) => CancellerReports(s, i, ok);
        case Recovery(_, _) => RecoveryReports(s, i, ok);
      }
    case Start(forced) => SameReports(s, Next(s, choice));
    case Cancel => SameReports(s, Next(s, choice));
    case Recover(_) => SameReports(s, Next(s, choice));
  }

  lemma SameReports(s: State, t: State)
    requires Reported(s) && t.notified == s.notified && t.fired == s.fired
    ensures Reported(t) && s.fired <= t.fired
  {
  }

  lemma StarterReports(s: State, i: nat, ok: bool)
    requires Reported(s) && i < |s.processes| && s.processes[i].Starter?
    ensures Reported(StarterStep(s, i, ok)) && s.fired <= StarterStep(s, i, ok).fired
  {
    SameReports(s, StarterStep(s, i, ok));
  }

  lemma WorkerReports(s: State, i: nat, ok: bool)
    requires Reported(s) && i < |s.processes| && s.processes[i].Worker?
    ensures Reported(WorkerStep(s, i, ok)) && s.fired <= WorkerStep(s, i, ok).fired
  {
  }

  lemma CancellerReports(s: State, i: nat, ok: bool)
    requires Reported(s) && i < |s.processes| && s.processes[i].Canceller?
    ensures Reported(CancellerStep(s, i, ok)) && s.fired <= CancellerStep(s, i, ok).fired
  {
  }

  lemma RecoveryReports(s: State, i: nat, ok: bool)
    requires Reported(s) && i < |s.processes| && s.processes[i].Recovery?
    ensures Reported(RecoveryStep(s, i, ok)) && s.fired <= RecoveryStep(s, i, ok).fired
  {
  }

  // A cancelled task.

  /** No worker is on the way to save another status. */
  predicate NobodyOverwrites(s: State) {
    forall i :: 0 <= i < |s.processes| && s.processes[i].Worker? ==>
      && !s.processes[i].worker.SaveRunning?
      && (s.processes[i].worker.Execute? ==> s.processes[i].cancelled)
      && (s.processes[i].worker.SaveFinal? ==> s.processes[i].final == Cancelled)
  }

  predicate Settled(s: State) {
    s.store == Some(Cancelled) && NobodyOverwrites(s)
  }

  lemma {:induction false} StarterStaysSettled(s: State, i: nat, ok: bool)
    requires OneFree(s) && Unforced(s.processes) && Settled(s) && i < |s.processes| && s.processes[i].Starter?
    ensures Settled(StarterStep(s, i, ok))
  {
    var t := StarterStep(s, i, ok);
    assert !s.processes[i].starter.SaveQueued? by { assert s.processes[i].Committed() ==> s.processes[i].Launching(); }
    forall k | 0 <= k < |s.processes| && k != i ensures t.processes[k] == s.processes[k] {}
  }

  lemma {:induction false} WorkerStaysSettled(s: State, i: nat, ok: bool)
    requires Settled(s) && i < |s.processes| && s.processes[i].Worker? && Reliable(s, Move(i, ok))
    ensures Settled(WorkerStep(s, i, ok))
  {
    var t := WorkerStep(s, i, ok);
    forall k | 0 <= k < |s.processes| && k != i ensures t.processes[k] == s.processes[k] {}
  }

  lemma {:induction false} CancellerStaysSettled(s: State, i: nat, ok: bool)
    requires Settled(s) && i < |s.processes| && s.processes[i].Canceller?
    ensures Settled(CancellerStep(s, i, ok))
  {
    var t := CancellerStep(s, i, ok);
    forall k | 0 <= k < |s.processes| && t.processes[k].Worker?
      ensures s.processes[k].Worker? && t.processes[k] == s.processes[k].(cancelled := t.processes[k].cancelled)
              && (s.processes[k].cancelled ==> t.processes[k].cancelled)
    {
    }
  }

  lemma {:induction false} NextStaysSettled(s: State, choice: Choice)
    requires OneFree(s) && Unforced(s.processes) && Settled(s) && Reliable(s, choice) && Free(choice)
    ensures Settled(Next(s, choice))
  {
    hide StarterStep, WorkerStep, CancellerStep, RecoveryStep;
    match choice
    case Move(i, ok) =>
      if i < |s.processes| {
        match s.processes[i]
        case Starter(_, _) => StarterStaysSettled(s, i, ok);
        case Worker(_, _, _) => WorkerStaysSettled(s, i, ok);
        case Canceller(_, _) => CancellerStaysSettled(s, i, ok);
      }
    case _ =>
  }

  lemma {:induction false} RunStaysSettled(s: State, schedule: seq<Choice>)
    requires Invariant(s) && Unforced(s.processes) && Settled(s) && ReliableRun(s, schedule) && NoRecovery(schedule)
    ensures Settled(Exec(s, schedule))
    decreases schedule
  {
    hide Next, Settled, Unforced, Guarded, OneFree, Launched, Reported;
    if schedule != [] {
      assert Free(schedule[0]) && NoRecovery(schedule[1..]);
      NextStaysSettled(s, schedule[0]);
      NextKeepsInvariant(s, schedule[0]);
      NextStaysUnforced(s, schedule[0]);
      RunStaysSettled(Next(s, schedule[0]), schedule[1..]);
    }
  }

  /** A worker that can still overwrite does so within two of its own steps. */
  lemma {:induction false} OverwriteHappens(s: State, i: nat) returns (more: seq<Choice>)
    requires i < |s.processes| && s.processes[i].Worker? && s.store == Some(Cancelled)
    requires var p := s.processes[i];
             p.worker.SaveRunning? || (p.worker.Execute? && !p.cancelled) || (p.worker.SaveFinal? && p.final != Cancelled)
    ensures ReliableRun(s, more) && NoRecovery(more) && Exec(s, more).store != Some(Cancelled)
  {
    var step := Move(i, true);
    var t := Next(s, step);
    EmptyRun(t);
    ExecCons(s, step, []);
    assert [step] + [] == [step] && [step][1..] == [];
    more := [step];
    if s.processes[i].worker.Execute? {
      var u := Next(t, step);
      EmptyRun(u);
      ExecCons(t, step, []);
      ExecCons(s, step, [step]);
      assert [step] + [step] == [step, step] && [step, step][1..] == [step];
      more := [step, step];
    }
  }

  /** The task stays cancelled whatever happens next. */
  ghost predicate StaysCancelled(s: State) {
    forall more :: ReliableRun(s, more) && NoRecovery(more) ==> Exec(s, more).store == Some(Cancelled)
  }

  /**
   * After any run without recoveries whose loads answer, a cancelled task stays cancelled exactly when no
   * worker stands between its look at the store and a save of another status.
   */
  lemma {:induction false} CancelledStaysIff(store: Option<Status>, past: seq<Choice>)
    requires ReliableRun(Fresh(store), past) && NoRecovery(past)
    requires Exec(Fresh(store), past).store == Some(Cancelled)
    ensures StaysCancelled(Exec(Fresh(store), past)) <==> NobodyOverwrites(Exec(Fresh(store), past))
  {
    hide Next, Exec, ReliableRun;
    var s := Exec(Fresh(store), past);
    RunKeepsInvariant(Fresh(store), past);
    RunStaysUnforced(Fresh(store), past);
    if NobodyOverwrites(s) {
      forall more | ReliableRun(s, more) && NoRecovery(more) ensures Exec(s, more).store == Some(Cancelled) {
        RunStaysSettled(s, more);
      }
    } else {
      var i :| 0 <= i < |s.processes| && s.processes[i].Worker?
        && !(!s.processes[i].worker.SaveRunning?
             && (s.processes[i].worker.Execute? ==> s.processes[i].cancelled)
             && (s.processes[i].worker.SaveFinal? ==> s.processes[i].final == Cancelled));
      var more := OverwriteHappens(s, i);
    }
  }

  /** The completion handler fires at most once and only with a terminal status, even when loads fail. */
  lemma {:induction false} HandlerFiresOnce(s: State, schedule: seq<Choice>)
    requires Reported(s)
    ensures Reported(Exec(s, schedule)) && s.fired <= Exec(s, schedule).fired
    decreases schedule
  {
    hide Next;
    if schedule != [] {
      NextReports(s, schedule[0]);
      HandlerFiresOnce(Next(s, schedule[0]), schedule[1..]);
    }
  }

  // Where the promises end.

  /** A worker left to itself stores and reports how its tool ended: cancelled, completed, or failed. */
  lemma {:induction false} ToolEndIsReported(s: State, i: nat, ok: bool)
    requires i < |s.processes| && s.processes[i].Worker? && s.processes[i].worker.SaveRunning?
    ensures var end := if s.processes[i].cancelled then Cancelled else if ok then Completed else Failed;
            var t := Exec(s, [Move(i, true), Move(i, ok), Move(i, true), Move(i, true), Move(i, true)]);
            && t.store == Some(end) && t.fired == (if s.notified then s.fired else s.fired + [end])
            && t.running == None && t.processes == s.processes[i := Worker(Ended, end, s.processes[i].cancelled)]
  {
    var a := Next(s, Move(i, true));
    assert a.store == Some(Running);
    var b := Next(a, Move(i, ok));
    var c := Next(b, Move(i, true));
    var d := Next(c, Move(i, true));
    var e := Next(d, Move(i, true));
    ExecCons(s, Move(i, true), [Move(i, ok), Move(i, true), Move(i, true), Move(i, true)]);
    ExecCons(a, Move(i, ok), [Move(i, true), Move(i, true), Move(i, true)]);
    ExecCons(b, Move(i, true), [Move(i, true), Move(i, true)]);
    ExecCons(c, Move(i, true), [Move(i, true)]);
    ExecCons(d, Move(i, true), []);
    EmptyRun(e);
  }

  /** A canceller left to itself stops the registered worker, and stores and reports the cancellation of a task that is not over. */
  lemma {:induction false} CancelIsReported(s: State, i: nat)
    requires i < |s.processes| && s.processes[i] == Canceller(FindWorker, None)
    requires s.running.Some? ==> s.running.value < |s.processes| && s.processes[s.running.value].Worker?
    ensures var t := Exec(s, [Move(i, true), Move(i, true), Move(i, true), Move(i, true), Move(i, true)]);
            && |t.processes| == |s.processes|
            && (s.running.Some? ==> t.processes[s.running.value] == s.processes[s.running.value].(cancelled := true))
            && if s.store == Some(Queued) || s.store == Some(Running) then
                 t.store == Some(Cancelled) && t.fired == (if s.notified then s.fired else s.fired + [Cancelled])
               else t.store == s.store && t.fired == s.fired
  {
    var m := Move(i, true);
    var a := Next(s, m);
    var b := Next(a, m);
    var c := Next(b, m);
    var d := Next(c, m);
    var e := Next(d, m);
    ExecCons(s, m, [m, m, m, m]);
    ExecCons(a, m, [m, m, m]);
    ExecCons(b, m, [m, m]);
    ExecCons(c, m, [m]);
    ExecCons(d, m, []);
    EmptyRun(e);
    assert a.store == s.store && a.processes == s.processes[i := Canceller(if s.running.Some? then StopWorker else LoadTarget, s.running)];
    assert s.running.Some? ==> b.store == s.store && b.processes[i] == Canceller(LoadTarget, s.running);
  }

  /** A recovery left to itself fails what was running and must not be restarted, and starts any other open task by force. */
  lemma {:induction false} RecoveryIsReported(s: State, i: nat)
    requires i < |s.processes| && s.processes[i].Recovery? && s.processes[i].recovery.ListTasks?
    ensures var t := Exec(s, [Move(i, true), Move(i, true), Move(i, true)]);
            if s.store == None || s.store.value.Terminal() then
              t == s.(processes := s.processes[i := s.processes[i].(recovery := Recovered)])
            else if s.store == Some(Running) && !s.processes[i].restartSafe then
              && t.store == Some(Failed) && t.fired == (if s.notified then s.fired else s.fired + [Failed])
              && |t.processes| == |s.processes| && t.launchers == s.launchers
            else
              && t.store == s.store && t.fired == s.fired
              && t.processes == s.processes[i := s.processes[i].(recovery := Recovered)] + [Starter(Enter, true)]
  {
    var m := Move(i, true);
    var a := Next(s, m);
    var b := Next(a, m);
    var c := Next(b, m);
    ExecCons(s, m, [m, m]);
    ExecCons(a, m, [m]);
    ExecCons(b, m, []);
    EmptyRun(c);
  }

  /** A worker that finds its task cancelled runs nothing and stores nothing. */
  lemma {:induction false} CancelledIsNotRun(s: State, i: nat)
    requires i < |s.processes| && s.processes[i].Worker? && s.processes[i].worker.CheckTask? && s.store == Some(Cancelled)
    ensures var t := Exec(s, [Move(i, true), Move(i, true)]);
            t == s.(running := None, processes := s.processes[i := s.processes[i].(worker := Ended)])
  {
    var m := Move(i, true);
    ExecCons(s, m, [m]);
    ExecCons(Next(s, m), m, []);
    EmptyRun(Next(Next(s, m), m));
  }

  lemma ExecCons(s: State, choice: Choice, rest: seq<Choice>)
    ensures Exec(s, [choice] + rest) == Exec(Next(s, choice), rest)
  {
    assert ([choice] + rest)[1..] == rest;
  }

  /** A start that saves and launches, moving alone from a free executor. */
  lemma {:induction false} LaunchAlone(s: State, i: nat, loaded: bool)
    requires i < |s.processes| && s.processes[i].Starter? && s.processes[i].starter.Enter? && s.running == None && !s.starting
    requires s.store == None || !loaded || (s.processes[i].forced && !s.store.value.Terminal())
    ensures var t := Exec(s, [Move(i, true), Move(i, loaded), Move(i, true), Move(i, true), Move(i, true)]);
            && t.store == Some(Queued) && !t.starting && t.running == None && t.launchers == s.launchers + [i]
            && |t.processes| == |s.processes| + 1
  {
    var m := Move(i, true);
    var s1 := Next(s, m);
    var s2 := Next(s1, Move(i, loaded));
    var s3 := Next(s2, m);
    var s4 := Next(s3, m);
    ExecCons(s, m, [Move(i, loaded), m, m, m]);
    ExecCons(s1, Move(i, loaded), [m, m, m]);
    ExecCons(s2, m, [m, m]);
    ExecCons(s3, m, [m]);
    ExecCons(s4, m, []);
    assert [m] + [m, m, m] == [m, m, m, m];
  }

  /** The first start of a new task, up to the launch of its worker, which has not registered yet. */
  const OPENING: seq<Choice> := [Start(false), Move(0, true), Move(0, true), Move(0, true), Move(0, true), Move(0, true)]

  /**
   * In that window a second start launches a second worker if it is forced, as a recovery is,
   * or if its load fails: both conditions of the promise are needed.
   */
  lemma {:induction false} SecondWorker(forced: bool, loaded: bool)
    requires forced || !loaded
    ensures var second := [Start(forced), Move(2, true), Move(2, loaded), Move(2, true), Move(2, true), Move(2, true)];
            |Exec(Fresh(None), OPENING + second).launchers| == 2
  {
    hide Next, Exec;
    var s0 := Fresh(None);
    var first, next := [Move(0, true), Move(0, true), Move(0, true), Move(0, true), Move(0, true)],
                       [Move(2, true), Move(2, loaded), Move(2, true), Move(2, true), Move(2, true)];
    var s1 := Exec(s0, [Start(false)]);
    var s2 := Exec(s1, first);
    var s3 := Exec(s2, [Start(forced)]);
    ExecArrival(s0, false);
    LaunchAlone(s1, 0, true);
    ExecArrival(s2, forced);
    LaunchAlone(s3, 2, loaded);
    ExecConcat(s0, [Start(false)], first);
    assert OPENING == [Start(false)] + first;
    ExecConcat(s2, [Start(forced)], next);
    ExecConcat(s0, OPENING, [Start(forced)] + next);
    assert [Start(forced), Move(2, true), Move(2, loaded), Move(2, true), Move(2, true), Move(2, true)] == [Start(forced)] + next;
  }

  lemma ExecArrival(s: State, forced: bool)
    ensures Exec(s, [Start(forced)]) == s.(processes := s.processes + [Starter(Enter, forced)])
  {
    ExecCons(s, Start(forced), []);
    assert [Start(forced)] + [] == [Start(forced)];
  }

  lemma {:induction false} ExecConcat(s: State, a: seq<Choice>, b: seq<Choice>)
    ensures Exec(s, a + b) == Exec(Exec(s, a), b)
    decreases a
  {
    if a == [] {
      assert a + b == b;
    } else {
      assert (a + b)[1..] == a[1..] + b;
      ExecConcat(Next(s, a[0]), a[1..], b);
    }
  }

  /** A run without failing loads or recoveries leads from a new task to `t`. */
  ghost predicate Reachable(t: State) {
    exists schedule :: Exec(Fresh(None), schedule) == t && ReliableRun(Fresh(None), schedule) && NoRecovery(schedule)
  }

  lemma {:induction false} ReliableConcat(s: State, a: seq<Choice>, choice: Choice)
    requires ReliableRun(s, a) && Reliable(Exec(s, a), choice)
    ensures ReliableRun(s, a + [choice])
    decreases a
  {
    hide Next, Reliable;
    if a == [] {
      assert a + [choice] == [choice] && [choice][1..] == [];
    } else {
      assert (a + [choice])[1..] == a[1..] + [choice];
      ReliableConcat(Next(s, a[0]), a[1..], choice);
    }
  }

  lemma {:induction false} ReachNext(t: State, choice: Choice)
    requires Reachable(t) && Reliable(t, choice) && Free(choice)
    ensures Reachable(Next(t, choice))
  {
    hide Exec, Next, Reliable, ReliableRun;
    var schedule :| Exec(Fresh(None), schedule) == t && ReliableRun(Fresh(None), schedule) && NoRecovery(schedule);
    ReliableConcat(Fresh(None), schedule, choice);
    ExecConcat(Fresh(None), schedule, [choice]);
    ExecCons(t, choice, []);
    EmptyRun(Next(t, choice));
    assert [choice] + [] == [choice];
    assert NoRecovery(schedule + [choice]);
  }

  lemma EmptyRun(s: State)
    ensures Exec(s, []) == s && ReliableRun(s, [])
  {
  }

  /**
   * A cancelled task does not stay cancelled: a worker that looked before the cancellation saves over it,
   * and the store ends with a completed task of which the handler was told that it was cancelled.
   */
  lemma {:induction false} CancelledTaskCompletes()
    ensures exists s :: Reachable(s) && s.fired == [Cancelled] && s.store == Some(Completed)
  {
    hide Exec, ReliableRun, Reachable;
    var s := FreshIsReachable();
    ReachNext(s, Start(false)); s := Next(s, Start(false));
    ReachNext(s, Move(0, true)); s := Next(s, Move(0, true));
    ReachNext(s, Move(0, true)); s := Next(s, Move(0, true));
    ReachNext(s, Move(0, true)); s := Next(s, Move(0, true));
    ReachNext(s, Move(0, true)); s := Next(s, Move(0, true));
    ReachNext(s, Cancel); s := Next(s, Cancel);
    ReachNext(s, Move(2, true)); s := Next(s, Move(2, true));
    ReachNext(s, Move(1, true)); s := Next(s, Move(1, true));
    ReachNext(s, Move(1, true)); s := Next(s, Move(1, true));
    ReachNext(s, Move(2, true)); s := Next(s, Move(2, true));
    ReachNext(s, Move(2, true)); s := Next(s, Move(2, true));
    ReachNext(s, Move(1, true)); s := Next(s, Move(1, true));
    ReachNext(s, Move(2, true)); s := Next(s, Move(2, true));
    ReachNext(s, Move(1, true)); s := Next(s, Move(1, true));
    ReachNext(s, Move(1, true)); s := Next(s, Move(1, true));
    assert s.store == Some(Completed) && s.fired == [Cancelled];
  }

  lemma FreshIsReachable() returns (s: State)
    ensures s == Fresh(None) && Reachable(s)
  {
    s := Fresh(None);
    EmptyRun(s);
    assert NoRecovery([]);
  }

  /** The executor itself: its marks and its store, changed in place by one step at a time. */
  class AsyncToolExecutor {
    var store: Option<Status>
    var starting: bool
    var running: Option<nat>
    var notified: bool
    var processes: seq<Process>
    var launchers: seq<nat>
    var fired: seq<Status>

    constructor (store: Option<Status>)
      ensures Now() == Fresh(store)
    {
      this.store := store;
      starting, running, notified := false, None, false;
      processes, launchers, fired := [], [], [];
    }

    function Now(): State
      reads this
    {
      State(store, starting, running, processes, launchers, notified, fired)
    }

    method NotifyDone(status: Status)
      modifies this`notified, this`fired
      ensures Now() == Notified(old(Now()), status)
    {
      if !status.Terminal() || notified { return; }
      notified := true;
      fired := fired + [status];
    }

    /** start: two locked sections around the load, the save and the launch. */
    method MoveStarter(i: nat, ok: bool)
      requires i < |processes| && processes[i].Starter?
      modifies this
      ensures Now() == StarterStep(old(Now()), i, ok)
    {
      var p := processes[i];
      var at := Left;
      match p.starter {
        case Enter =>
          if running.None? && !starting {
            starting := true;
            at := LoadTask;
          }
        case LoadTask =>
          at := if ok && store.Some? && (store.value.Terminal() || !p.forced) then Leave else SaveQueued;
        case SaveQueued =>
          at := if ok then Launch else Leave;
          if ok { store := Some(Queued); }
        case Launch =>
          launchers := launchers + [i];
          processes := processes + [Worker(Register, Running, false)];
          at := Leave;
        case Leave => starting := false;
        case Left =>
      }
      processes := processes[i := p.(starter := at)];
    }

    /** run: registration, the two looks at the store, the tool, and the report. */
    method MoveWorker(i: nat, ok: bool)
      requires i < |processes| && processes[i].Worker?
      modifies this
      ensures Now() == WorkerStep(old(Now()), i, ok)
    {
      var p := processes[i];
      match p.worker {
        case Register =>
          starting := false;
          running := Some(i);
          p := p.(worker := CheckTask);
        case CheckTask => p := p.(worker := if ok && store == Some(Cancelled) then Unregister else SaveRunning);
        case SaveRunning =>
          if ok { store := Some(Running); }
          p := p.(worker := Execute);
        case Execute => p := p.(worker := SaveFinal, final := if p.cancelled then Cancelled else if ok then Completed else Failed);
        case SaveFinal =>
          if ok { store := Some(p.final); }
          p := p.(worker := Report);
        case Report =>
          NotifyDone(p.final);
          p := p.(worker := Unregister);
        case Unregister =>
          running := None;
          p := p.(worker := Ended);
        case Ended =>
      }
      processes := processes[i := p];
    }

    /** Cancel: the running worker's context first, then the stored record. */
    method MoveCanceller(i: nat, ok: bool)
      requires i < |processes| && processes[i].Canceller?
      modifies this
      ensures Now() == CancellerStep(old(Now()), i, ok)
    {
      var p := processes[i];
      match p.canceller {
        case FindWorker => p := p.(canceller := if running.Some? then StopWorker else LoadTarget, found := running);
        case StopWorker =>
          processes := CancelContext(processes, p.found);
          p := p.(canceller := LoadTarget);
        case LoadTarget =>
          p := p.(canceller := if ok && (store == Some(Queued) || store == Some(Running)) then SaveCancelled else Gone);
        case SaveCancelled =>
          if ok { store := Some(Cancelled); }
          p := p.(canceller := if ok then ReportCancelled else Gone);
        case ReportCancelled =>
          NotifyDone(Cancelled);
          p := p.(canceller := Gone);
        case Gone =>
      }
      processes := processes[i := p];
    }

    /** Recover: the record of an interrupted worker is failed, or a start is forced. */
    method MoveRecovery(i: nat, ok: bool)
      requires i < |processes| && processes[i].Recovery?
      modifies this
      ensures Now() == RecoveryStep(old(Now()), i, ok)
    {
      var p := processes[i];
      var at := Recovered;
      match p.recovery {
        case ListTasks =>
          if ok && store.Some? && !store.value.Terminal() {
            if store == Some(Running) && !p.restartSafe {
              at := SaveInterrupted;
            } else {
              processes := processes + [Starter(Enter, true)];
            }
          }
        case SaveInterrupted =>
          if ok {
            store := Some(Failed);
            at := ReportInterrupted;
          }
        case ReportInterrupted => NotifyDone(Failed);
        case Recovered =>
      }
      processes := processes[i := p.(recovery := at)];
    }

    /** Any interleaving at all: whoever is scheduled takes one step. */
    method Interleave(schedule: seq<Choice>)
      modifies this
      ensures Now() == Exec(old(Now()), schedule)
    {
      hide StarterStep, WorkerStep, CancellerStep, RecoveryStep;
      var rest := schedule;
      while rest != []
        invariant Exec(Now(), rest) == Exec(old(Now()), schedule)
        decreases |rest|
      {
        match rest[0] {
          case Start(forced) => processes := processes + [Starter(Enter, forced)];
          case Cancel => processes := processes + [Canceller(FindWorker, None)];
          case Recover(restartSafe) => processes := processes + [Recovery(ListTasks, restartSafe)];
          case Move(i, ok) =>
            if i < |processes| {
              match processes[i] {
                case Starter(_, _) => MoveStarter(i, ok);
                case Worker(_, _, _) => MoveWorker(i, ok);
                case Canceller(_, _) => MoveCanceller(i, ok);
                case Recovery(_, _) => MoveRecovery(i, ok);
              }
            }
        }
        rest := rest[1..];
      }
    }
  }
}
