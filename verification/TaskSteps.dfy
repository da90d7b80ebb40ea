/**
 * The durable task executor, for one task id: any number of starters, workers, cancellers and recoveries take
 * their atomic steps (a locked section, a store access, a tool run) in any order.
 */
module TaskSteps {
  import opened Wrappers

  datatype Status = Queued | Running | Completed | Failed | Cancelled
  {
    predicate Terminal() {
      Completed? || Failed? || Cancelled?
    }
  }

  datatype StarterAt = Enter | LoadTask | SaveQueued | Launch | Leave | Left

  datatype WorkerAt = Register | CheckTask | SaveRunning | Execute | SaveFinal | Report | Unregister | Ended

  datatype CancellerAt = FindWorker | StopWorker | LoadTarget | SaveCancelled | ReportCancelled | Gone

  datatype RecoveryAt = ListTasks | SaveInterrupted | ReportInterrupted | Recovered

  datatype Process =
    | Starter(starter: StarterAt, forced: bool)
    | Worker(worker: WorkerAt, final: Status, cancelled: bool)
    | Canceller(canceller: CancellerAt, found: Option<nat>)
    | Recovery(recovery: RecoveryAt, restartSafe: bool)
  {
    /** Between setting the starting mark and giving it back. */
    predicate Holds() {
      Starter? && !starter.Enter? && !starter.Left?
    }

    /** Certain to launch a worker, unless its save fails. */
    predicate Committed() {
      Starter? && (starter.SaveQueued? || starter.Launch?)
    }

    predicate Launching() {
      Starter? && starter.Launch?
    }
  }

  /** `launchers` are the starters that launched a worker, `fired` what the completion handler was given. */
  datatype State = State(
    store: Option<Status>,
    starting: bool,
    running: Option<nat>,
    processes: seq<Process>,
    launchers: seq<nat>,
    notified: bool,
    fired: seq<Status>)

  function Fresh(store: Option<Status>): State {
    State(store, false, None, [], [], false, [])
  }

  /** One step: somebody arrives, or process `i` moves; `ok` is how the store or the tool answers. */
  datatype Choice = Start(forced: bool) | Cancel | Recover(restartSafe: bool) | Move(i: nat, ok: bool)

  /** notifyDone: the first terminal report wins. */
  function Notified(s: State, status: Status): State {
    if !status.Terminal() || s.notified then s else s.(notified := true, fired := s.fired + [status])
  }

  function StarterStep(s: State, i: nat, ok: bool): State
    requires i < |s.processes| && s.processes[i].Starter?
  {
    var p := s.processes[i];
    match p.starter
    case Enter =>
      if s.running.Some? || s.starting then s.(processes := s.processes[i := p.(starter := Left)])
      else s.(starting := true, processes := s.processes[i := p.(starter := LoadTask)])
    case LoadTask =>
      var known := ok && s.store.Some? && (s.store.value.Terminal() || !p.forced);
      s.(processes := s.processes[i := p.(starter := if known then Leave else SaveQueued)])
    case SaveQueued =>
      if ok then s.(store := Some(Queued), processes := s.processes[i := p.(starter := Launch)])
      else s.(processes := s.processes[i := p.(starter := Leave)])
    case Launch =>
      s.(launchers := s.launchers + [i],
         processes := s.processes[i := p.(starter := Leave)] + [Worker(Register, Running, false)])
    case Leave => s.(starting := false, processes := s.processes[i := p.(starter := Left)])
    case Left => s
  }

  function WorkerStep(s: State, i: nat, ok: bool): State
    requires i < |s.processes| && s.processes[i].Worker?
  {
    var p := s.processes[i];
    match p.worker
    case Register =>
      s.(starting := false, running := Some(i), processes := s.processes[i := p.(worker := CheckTask)])
    case CheckTask =>
      var stop := ok && s.store == Some(Cancelled);
      s.(processes := s.processes[i := p.(worker := if stop then Unregister else SaveRunning)])
    case SaveRunning =>
      s.(store := if ok then Some(Running) else s.store, processes := s.processes[i := p.(worker := Execute)])
    case Execute =>
      var final := if p.cancelled then Cancelled else if ok then Completed else Failed;
      s.(processes := s.processes[i := p.(worker := SaveFinal, final := final)])
    case SaveFinal =>
      s.(store := if ok then Some(p.final) else s.store, processes := s.processes[i := p.(worker := Report)])
    case Report => Notified(s, p.final).(processes := s.processes[i := p.(worker := Unregister)])
    case Unregister => s.(running := None, processes := s.processes[i := p.(worker := Ended)])
    case Ended => s
  }

  /** The context of the worker that the canceller found is cancelled. */
  function CancelContext(processes: seq<Process>, found: Option<nat>): (r: seq<Process>)
    ensures |r| == |processes|
    ensures forall k :: 0 <= k < |r| ==>
      r[k] == if found == Some(k) && processes[k].Worker? then processes[k].(cancelled := true) else processes[k]
  {
    if found.Some? && found.value < |processes| && processes[found.value].Worker? then
      processes[found.value := processes[found.value].(cancelled := true)]
    else processes
  }

  function CancellerStep(s: State, i: nat, ok: bool): State
    requires i < |s.processes| && s.processes[i].Canceller?
  {
    var p := s.processes[i];
    match p.canceller
    case FindWorker =>
      s.(processes := s.processes[i := p.(canceller := if s.running.Some? then StopWorker else LoadTarget, found := s.running)])
    case StopWorker => s.(processes := CancelContext(s.processes, p.found)[i := p.(canceller := LoadTarget)])
    case LoadTarget =>
      var open := ok && (s.store == Some(Queued) || s.store == Some(Running));
      s.(processes := s.processes[i := p.(canceller := if open then SaveCancelled else Gone)])
    case SaveCancelled =>
      if ok then s.(store := Some(Cancelled), processes := s.processes[i := p.(canceller := ReportCancelled)])
      else s.(processes := s.processes[i := p.(canceller := Gone)])
    case ReportCancelled => Notified(s, Cancelled).(processes := s.processes[i := p.(canceller := Gone)])
    case Gone => s
  }

  /** Recover, for this id: a running record that must not be restarted is failed, any other open one started by force. */
  function RecoveryStep(s: State, i: nat, ok: bool): State
    requires i < |s.processes| && s.processes[i].Recovery?
  {
    var p := s.processes[i];
    match p.recovery
    case ListTasks =>
      if !ok || s.store == None || s.store.value.Terminal() then s.(processes := s.processes[i := p.(recovery := Recovered)])
      else if s.store == Some(Running) && !p.restartSafe then s.(processes := s.processes[i := p.(recovery := SaveInterrupted)])
      else s.(processes := s.processes[i := p.(recovery := Recovered)] + [Starter(Enter, true)])
    case SaveInterrupted =>
      if ok then s.(store := Some(Failed), processes := s.processes[i := p.(recovery := ReportInterrupted)])
      else s.(processes := s.processes[i := p.(recovery := Recovered)])
    case ReportInterrupted => Notified(s, Failed).(processes := s.processes[i := p.(recovery := Recovered)])
    case Recovered => s
  }

  function Next(s: State, choice: Choice): State {
    match choice
    case Start(forced) => s.(processes := s.processes + [Starter(Enter, forced)])
    case Cancel => s.(processes := s.processes + [Canceller(FindWorker, None)])
    case Recover(restartSafe) => s.(processes := s.processes + [Recovery(ListTasks, restartSafe)])
    case Move(i, ok) =>
      if i >= |s.processes| then s
      else
        match s.processes[i]
        case Starter(_, _) => StarterStep(s, i, ok)
        case Worker(_, _, _) => WorkerStep(s, i, ok)
        case Canceller(_, _) => CancellerStep(s, i, ok)
        case Recovery(_, _) => RecoveryStep(s, i, ok)
  }

  function Exec(s: State, schedule: seq<Choice>): State
    decreases schedule
  {
    if schedule == [] then s else Exec(Next(s, schedule[0]), schedule[1..])
  }

  // What holds in every state.

  /** While nothing is stored at most one starter is past the starting mark, and the mark is set exactly then. */
  predicate Guarded(s: State) {
    s.store == None ==>
      && s.launchers == []
      && (forall i, j :: 0 <= i < j < |s.processes| ==> !(s.processes[i].Holds() && s.processes[j].Holds()))
      && (forall i :: 0 <= i < |s.processes| ==> s.processes[i].Holds() ==> s.starting && !s.processes[i].Launching())
      && (forall i :: 0 <= i < |s.processes| ==> !s.processes[i].Worker?)
      && (forall i :: 0 <= i < |s.processes| && s.processes[i].Canceller? ==>
            s.processes[i].canceller != SaveCancelled && s.processes[i].canceller != ReportCancelled)
      && (forall i :: 0 <= i < |s.processes| && s.processes[i].Recovery? ==>
            s.processes[i].recovery == ListTasks || s.processes[i].recovery == Recovered)
  }

  /** Once something is stored no unforced starter can get as far as saving; at most one ever did. */
  predicate OneFree(s: State) {
    && (s.store.Some? ==>
          forall i :: 0 <= i < |s.processes| && s.processes[i].Committed() && !s.processes[i].forced ==> s.processes[i].Launching())
    && (forall i, j :: 0 <= i < j < |s.processes| && s.processes[i].Launching() && s.processes[j].Launching() ==>
          s.processes[i].forced || s.processes[j].forced)
  }

  /** Launchers are distinct starters that are through, and an unforced one is alone. */
  predicate Launched(s: State) {
    && (forall k :: 0 <= k < |s.launchers| ==>
          && s.launchers[k] < |s.processes| && s.processes[s.launchers[k]].Starter?
          && (s.processes[s.launchers[k]].starter.Leave? || s.processes[s.launchers[k]].starter.Left?))
    && (forall k, l :: 0 <= k < l < |s.launchers| ==>
          && s.launchers[k] != s.launchers[l]
          && (s.processes[s.launchers[k]].forced || s.processes[s.launchers[l]].forced))
    && (forall k, i :: 0 <= k < |s.launchers| && 0 <= i < |s.processes| && s.processes[i].Launching() ==>
          s.processes[s.launchers[k]].forced || s.processes[i].forced)
  }

  /** The handler has had at most one report, and a terminal one. */
  predicate Reported(s: State) {
    && (s.notified <==> s.fired != [])
    && |s.fired| <= 1
    && (s.fired != [] ==> s.fired[0].Terminal())
  }

  predicate Invariant(s: State) {
    Guarded(s) && OneFree(s) && Launched(s) && Reported(s)
  }

  /** The loads on which a start and a worker decide are answered; the theorems about single workers need it. */
  predicate Reliable(s: State, choice: Choice) {
    choice.Move? && choice.i < |s.processes| ==>
      match s.processes[choice.i]
      case Starter(at, _) => at.LoadTask? ==> choice.ok
      case Worker(at, _, _) => at.CheckTask? ==> choice.ok
      case _ => true
  }

  /** A step that changes no starter, once something is stored. */
  lemma {:induction false} BystanderKeeps(s: State, t: State)
    requires s.store.Some? && t.store.Some? && OneFree(s) && Launched(s)
    requires s.launchers == t.launchers && |s.processes| == |t.processes|
    requires forall k :: 0 <= k < |s.processes| && (s.processes[k].Starter? || t.processes[k].Starter?) ==> t.processes[k] == s.processes[k]
    ensures Guarded(t) && OneFree(t) && Launched(t)
  {
    forall k | 0 <= k < |t.processes| && t.processes[k].Committed() ensures t.processes[k] == s.processes[k] {}
  }

  lemma {:induction false} WorkerKeepsInvariant(s: State, i: nat, ok: bool)
    requires Invariant(s) && i < |s.processes| && s.processes[i].Worker?
    ensures Invariant(WorkerStep(s, i, ok))
  {
    hide OneFree, Launched;
    BystanderKeeps(s, WorkerStep(s, i, ok));
  }

  lemma {:induction false} CancellerWaits(s: State, t: State, i: nat)
    requires Invariant(s) && i < |s.processes| && s.processes[i].Canceller? && s.store == None
    requires exists at, found :: t == s.(processes := s.processes[i := Canceller(at, found)]) && (at == StopWorker || at == LoadTarget || at == Gone)
    ensures Guarded(t) && OneFree(t) && Launched(t)
  {
    forall k | 0 <= k < |t.processes| && k != i ensures t.processes[k] == s.processes[k] {}
  }

  lemma {:induction false} CancellerKeepsInvariant(s: State, i: nat, ok: bool)
    requires Invariant(s) && i < |s.processes| && s.processes[i].Canceller?
    ensures Invariant(CancellerStep(s, i, ok))
  {
    hide OneFree, Launched;
    if s.store.Some? {
      BystanderKeeps(s, CancellerStep(s, i, ok));
    } else {
      CancellerIdles(s, i, ok);
      if !s.processes[i].canceller.Gone? { CancellerWaits(s, CancellerStep(s, i, ok), i); }
    }
  }

  /** With nothing stored there is nobody to cancel and nothing to mark. */
  lemma CancellerIdles(s: State, i: nat, ok: bool)
    requires Guarded(s) && i < |s.processes| && s.processes[i].Canceller? && s.store == None
    ensures var t := CancellerStep(s, i, ok);
            t == s || exists at, found ::
              t == s.(processes := s.processes[i := Canceller(at, found)]) && (at == StopWorker || at == LoadTarget || at == Gone)
  {
    var p := s.processes[i];
    assert CancelContext(s.processes, p.found) == s.processes;
    var t := CancellerStep(s, i, ok);
    if p.canceller == FindWorker {
      assert t == s.(processes := s.processes[i := Canceller(if s.running.Some? then StopWorker else LoadTarget, s.running)]);
    } else if p.canceller == StopWorker {
      assert t == s.(processes := s.processes[i := Canceller(LoadTarget, p.found)]);
    } else if p.canceller == LoadTarget {
      assert t == s.(processes := s.processes[i := Canceller(Gone, p.found)]);
    }
  }

  /** A starter that moves without saving or launching. */
  lemma {:induction false} StarterMoves(s: State, t: State, i: nat, at: StarterAt)
    requires Guarded(s) && OneFree(s) && Launched(s) && i < |s.processes| && s.processes[i].Starter?
    requires t == s.(starting := t.starting, processes := s.processes[i := s.processes[i].(starter := at)])
    requires at == LoadTask || at == SaveQueued || at == Leave || at == Left
    requires at == SaveQueued ==> s.store == None || s.processes[i].forced
    requires s.store == None ==>
      var held, holds := s.processes[i].Holds(), at != Left;
      && (holds && !held ==> !s.starting && t.starting)
      && (held == holds ==> t.starting == s.starting)
    requires !s.processes[i].Launching()
    requires s.processes[i].starter.Leave? || s.processes[i].starter.Left? ==> at == Left
    ensures Guarded(t) && OneFree(t) && Launched(t)
  {
    forall k | 0 <= k < |t.processes| && k != i ensures t.processes[k] == s.processes[k] {}
    assert t.processes[i] == s.processes[i].(starter := at);
  }

  lemma {:induction false} StarterSaves(s: State, i: nat)
    requires Guarded(s) && OneFree(s) && Launched(s) && i < |s.processes| && s.processes[i].Starter? && s.processes[i].starter.SaveQueued?
    ensures var t := StarterStep(s, i, true);
            Guarded(t) && OneFree(t) && Launched(t)
  {
    var t := StarterStep(s, i, true);
    forall k | 0 <= k < |t.processes| && k != i ensures t.processes[k] == s.processes[k] {}
    assert t.processes[i] == s.processes[i].(starter := Launch);
    assert s.processes[i].Holds() && s.processes[i].Committed();
    if s.store == None {
      forall k | 0 <= k < |t.processes| && t.processes[k].Committed() ensures k == i {
        assert k != i ==> s.processes[k].Holds();
      }
    }
  }

  lemma {:induction false} StarterLaunches(s: State, i: nat)
    requires Guarded(s) && OneFree(s) && Launched(s) && i < |s.processes| && s.processes[i].Launching()
    ensures var t := StarterStep(s, i, true);
            Guarded(t) && OneFree(t) && Launched(t)
  {
    var t := StarterStep(s, i, true);
    var n := |s.processes|;
    forall k | 0 <= k < n && k != i ensures t.processes[k] == s.processes[k] {}
    assert t.processes[i] == s.processes[i].(starter := Leave);
    assert t.processes[n].Worker?;
    assert s.processes[i].Holds();
    assert s.store.Some?;
    forall k | 0 <= k < |s.launchers| ensures t.launchers[k] == s.launchers[k] && s.launchers[k] != i {}
  }

  lemma {:induction false} StarterKeepsInvariant(s: State, i: nat, ok: bool)
    requires Invariant(s) && i < |s.processes| && s.processes[i].Starter? && Reliable(s, Move(i, ok))
    ensures Invariant(StarterStep(s, i, ok))
  {
    hide OneFree, Launched;
    var t := StarterStep(s, i, ok);
    match s.processes[i].starter
    case SaveQueued => if ok { StarterSaves(s, i); } else { StarterMoves(s, t, i, Leave); }
    case Launch => StarterLaunches(s, i);
    case Left =>
    case _ => StarterMoves(s, t, i, t.processes[i].starter);
  }

  lemma {:induction false} RecoveryKeepsInvariant(s: State, i: nat, ok: bool)
    requires Invariant(s) && i < |s.processes| && s.processes[i].Recovery?
    ensures Invariant(RecoveryStep(s, i, ok))
  {
    hide OneFree, Launched;
    var t := RecoveryStep(s, i, ok);
    if s.store == None {
      RecoveryIdles(s, t, i);
    } else if |t.processes| == |s.processes| {
      BystanderKeeps(s, t);
    } else {
      var left := s.(processes := s.processes[i := s.processes[i].(recovery := Recovered)]);
      BystanderKeeps(s, left);
      ArrivalKeeps(left, Starter(Enter, true));
    }
  }

  /** With nothing stored a recovery finds nothing to do. */
  lemma {:induction false} RecoveryIdles(s: State, t: State, i: nat)
    requires Invariant(s) && i < |s.processes| && s.processes[i].Recovery? && s.store == None
    requires t == s || t == s.(processes := s.processes[i := s.processes[i].(recovery := Recovered)])
    ensures Guarded(t) && OneFree(t) && Launched(t)
  {
    forall k | 0 <= k < |t.processes| && k != i ensures t.processes[k] == s.processes[k] {}
  }

  lemma {:induction false} NextKeepsInvariant(s: State, choice: Choice)
    requires Invariant(s) && Reliable(s, choice)
    ensures Invariant(Next(s, choice))
  {
    hide StarterStep, WorkerStep, CancellerStep, RecoveryStep;
    match choice
    case Move(i, ok) =>
      if i < |s.processes| {
        match s.processes[i]
        case Starter(_, _) => StarterKeepsInvariant(s, i, ok);
        case Worker(_, _, _) => WorkerKeepsInvariant(s, i, ok);
        case Canceller(_, _) => CancellerKeepsInvariant(s, i, ok);
        case Recovery(_, _) => RecoveryKeepsInvariant(s, i, ok);
      }
    case Start(forced) => ArrivalKeeps(s, Starter(Enter, forced));
    case Cancel => ArrivalKeeps(s, Canceller(FindWorker, None));
    case Recover(restartSafe) => ArrivalKeeps(s, Recovery(ListTasks, restartSafe));
  }

  predicate Newcomer(p: Process) {
    p == Canceller(FindWorker, None) || (p.Starter? && p.starter.Enter?) || (p.Recovery? && p.recovery.ListTasks?)
  }

  lemma {:induction false} ArrivalKeeps(s: State, p: Process)
    requires Invariant(s) && Newcomer(p)
    ensures Invariant(s.(processes := s.processes + [p]))
  {
    hide Guarded, OneFree, Launched;
    ArrivalGuarded(s, p);
    ArrivalOneFree(s, p);
    ArrivalLaunched(s, p);
  }

  lemma {:induction false} ArrivalGuarded(s: State, p: Process)
    requires Guarded(s) && Newcomer(p)
    ensures Guarded(s.(processes := s.processes + [p]))
  {
    var all := s.processes + [p];
    forall k | 0 <= k < |s.processes| ensures all[k] == s.processes[k] {}
    assert all[|s.processes|] == p;
  }

  lemma {:induction false} ArrivalOneFree(s: State, p: Process)
    requires OneFree(s) && Newcomer(p)
    ensures OneFree(s.(processes := s.processes + [p]))
  {
    var all := s.processes + [p];
    forall k | 0 <= k < |s.processes| ensures all[k] == s.processes[k] {}
    assert all[|s.processes|] == p;
  }

  lemma {:induction false} ArrivalLaunched(s: State, p: Process)
    requires Launched(s) && Newcomer(p)
    ensures Launched(s.(processes := s.processes + [p]))
  {
    var all := s.processes + [p];
    forall k | 0 <= k < |s.processes| ensures all[k] == s.processes[k] {}
    assert all[|s.processes|] == p;
  }

  predicate ReliableRun(s: State, schedule: seq<Choice>)
    decreases schedule
  {
    schedule != [] ==> Reliable(s, schedule[0]) && ReliableRun(Next(s, schedule[0]), schedule[1..])
  }

  lemma {:induction false} RunKeepsInvariant(s: State, schedule: seq<Choice>)
    requires Invariant(s) && ReliableRun(s, schedule)
    ensures Invariant(Exec(s, schedule))
    decreases schedule
  {
    hide Invariant;
    if schedule != [] {
      NextKeepsInvariant(s, schedule[0]);
      RunKeepsInvariant(Next(s, schedule[0]), schedule[1..]);
    }
  }
}
