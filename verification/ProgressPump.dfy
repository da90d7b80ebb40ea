/** Forwarding session events to one caller, across dropped subscriptions. */
module ProgressPump {
  import opened Wrappers
  import opened BackgroundWork

  predicate Increasing(events: seq<Event>) {
    forall i, j :: 0 <= i < j < |events| ==> events[i].seqNo < events[j].seqNo
  }

  /** How many events of the log a subscription after `seqNo` skips. */
  function Skipped(log: seq<Event>, seqNo: int): (k: nat)
    ensures k <= |log|
    ensures forall i :: 0 <= i < k ==> log[i].seqNo <= seqNo
    ensures k < |log| ==> log[k].seqNo > seqNo
  {
    if log == [] || log[0].seqNo > seqNo then 0 else 1 + Skipped(log[1..], seqNo)
  }

  lemma {:induction false} SkippedIs(log: seq<Event>, k: nat)
    requires Increasing(log) && k < |log|
    ensures Skipped(log, log[k].seqNo) == k + 1
  {
    var n := Skipped(log, log[k].seqNo);
    assert n < |log| ==> log[k].seqNo < log[n].seqNo;
    assert k + 1 < |log| ==> log[k].seqNo < log[k + 1].seqNo;
  }

  /** The events a filter lets through, in order. */
  function Passing(events: seq<Event>, passes: Event -> bool): seq<Event> {
    if events == [] then []
    else Passing(events[..|events| - 1], passes) + if passes(events[|events| - 1]) then [events[|events| - 1]] else []
  }

  lemma PassingNext(events: seq<Event>, e: Event, passes: Event -> bool)
    ensures Passing(events + [e], passes) == Passing(events, passes) + if passes(e) then [e] else []
  {
    assert (events + [e])[..|events|] == events;
  }

  lemma {:induction false} BehindSkipped(log: seq<Event>, seqNo: int, i: nat)
    requires Increasing(log) && Skipped(log, seqNo) <= i < |log|
    ensures log[i].seqNo > seqNo
  {
    var k := Skipped(log, seqNo);
    assert log[k].seqNo <= log[i].seqNo;
  }

  /** What was handed out: projectable events of the log behind the start, in their order, each once. */
  ghost predicate InOrder(log: seq<Event>, projects: Event -> bool, start: int, lastSeq: int, emitted: seq<Event>, position: nat) {
    && Increasing(emitted) && start <= lastSeq && Skipped(log, lastSeq) <= position
    && forall i :: 0 <= i < |emitted| ==> emitted[i] in log && start < emitted[i].seqNo <= lastSeq && projects(emitted[i])
  }

  /** Exactly what passes the filter up to `seen` was handed out. */
  ghost predicate Complete(log: seq<Event>, filter: Event -> bool, origin: nat, lastSeq: int, emitted: seq<Event>, seen: nat)
    requires origin <= seen <= |log|
  {
    && emitted == Passing(log[origin..seen], filter)
    && forall j :: Skipped(log, lastSeq) <= j < seen ==> !filter(log[j])
  }

  lemma BehindPosition(log: seq<Event>, projects: Event -> bool, start: int, lastSeq: int, emitted: seq<Event>, position: nat)
    requires InOrder(log, projects, start, lastSeq, emitted, position)
    ensures Skipped(log, lastSeq) <= position && start <= lastSeq
  {
  }

  lemma InOrderFrom(log: seq<Event>, projects: Event -> bool, start: int, lastSeq: int, emitted: seq<Event>, position: nat)
    requires InOrder(log, projects, start, lastSeq, emitted, position)
    ensures InOrder(log, projects, start, lastSeq, emitted, Skipped(log, lastSeq))
  {
  }

  lemma {:induction false} InOrderNext(log: seq<Event>, projects: Event -> bool, start: int, lastSeq: int, emitted: seq<Event>,
                                       position: nat, forwards: bool)
    requires Increasing(log) && position < |log| && InOrder(log, projects, start, lastSeq, emitted, position)
    requires forwards ==> lastSeq < log[position].seqNo && projects(log[position])
    ensures var e := log[position];
            InOrder(log, projects, start, if forwards then e.seqNo else lastSeq, emitted + if forwards then [e] else [], position + 1)
  {
    SkippedIs(log, position);
    assert log[position] in log;
    assert emitted + [] == emitted;
  }

  lemma {:induction false} CompleteNext(log: seq<Event>, filter: Event -> bool, origin: nat, lastSeq: int, emitted: seq<Event>,
                                        position: nat, seen: nat)
    requires Increasing(log) && origin <= position <= seen <= |log| && position < |log|
    requires Skipped(log, lastSeq) <= position && Complete(log, filter, origin, lastSeq, emitted, seen)
    ensures var e, now := log[position], if position < seen then seen else position + 1;
            var forwards := lastSeq < e.seqNo && filter(e);
            Complete(log, filter, origin, if forwards then e.seqNo else lastSeq, emitted + if forwards then [e] else [], now)
  {
    hide Passing;
    var e := log[position];
    assert emitted + [] == emitted;
    if position == seen {
      BehindSkipped(log, lastSeq, position);
      SkippedIs(log, position);
      assert log[origin..position + 1] == log[origin..position] + [e];
      PassingNext(log[origin..position], e, filter);
    }
  }

  /** Filters that agree on every event let the same events through. */
  lemma {:induction false} PassingSame(events: seq<Event>, f: Event -> bool, g: Event -> bool)
    requires forall e :: f(e) == g(e)
    ensures Passing(events, f) == Passing(events, g)
  {
    if events != [] { PassingSame(events[..|events| - 1], f, g); }
  }

  lemma SameComplete(log: seq<Event>, f: Event -> bool, g: Event -> bool, origin: nat, lastSeq: int, emitted: seq<Event>, seen: nat)
    requires origin <= seen <= |log| && Complete(log, f, origin, lastSeq, emitted, seen) && forall e :: f(e) == g(e)
    ensures Complete(log, g, origin, lastSeq, emitted, seen)
  {
    PassingSame(log[origin..seen], f, g);
  }

  lemma {:induction false} PassingConcat(a: seq<Event>, b: seq<Event>, passes: Event -> bool)
    ensures Passing(a + b, passes) == Passing(a, passes) + Passing(b, passes)
  {
    if b == [] {
      assert a + b == a;
    } else {
      assert (a + b)[..|a + b| - 1] == a + b[..|b| - 1];
      PassingConcat(a, b[..|b| - 1], passes);
    }
  }

  lemma {:induction false} NonePass(events: seq<Event>, passes: Event -> bool)
    requires forall i :: 0 <= i < |events| ==> !passes(events[i])
    ensures Passing(events, passes) == []
  {
    if events != [] { NonePass(events[..|events| - 1], passes); }
  }

  /** Where nothing passes, the end of the list makes no difference. */
  lemma {:induction false} PassingShorter(log: seq<Event>, passes: Event -> bool, a: nat, b: nat, c: nat)
    requires a <= b <= c <= |log| && forall j :: b <= j < c ==> !passes(log[j])
    ensures Passing(log[a..c], passes) == Passing(log[a..b], passes) && Passing(log[b..c], passes) == []
  {
    assert log[a..c] == log[a..b] + log[b..c];
    PassingConcat(log[a..b], log[b..c], passes);
    NonePass(log[b..c], passes);
  }

  /**
   * The filter was lifted: `narrow` decided up to `lifted`, `wide` from there to `reached`. Of what would be delivered again
   * nothing passes that decided on it.
   */
  ghost predicate Spliced(log: seq<Event>, narrow: Event -> bool, wide: Event -> bool, origin: nat, lifted: nat, reached: nat,
                          lastSeq: int, emitted: seq<Event>)
    requires origin <= lifted <= reached <= |log|
  {
    && emitted == Passing(log[origin..lifted], narrow) + Passing(log[lifted..reached], wide)
    && (forall j :: Skipped(log, lastSeq) <= j < lifted ==> !narrow(log[j]))
    && (forall j :: Skipped(log, lastSeq) <= j < reached && lifted <= j ==> !wide(log[j]))
  }

  /** The filter is lifted at `position`. */
  lemma {:induction false} SplicedAt(log: seq<Event>, narrow: Event -> bool, wide: Event -> bool, origin: nat, position: nat, seen: nat,
                                     lastSeq: int, emitted: seq<Event>)
    requires origin <= position <= seen <= |log| && Skipped(log, lastSeq) <= position
    requires Complete(log, narrow, origin, lastSeq, emitted, seen)
    ensures Spliced(log, narrow, wide, origin, position, position, lastSeq, emitted)
  {
    PassingShorter(log, narrow, origin, position, seen);
    assert log[position..position] == [];
  }

  lemma {:induction false} SplicedNext(log: seq<Event>, narrow: Event -> bool, wide: Event -> bool, origin: nat, lifted: nat, reached: nat,
                                       position: nat, lastSeq: int, emitted: seq<Event>)
    requires Increasing(log) && origin <= lifted <= position <= reached <= |log| && position < |log|
    requires Skipped(log, lastSeq) <= position && Spliced(log, narrow, wide, origin, lifted, reached, lastSeq, emitted)
    ensures var e, now := log[position], if position < reached then reached else position + 1;
            var forwards := lastSeq < e.seqNo && wide(e);
            Spliced(log, narrow, wide, origin, lifted, now, if forwards then e.seqNo else lastSeq, emitted + if forwards then [e] else [])
  {
    hide Passing, Skipped, Increasing;
    var e := log[position];
    assert emitted + [] == emitted;
    BehindSkipped(log, lastSeq, position);
    if position == reached {
      SkippedIs(log, position);
      assert log[lifted..position + 1] == log[lifted..position] + [e];
      PassingNext(log[lifted..position], e, wide);
    }
  }

  /** Since the filter was lifted the pump is between `lifted` and `reached`. */
  ghost predicate Widened(log: seq<Event>, narrow: Event -> bool, wide: Event -> bool, origin: nat, lifted: nat, position: nat,
                          reached: nat, seen: nat, lastSeq: int, emitted: seq<Event>)
  {
    origin <= lifted <= position <= reached <= seen <= |log| && Spliced(log, narrow, wide, origin, lifted, reached, lastSeq, emitted)
  }

  lemma WidenedNext(log: seq<Event>, narrow: Event -> bool, wide: Event -> bool, origin: nat, lifted: nat, position: nat, reached: nat,
                    seen: nat, lastSeq: int, emitted: seq<Event>)
    requires Widened(log, narrow, wide, origin, lifted, position, reached, seen, lastSeq, emitted)
    requires Increasing(log) && position < |log| && Skipped(log, lastSeq) <= position
    ensures var e := log[position];
            var forwards := lastSeq < e.seqNo && wide(e);
            Widened(log, narrow, wide, origin, lifted, position + 1, if position == reached then position + 1 else reached,
                    if position < seen then seen else position + 1,
                    if forwards then e.seqNo else lastSeq, emitted + if forwards then [e] else [])
  {
    hide Spliced, Skipped, Increasing;
    SplicedNext(log, narrow, wide, origin, lifted, reached, position, lastSeq, emitted);
  }

  /** A new subscription starts further back only if nothing was forwarded since the filter was lifted. */
  lemma {:induction false} SplicedBack(log: seq<Event>, narrow: Event -> bool, wide: Event -> bool, origin: nat, lifted: nat, reached: nat,
                                       lastSeq: int, emitted: seq<Event>)
    requires origin <= lifted <= reached <= |log| && origin <= Skipped(log, lastSeq) < lifted
    requires Spliced(log, narrow, wide, origin, lifted, reached, lastSeq, emitted)
    ensures var from := Skipped(log, lastSeq);
            Spliced(log, narrow, wide, origin, from, from, lastSeq, emitted) && forall j :: from <= j < lifted ==> !narrow(log[j])
  {
    hide Passing;
    var from := Skipped(log, lastSeq);
    PassingShorter(log, narrow, origin, from, lifted);
    PassingShorter(log, wide, lifted, lifted, reached);
    NonePass([], wide);
    assert log[from..from] == [];
  }

  const MAX_RECONNECTS: nat := 2

  /**
   * What storage does with one subscription: whether it takes it at all, how many events it delivers, and whether the
   * pump cancels it before storage drops it. `follows` tells before which event, if any, the caller starts to follow all.
   */
  datatype Channel = Channel(refused: bool, arrives: nat, cancelled: bool, follows: Option<nat>)
  {
    /** Where a subscription that begins at `from` ends. */
    function Reach(log: seq<Event>, from: nat): nat {
      if from + arrives <= |log| then from + arrives else |log|
    }

    predicate Follows(delivered: nat) {
      follows.Some? && follows.value <= delivered
    }
  }

  /** What was seen is what the subscriptions, the first of which begins at `origin`, delivered. */
  ghost predicate Covered(log: seq<Event>, channels: nat -> Channel, starts: seq<nat>, origin: nat, seen: nat) {
    && (starts != [] ==> starts[0] == origin)
    && (seen == origin || exists i :: 0 <= i < |starts| && seen == channels(i).Reach(log, starts[i]))
    && (forall i :: 0 <= i < |starts| ==> channels(i).Reach(log, starts[i]) <= seen)
  }

  lemma NothingCovered(log: seq<Event>, channels: nat -> Channel, origin: nat)
    ensures Covered(log, channels, [], origin, origin)
  {
  }

  lemma CoveredNext(log: seq<Event>, channels: nat -> Channel, starts: seq<nat>, origin: nat, seen: nat, from: nat)
    requires Covered(log, channels, starts, origin, seen) && (starts == [] ==> from == origin)
    ensures var end := channels(|starts|).Reach(log, from);
            Covered(log, channels, starts + [from], origin, if seen < end then end else seen)
  {
    hide Channel.Reach;
    var more, end := starts + [from], channels(|starts|).Reach(log, from);
    var now := if seen < end then end else seen;
    assert channels(|starts|).Reach(log, more[|starts|]) == end;
    if end <= seen && seen != origin {
      var i :| 0 <= i < |starts| && seen == channels(i).Reach(log, starts[i]);
      assert now == channels(i).Reach(log, more[i]);
    }
    forall i | 0 <= i < |more| ensures channels(i).Reach(log, more[i]) <= now {
      if i < |starts| { assert more[i] == starts[i]; }
    }
  }

  class EventPump {
    const flowTurnId: string
    const projects: Event -> bool
    const start: int
    const work: BackgroundTracker
    var followAll: bool
    var lastSeq: int
    var dropped: nat
    var emitted: seq<Event>
    var position: nat
    ghost var seen: nat
    ghost var switched: bool
    ghost var liftedAt: nat
    ghost var lifted: nat
    ghost var reached: nat

    constructor (flowTurnId: string, projects: Event -> bool, start: int, followAll: bool)
      ensures this.flowTurnId == flowTurnId && this.projects == projects && this.start == start && lastSeq == start
      ensures this.followAll == followAll && !switched && emitted == [] && dropped == 0
      ensures fresh(work) && work.Now() == NO_WORK
    {
      this.flowTurnId, this.projects, this.start, this.followAll := flowTurnId, projects, start, followAll;
      lastSeq, dropped, emitted := start, 0, [];
      work := new BackgroundTracker();
      position, seen, switched := 0, 0, false;
      liftedAt, lifted, reached := 0, 0, 0;
    }

    /** The turn filter, and what the projection has a notification for. */
    predicate Passes(follow: bool, e: Event) {
      (follow || flowTurnId == "" || e.flowTurnId == flowTurnId) && projects(e)
    }

    function Filter(follow: bool): Event -> bool {
      e => Passes(follow, e)
    }

    /** Where the caller's part of the log begins. */
    function Origin(log: seq<Event>): nat {
      Skipped(log, start)
    }

    /** The pump has seen the log up to `seen`, and is at `position` again in this subscription. */
    ghost predicate Tracking(log: seq<Event>)
      reads this`position, this`seen, work
    {
      && Origin(log) <= position <= seen <= |log|
      && Lags(work.Now(), Fold(NO_WORK, log[Origin(log)..seen]), log[position..seen])
    }

    /**
     * What was handed out since the filter was lifted: the turn's own events up to `lifted`, every event from there to
     * `reached`. The pump stood at `liftedAt` then; in between there is nothing of the turn's own.
     */
    ghost predicate Lifted(log: seq<Event>)
      reads this`lastSeq, this`emitted, this`position, this`seen, this`liftedAt, this`lifted, this`reached
    {
      && Widened(log, Filter(false), Filter(true), Origin(log), lifted, position, reached, seen, lastSeq, emitted)
      && lifted <= liftedAt <= |log| && forall j :: lifted <= j < liftedAt ==> !Passes(false, log[j])
    }

    ghost predicate Valid(log: seq<Event>)
      reads this`lastSeq, this`emitted, this`position, this`seen, this`followAll, this`switched, this`liftedAt, this`lifted, this`reached, work
    {
      Increasing(log) && Tracking(log) && Forwarded(log)
    }

    /** What was handed out up to here. */
    ghost predicate Forwarded(log: seq<Event>)
      requires Origin(log) <= seen <= |log|
      reads this`lastSeq, this`emitted, this`position, this`seen, this`followAll, this`switched, this`liftedAt, this`lifted, this`reached
    {
      && InOrder(log, projects, start, lastSeq, emitted, position)
      && (!switched ==> Complete(log, Filter(followAll), Origin(log), lastSeq, emitted, seen))
      && (switched ==> followAll && Lifted(log))
    }

    /** handle, without the tracking. */
    method Forward(e: Event)
      modifies this`lastSeq, this`emitted
      ensures lastSeq == if old(lastSeq) < e.seqNo && Passes(followAll, e) then e.seqNo else old(lastSeq)
      ensures emitted == old(emitted) + if old(lastSeq) < e.seqNo && Passes(followAll, e) then [e] else []
    {
      if e.seqNo <= lastSeq { return; }
      if !followAll && flowTurnId != "" && e.flowTurnId != flowTurnId { return; }
      if !projects(e) { return; }
      lastSeq := e.seqNo;
      emitted := emitted + [e];
    }

    method ForwardNext(log: seq<Event>)
      requires Increasing(log) && Origin(log) <= position <= seen <= |log| && position < |log| && Forwarded(log)
      modifies this`lastSeq, this`emitted, this`position, this`seen, this`reached
      ensures position == old(position) + 1 && seen == (if old(position) < old(seen) then old(seen) else position) <= |log|
      ensures Forwarded(log)
      ensures var e := log[old(position)];
              emitted == old(emitted) + if old(lastSeq) < e.seqNo && Passes(followAll, e) then [e] else []
    {
      hide Passing, Complete, InOrder, Increasing, Skipped, Widened;
      ghost var e := log[position];
      BehindPosition(log, projects, start, lastSeq, emitted, position);
      InOrderNext(log, projects, start, lastSeq, emitted, position, lastSeq < e.seqNo && Passes(followAll, e));
      if !switched {
        CompleteNext(log, Filter(followAll), Origin(log), lastSeq, emitted, position, seen);
      } else {
        WidenedNext(log, Filter(false), Filter(true), Origin(log), lifted, position, reached, seen, lastSeq, emitted);
        if position == reached { reached := position + 1; }
      }
      Forward(log[position]);
      position := position + 1;
      if position > seen { seen := position; }
    }

    /** handle: the session-wide state first, then the caller's notification. */
    method Handle(log: seq<Event>)
      requires Valid(log) && position < |log|
      modifies this`lastSeq, this`emitted, this`position, this`seen, this`reached, work
      ensures Valid(log) && position == old(position) + 1 && seen == if old(position) < old(seen) then old(seen) else position
      ensures var e := log[old(position)];
              emitted == old(emitted) +
                if old(lastSeq) < e.seqNo && projects(e) && (followAll || flowTurnId == "" || flowTurnId == e.flowTurnId) then [e] else []
    {
      hide Lags, Fold, After, Forwarded, Increasing, Skipped;
      LagsNext(log, Origin(log), position, seen, work.Now());
      work.Apply(log[position]);
      ForwardNext(log);
    }

    /** waitForIdle lifts the turn filter when the caller starts to follow other turns. */
    method Follow(log: seq<Event>)
      requires Valid(log)
      modifies this`followAll, this`switched, this`liftedAt, this`lifted, this`reached
      ensures Valid(log) && followAll
      ensures switched == (old(switched) || (!old(followAll) && flowTurnId != ""))
      ensures switched && !old(switched) ==> liftedAt == lifted == position
    {
      hide Passing, Spliced, Complete, Lags, Fold, InOrder, Increasing, Skipped;
      BehindPosition(log, projects, start, lastSeq, emitted, position);
      if !switched && !followAll && flowTurnId != "" {
        SplicedAt(log, Filter(false), Filter(true), Origin(log), position, seen, lastSeq, emitted);
        liftedAt, lifted, reached := position, position, position;
      }
      if !switched && !followAll && flowTurnId == "" {
        SameComplete(log, Filter(false), Filter(true), Origin(log), lastSeq, emitted, seen);
      }
      switched := switched || (!followAll && flowTurnId != "");
      followAll := true;
    }

    /** One subscription, in order from where it was taken up, until it is dropped or cancelled: all it delivers is handled. */
    method Consume(log: seq<Event>, channel: Channel) returns (closed: bool)
      requires Valid(log)
      modifies this`lastSeq, this`emitted, this`position, this`seen, this`followAll, this`switched, this`liftedAt, this`lifted, this`reached, work
      ensures Valid(log) && position == channel.Reach(log, old(position)) && closed == !channel.cancelled
      ensures seen == if old(seen) < position then position else old(seen)
      ensures followAll == (old(followAll) || channel.Follows(position - old(position)))
      ensures (old(switched) ==> switched) && (flowTurnId == "" ==> switched == old(switched))
    {
      hide Valid;
      PositionInside(log);
      ghost var from := position;
      var end := channel.Reach(log, position);
      var delivered := 0;
      if channel.Follows(0) { Follow(log); }
      while position < end
        invariant Valid(log) && position == from + delivered <= end
        invariant seen == if old(seen) < position then position else old(seen)
        invariant followAll == (old(followAll) || channel.Follows(delivered))
        invariant (old(switched) ==> switched) && (flowTurnId == "" ==> switched == old(switched))
        decreases end - position
      {
        Handle(log);
        delivered := delivered + 1;
        if channel.Follows(delivered) { Follow(log); }
      }
      closed := !channel.cancelled;
    }

    lemma PositionInside(log: seq<Event>)
      requires Valid(log)
      ensures position <= seen <= |log|
    {
    }

    /** A subscription is taken up behind the last notification; what lies between is delivered again. */
    method Subscribe(log: seq<Event>)
      requires Valid(log)
      modifies this`position, this`lifted, this`reached
      ensures Valid(log) && position == Skipped(log, lastSeq)
    {
      hide Fold, Complete, Passing, Spliced, Lags, InOrder, Increasing;
      BehindPosition(log, projects, start, lastSeq, emitted, position);
      var from := Skipped(log, lastSeq);
      OriginFirst(log, start, lastSeq);
      LagsLonger(work.Now(), Fold(NO_WORK, log[Origin(log)..seen]), log[from..position], log[position..seen]);
      assert log[from..seen] == log[from..position] + log[position..seen];
      InOrderFrom(log, projects, start, lastSeq, emitted, position);
      position := from;
      if switched && from < lifted {
        SplicedBack(log, Filter(false), Filter(true), Origin(log), lifted, reached, lastSeq, emitted);
        lifted, reached := from, from;
      }
    }

    /**
     * run: subscribe, consume, and after a drop subscribe again, at most twice more.
     * `log` is the session's log, and `starts` tells where each subscription began.
     */
    method Run(log: seq<Event>, channels: nat -> Channel) returns (ghost starts: seq<nat>)
      requires Increasing(log) && emitted == [] && lastSeq == start && work.Now() == NO_WORK && !switched
      modifies this, work
      ensures Increasing(emitted)
      ensures forall i :: 0 <= i < |emitted| ==> emitted[i] in log && start < emitted[i].seqNo && projects(emitted[i])
      ensures Origin(log) <= seen <= |log|
      ensures !switched ==> emitted == Passing(log[Origin(log)..seen], Filter(followAll))
      ensures flowTurnId == "" ==> emitted == Passing(log[Origin(log)..seen], projects)
      ensures switched ==>
        && Origin(log) <= lifted <= reached <= seen && (position == seen ==> reached == seen)
        && emitted == Passing(log[Origin(log)..lifted], Filter(false)) + Passing(log[lifted..reached], projects)
        && lifted <= liftedAt <= |log| && forall j :: lifted <= j < liftedAt ==> !Passes(false, log[j])
      ensures position == seen ==> work.Now() == Fold(NO_WORK, log[Origin(log)..seen])
      ensures Subscribed(channels, starts, dropped - old(dropped))
      ensures Covered(log, channels, starts, Origin(log), seen)
    {
      hide Valid, Covered, Subscribed;
      position, seen := Origin(log), Origin(log);
      StartsValid(log);
      starts := Reconnect(log, channels);
      Delivered(log);
      if switched { PassingSame(log[lifted..reached], Filter(true), projects); }
      if flowTurnId == "" { PassingSame(log[Origin(log)..seen], Filter(followAll), projects); }
    }

    /** The loop of run. */
    method Reconnect(log: seq<Event>, channels: nat -> Channel) returns (ghost starts: seq<nat>)
      requires Valid(log) && lastSeq == start && seen == Origin(log) && !switched
      modifies this, work
      ensures Valid(log) && (flowTurnId == "" ==> !switched)
      ensures Subscribed(channels, starts, dropped - old(dropped)) && Covered(log, channels, starts, Origin(log), seen)
    {
      hide Valid, Covered, Channel.Reach, Channel.Follows, Skipped;
      starts := [];
      NothingCovered(log, channels, seen);
      var reconnects := 0;
      while reconnects <= MAX_RECONNECTS
        invariant Valid(log) && reconnects <= MAX_RECONNECTS + 1 && dropped == old(dropped) + reconnects
        invariant flowTurnId == "" ==> !switched
        invariant |starts| == reconnects && (forall i :: 0 <= i < reconnects ==> !channels(i).refused && !channels(i).cancelled)
        invariant starts == [] ==> lastSeq == start
        invariant Covered(log, channels, starts, Origin(log), seen)
        decreases MAX_RECONNECTS + 1 - reconnects
      {
        if channels(reconnects).refused { break; }
        Subscribe(log);
        CoveredNext(log, channels, starts, Origin(log), seen, position);
        starts := starts + [position];
        var closed := Consume(log, channels(reconnects));
        if !closed { break; }
        reconnects := reconnects + 1;
        dropped := dropped + 1;
      }
    }

    /** A drop, and nothing else, is followed by another subscription, up to the bound. */
    ghost predicate Subscribed(channels: nat -> Channel, starts: seq<nat>, drops: int) {
      var n := |starts|;
      && n <= MAX_RECONNECTS + 1
      && (forall i :: 0 <= i < n ==> !channels(i).refused)
      && (forall i :: 0 <= i < n - 1 ==> !channels(i).cancelled)
      && (n <= MAX_RECONNECTS ==> channels(n).refused || (n > 0 && channels(n - 1).cancelled))
      && drops == if n > 0 && channels(n - 1).cancelled then n - 1 else n
    }

    lemma StartsValid(log: seq<Event>)
      requires Increasing(log) && emitted == [] && lastSeq == start && work.Now() == NO_WORK && !switched
      requires position == seen == Origin(log)
      ensures Valid(log)
    {
      assert log[position..position] == [];
    }

    lemma Delivered(log: seq<Event>)
      requires Valid(log)
      ensures Increasing(emitted) && Origin(log) <= seen <= |log|
      ensures forall i :: 0 <= i < |emitted| ==> emitted[i] in log && start < emitted[i].seqNo && projects(emitted[i])
      ensures !switched ==> emitted == Passing(log[Origin(log)..seen], Filter(followAll))
      ensures switched ==>
        && Origin(log) <= lifted <= position <= reached <= seen
        && emitted == Passing(log[Origin(log)..lifted], Filter(false)) + Passing(log[lifted..reached], Filter(true))
        && lifted <= liftedAt <= |log| && forall j :: lifted <= j < liftedAt ==> !Passes(false, log[j])
      ensures position == seen ==> work.Now() == Fold(NO_WORK, log[Origin(log)..seen])
    {
      hide Lags, Fold, Passing;
      if position == seen {
        assert log[position..seen] == [];
        CaughtUp(work.Now(), Fold(NO_WORK, log[Origin(log)..seen]));
      }
    }
  }

  lemma {:induction false} OriginFirst(log: seq<Event>, a: int, b: int)
    requires Increasing(log) && a <= b
    ensures Skipped(log, a) <= Skipped(log, b)
  {
  }

  lemma LagsLonger(w: Work, full: Work, more: seq<Event>, rest: seq<Event>)
    requires Lags(w, full, rest)
    ensures Lags(w, full, more + rest)
  {
    forall key | Mentions(rest, key) ensures Mentions(more + rest, key) {
      var i :| 0 <= i < |rest| && Subject(rest[i]) == Some(key);
      assert (more + rest)[|more| + i] == rest[i];
    }
    if Finishes(rest) {
      var i :| 0 <= i < |rest| && EndsFlow(rest[i].kind);
      assert (more + rest)[|more| + i] == rest[i];
    }
  }

  lemma NoLag(w: Work)
    ensures Lags(w, w, [])
  {
  }

  lemma LagsNext(log: seq<Event>, a: nat, position: nat, seen: nat, w: Work)
    requires a <= position <= seen <= |log| && position < |log|
    requires Lags(w, Fold(NO_WORK, log[a..seen]), log[position..seen])
    ensures var now := if position < seen then seen else position + 1;
            Lags(After(w, log[position]), Fold(NO_WORK, log[a..now]), log[position + 1..now])
  {
    hide Lags, Fold, After;
    var e := log[position];
    if position < seen {
      var xs, rest := log[a..position], log[position + 1..seen];
      assert log[position..seen] == [e] + rest && log[a..seen] == xs + [e] + rest;
      LagShrinks(NO_WORK, xs, e, rest, w);
    } else {
      assert log[position..seen] == [] && log[a..position + 1] == log[a..position] + [e];
      CaughtUp(w, Fold(NO_WORK, log[a..seen]));
      FoldNext(NO_WORK, log[a..position], e);
      NoLag(After(w, e));
      assert log[position + 1..position + 1] == [];
    }
  }
}
