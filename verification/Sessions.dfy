/** The turns of an agent in one session, each continuing what an earlier one wrote down. */
module Sessions {
  import opened Wrappers
  import opened Text
  import opened Messages
  import opened ContextLayers
  import opened Pairing
  import opened ToolCalls
  import opened Checkpoints
  import opened ModelRequests
  import opened TurnOutcomes
  import opened RoundRules
  import opened TurnLoop
  import opened Transcripts

  predicate NoEmptySummary(msgs: seq<Message>) {
    forall m :: m in msgs ==> !BlankMarked(m)
  }

  /** A conversation that owes nothing, and whose anchor is safe if it has to be. */
  predicate Clean(msgs: seq<Message>, plain: bool) {
    Good(msgs, multiset{}) && (plain ==> PlainAnchor(msgs))
  }

  lemma {:induction false} RenderedIsClean(rendered: seq<Message>, plain: bool)
    requires Spoken(rendered) && (plain ==> NoEmptySummary(rendered))
    ensures Clean(rendered, plain)
  {
    hide HasMarker, SplitSummary, BlankMarked;
    SpokenOwe(multiset{}, rendered);
  }

  lemma {:induction false} ContinuedIsClean(transcript: Transcript, rendered: seq<Message>, plain: bool)
    requires Spoken(rendered) && (plain ==> NoEmptySummary(rendered)) && Clean(transcript.messages, plain)
    requires HasAnchor(transcript.messages + Fresh(transcript, rendered))
    ensures Clean(transcript.messages + Fresh(transcript, rendered), plain)
  {
    hide HasAnchor, PlainAnchor, Quiet, Anchored, Taken, BlankMarked, Scan;
    var history, said := transcript.messages, Fresh(transcript, rendered);
    TakenIsSpoken(rendered, |rendered|, EndsOnResult(history), transcript.appended);
    ContinuedIsReadyIff(history, multiset{}, said);
    AnchoredConcat(history, said);
  }

  lemma {:induction false} PromptIsReady(stored: Option<Transcript>, turn: string, rendered: seq<Message>, plain: bool)
    requires Spoken(rendered) && (plain ==> NoEmptySummary(rendered))
    requires Continuation(stored, turn, rendered).1.Some? ==> Clean(stored.value.messages, plain)
    requires HasAnchor(Continuation(stored, turn, rendered).0)
    ensures Ready(Continuation(stored, turn, rendered).0) && (plain ==> PlainAnchor(Continuation(stored, turn, rendered).0))
  {
    hide HasAnchor, PlainAnchor, Good, Fresh, Spoken, NoEmptySummary, Continues, IsRetry;
    if stored.None? || !Continues(stored.value, rendered) {
      RenderedIsClean(rendered, plain);
    } else if !IsRetry(stored, turn) {
      ContinuedIsClean(stored.value, rendered, plain);
    }
  }

  /** The prompts of a session, as the renderer gives them. */
  predicate AllSpoken(rendered: seq<seq<Message>>) {
    forall i :: 0 <= i < |rendered| ==> Spoken(rendered[i])
  }

  predicate NoEmptySummaries(rendered: seq<seq<Message>>) {
    forall i :: 0 <= i < |rendered| ==> NoEmptySummary(rendered[i])
  }

  /** The execution of an earlier turn that wrote the transcript. */
  datatype Source = Source(turn: nat, run: nat)

  /**
   * One turn of a session: its prompt, the execution whose conversation it continues, if any, with the results
   * that were delivered to that conversation since, and the executions of the turn itself.
   */
  datatype Spell = Spell(prompt: seq<Message>, continues: Option<Source>, delivered: seq<Delivery>, runs: seq<Execution>)

  predicate InSession(spells: seq<Spell>, source: Source) {
    source.turn < |spells| && source.run < |spells[source.turn].runs|
  }

  function Writer(spells: seq<Spell>, source: Source): Execution
    requires InSession(spells, source)
  {
    spells[source.turn].runs[source.run]
  }

  /** What the turns continue is what earlier executions left, and they were run to the end of their resumptions. */
  predicate Told(spells: seq<Spell>, rendered: seq<seq<Message>>, answers: seq<seq<ResumeRequest>>)
    requires |spells| <= |rendered| == |answers|
  {
    forall i :: 0 <= i < |spells| ==> Resumed(spells[i].runs, answers[i]) && Follows(spells, i, rendered[i])
  }

  predicate Follows(spells: seq<Spell>, i: nat, rendered: seq<Message>)
    requires i < |spells|
  {
    match spells[i].continues
    case None => spells[i].prompt == rendered
    case Some(source) =>
      source.turn < i && InSession(spells, source)
      && Writer(spells, source).context + Pairs(spells[i].delivered) <= spells[i].prompt
  }

  /** No conversation was continued that lacks a result, and every resumption brought what was missing. */
  predicate FairlyTold(spells: seq<Spell>, answers: seq<seq<ResumeRequest>>)
    requires |spells| <= |answers|
  {
    forall i :: 0 <= i < |spells| ==>
      && HasAnchor(spells[i].prompt) && Fair(spells[i].runs, answers[i])
      && (spells[i].continues.Some? ==> Tidy(spells, spells[i].continues.value, spells[i].delivered))
  }

  /** The execution left no result missing, and nothing was delivered to a conversation that nobody had begun. */
  predicate Tidy(spells: seq<Spell>, source: Source, delivered: seq<Delivery>) {
    && InSession(spells, source) && !Writer(spells, source).delegated && Writer(spells, source).outcome.Settles()
    && (delivered == [] || HasAnchor(Writer(spells, source).context))
  }

  ghost predicate AllTurnsPaired(spells: seq<Spell>) {
    forall i :: 0 <= i < |spells| ==> AllPaired(AllRequests(spells[i].runs))
  }

  /** A session that may be relied on. */
  predicate SureSession(agent: Agent, toolTokens: nat, rendered: seq<seq<Message>>, spells: seq<Spell>, answers: seq<seq<ResumeRequest>>,
                        removals: nat)
    requires |spells| <= |answers|
  {
    Sure(AllSpoken(rendered) && FairlyTold(spells, answers), NoEmptySummaries(rendered) || agent.NeverGivesUp(toolTokens), removals)
  }

  /** The transcript holds what its writer left, and what was delivered since. */
  predicate Holds(transcript: Transcript, source: Source, delivered: seq<Delivery>, spells: seq<Spell>) {
    InSession(spells, source) && transcript.messages == Writer(spells, source).context + Pairs(delivered)
  }

  /**
   * The turns of an agent in one session. Each continues the transcript as the last execution that managed to write it
   * left it, with the results delivered since. As long as no turn continues a conversation that lacks a result, and every
   * resumption is fair, every request of the session is paired.
   */
  method Converse(agent: Agent, requested: int, rendered: seq<seq<Message>>, turns: seq<string>, answers: seq<seq<ResumeRequest>>,
                  cost: Message -> nat, toolTokens: nat, names: (string, string) -> bool)
    returns (spells: seq<Spell>, ghost removals: nat)
    requires |turns| == |rendered| == |answers|
    ensures |spells| == |rendered| && Told(spells, rendered, answers)
    ensures SureSession(agent, toolTokens, rendered, spells, answers, removals) ==> AllTurnsPaired(spells)
  {
    hide Spoken, NoEmptySummary, Clean, HasAnchor, PlainAnchor, Ready, Written, TurnRecorded, TurnPaired, Fair, Told, FairlyTold,
      AllTurnsPaired, Holds, Tidy;
    spells, removals := [], 0;
    var stored: Option<Transcript>, source, delivered := None, Source(0, 0), [];
    ghost var plain := NoEmptySummaries(rendered);
    NothingTold(rendered, answers);
    for i := 0 to |rendered|
      invariant |spells| == i && Told(spells, rendered, answers)
      invariant SureSession(agent, toolTokens, rendered, spells, answers, removals) ==> AllTurnsPaired(spells)
      invariant stored.Some? ==> Holds(stored.value, source, delivered, spells)
      invariant SureSession(agent, toolTokens, rendered, spells, answers, removals) && stored.Some? && Tidy(spells, source, delivered) ==>
        Clean(stored.value.messages, plain)
    {
      var prompt, continued := ContinueTranscript(stored, turns[i], rendered[i]);
      var runs;
      ghost var more;
      runs, more := RunToEnd(agent, requested, prompt, cost, toolTokens, answers[i]);
      ghost var before := spells;
      var next := Spell(prompt, if continued.Some? then Some(source) else None, delivered, runs);
      spells := spells + [next];
      ToldNext(before, next, rendered, answers, stored, turns[i], source);
      HeldOn(stored, source, delivered, before, next);
      if SureSession(agent, toolTokens, rendered, spells, answers, removals + more) {
        FairlyToldBefore(before, next, rendered, answers);
        PromptIsReady(stored, turns[i], rendered[i], plain);
        PairedNext(before, next, plain, PlainAnchor(prompt));
      }
      removals := removals + more;
      var run: nat, saved: bool := *, *;
      if saved && run < |runs| {
        WrittenHolds(stored, turns[i], rendered[i], spells, Source(i, run));
        stored := Some(Written(stored, turns[i], rendered[i], runs[run].context, run > 0));
        source, delivered := Source(i, run), [];
      }
      if stored.Some? {
        var transcript;
        transcript, delivered := Deliver(stored.value, source, delivered, spells, names, plain);
        stored := Some(transcript);
      }
    }
  }

  /** Between two turns any number of results arrives. */
  method Deliver(transcript: Transcript, source: Source, delivered: seq<Delivery>, spells: seq<Spell>, names: (string, string) -> bool,
                 ghost plain: bool)
    returns (updated: Transcript, all: seq<Delivery>)
    requires Holds(transcript, source, delivered, spells)
    ensures Holds(updated, source, all, spells)
    ensures Tidy(spells, source, all) ==> Tidy(spells, source, delivered)
    ensures Clean(transcript.messages, plain) && Tidy(spells, source, all) ==> Clean(updated.messages, plain)
  {
    hide Clean, Tidy, Pairs;
    updated, all := transcript, delivered;
    var arrivals: int := *;
    while arrivals > 0
      invariant Holds(updated, source, all, spells)
      invariant Tidy(spells, source, all) ==> Tidy(spells, source, delivered)
      invariant Clean(transcript.messages, plain) && Tidy(spells, source, all) ==> Clean(updated.messages, plain)
    {
      arrivals := arrivals - 1;
      var task: string, delivery: Delivery := *, *;
      if names(delivery.arguments, task) {
        ghost var was := updated;
        var appended;
        updated, appended := DeliverResult(updated, task, names, delivery);
        if appended {
          PairsAppend(all, delivery);
          CleanWithPair(was, source, all, spells, delivery, plain);
          all := all + [delivery];
        }
      }
    }
  }

  lemma CleanWithPair(transcript: Transcript, source: Source, delivered: seq<Delivery>, spells: seq<Spell>, delivery: Delivery, plain: bool)
    requires Holds(transcript, source, delivered, spells)
    ensures Tidy(spells, source, delivered + [delivery]) ==> Tidy(spells, source, delivered)
    ensures Clean(transcript.messages, plain) && Tidy(spells, source, delivered + [delivery]) ==>
      Clean(transcript.messages + delivery.Pair(), plain)
  {
    hide HasAnchor, PlainAnchor, Good, Anchored, Quiet, Pairs;
    if Clean(transcript.messages, plain) && Tidy(spells, source, delivered + [delivery]) {
      AnchorStays(Writer(spells, source).context, Pairs(delivered));
      PairsAppend([], delivery);
      NoPairs();
      assert [] + [delivery] == [delivery] && [] + delivery.Pair() == delivery.Pair();
      DeliveredIsGoodIff(transcript.messages, multiset{}, [delivery]);
    }
  }

  lemma AnchorStays(history: seq<Message>, tail: seq<Message>)
    ensures HasAnchor(history) ==> HasAnchor(history + tail)
  {
    if HasAnchor(history) { SystemCountIs(history + tail, SystemCount(history)); }
  }

  lemma NothingTold(rendered: seq<seq<Message>>, answers: seq<seq<ResumeRequest>>)
    requires |rendered| == |answers|
    ensures Told([], rendered, answers) && AllTurnsPaired([])
  {
  }

  lemma ToldNext(spells: seq<Spell>, next: Spell, rendered: seq<seq<Message>>, answers: seq<seq<ResumeRequest>>,
                 stored: Option<Transcript>, turn: string, source: Source)
    requires |spells| < |rendered| == |answers| && Told(spells, rendered, answers) && Resumed(next.runs, answers[|spells|])
    requires var (prompt, continued) := Continuation(stored, turn, rendered[|spells|]);
             next.prompt == prompt && next.continues == if continued.Some? then Some(source) else None
    requires stored.Some? ==> Holds(stored.value, source, next.delivered, spells)
    ensures Told(spells + [next], rendered, answers)
  {
    hide Resumed, Continues, Fresh, Pairs;
    var all := spells + [next];
    forall i | 0 <= i < |spells| ensures all[i] == spells[i] && Follows(all, i, rendered[i]) {
      assert Follows(spells, i, rendered[i]);
    }
    assert Follows(all, |spells|, rendered[|spells|]);
  }

  lemma HeldOn(stored: Option<Transcript>, source: Source, delivered: seq<Delivery>, spells: seq<Spell>, next: Spell)
    requires stored.Some? ==> Holds(stored.value, source, delivered, spells)
    ensures stored.Some? ==> InSession(spells, source) && Holds(stored.value, source, delivered, spells + [next])
    ensures stored.Some? && Tidy(spells + [next], source, delivered) ==> Tidy(spells, source, delivered)
  {
    hide HasAnchor, Pairs;
  }

  lemma FairlyToldBefore(spells: seq<Spell>, next: Spell, rendered: seq<seq<Message>>, answers: seq<seq<ResumeRequest>>)
    requires |spells| < |rendered| == |answers| && FairlyTold(spells + [next], answers) && Told(spells, rendered, answers)
    requires next.continues.Some? ==> InSession(spells, next.continues.value)
    ensures FairlyTold(spells, answers) && HasAnchor(next.prompt) && Fair(next.runs, answers[|spells|])
    ensures next.continues.Some? ==> Tidy(spells, next.continues.value, next.delivered)
  {
    hide Fair, HasAnchor, Resumed, Pairs;
    var all := spells + [next];
    assert all[|spells|] == next;
    forall i | 0 <= i < |spells| ensures all[i] == spells[i] && (spells[i].continues.Some? ==> InSession(spells, spells[i].continues.value)) {
      assert Follows(spells, i, rendered[i]);
    }
    forall source, delivered | InSession(spells, source) && Tidy(all, source, delivered) ensures Tidy(spells, source, delivered) {}
  }

  lemma PairedNext(spells: seq<Spell>, next: Spell, plain: bool, anchored: bool)
    requires AllTurnsPaired(spells) && next.runs != [] && TurnPaired(next.runs, anchored) && (plain ==> anchored)
    ensures AllTurnsPaired(spells + [next])
    ensures forall run: nat :: Tidy(spells + [next], Source(|spells|, run), []) ==> Clean(next.runs[run].context, plain)
  {
    hide HasAnchor, AllPaired, Clean, Leaves;
    var all := spells + [next];
    forall run: nat | Tidy(all, Source(|spells|, run), []) ensures Clean(next.runs[run].context, plain) {
      assert next.runs[run].OwesAsSaid(anchored);
      assert Leaves(next.runs[run].outcome, next.runs[run].context, anchored);
      SettledIsClean(next.runs[run], anchored, plain);
    }
  }

  lemma SettledIsClean(run: Execution, plain: bool, asked: bool)
    requires Leaves(run.outcome, run.context, plain) && (Paired(run.context) <==> run.outcome.Settles())
    requires run.outcome.Settles() && (asked ==> plain)
    ensures Clean(run.context, asked)
  {
    hide HasAnchor, PlainAnchor, Quiet, Anchored;
  }

  lemma WrittenHolds(stored: Option<Transcript>, turn: string, rendered: seq<Message>, spells: seq<Spell>, source: Source)
    requires InSession(spells, source)
    ensures var context := Writer(spells, source).context;
            var written := Written(stored, turn, rendered, context, source.run > 0);
            written.messages == context && Holds(written, source, [], spells)
  {
  }
}
