/** What the end of a run does to the journals of the open runs it had found. */
module Predecessors {
  import opened Domain
  import opened Journal
  import opened World
  import opened RunFacts
  import opened Safety
  import opened JournalSafety
  import opened JournalTruth
  import opened Supersession

  // ---------- a completed run marks its predecessors ----------

  /** The last entry in the stored journal of each of the first `n` runs is the mark of `run`. */
  ghost predicate MarkedBy(w: World, run: RunId, runs: seq<RunId>, n: nat)
    requires n <= |runs|
  {
    forall i :: 0 <= i < n ==> EndsMarked(w.journals, runs[i], run)
  }

  predicate EndsMarked(journals: Journals, r: RunId, run: RunId) {
    r in journals && journals[r].history != [] && journals[r].history[|journals[r].history| - 1] == SupersededBy(run)
  }

  /** Nobody kills the run, no other one begins, and the saves of the marks are acknowledged. */
  predicate Undisturbed(e: Event) {
    !e.Crash? && !e.Begin? && (e.Supersede? ==> e.reply.Saved?)
  }

  ghost predicate Lists(earlier: seq<Listed>, runs: seq<RunId>) {
    |earlier| == |runs| && forall i :: 0 <= i < |runs| ==> earlier[i].run == runs[i]
  }

  /** The predecessors are other runs of the source, each once. */
  ghost predicate ProperPredecessors(source: Text, w: World, run: RunId, runs: seq<RunId>) {
    && (forall i, j :: 0 <= i < j < |runs| ==> runs[i] != runs[j])
    && (forall i :: 0 <= i < |runs| ==> runs[i] != run && Stored(source, w, runs[i]))
  }

  /**
   * Where a run is on its way to marking `runs`: it has not completed, or is marking them one after
   * the other, or has ended, and then all of them are marked if it completed.
   */
  ghost predicate OnTheWay(w: World, run: RunId, runs: seq<RunId>) {
    match w.live
    case None => HasCompleted(w.facts, run) ==> MarkedBy(w, run, runs, |runs|)
    case Some(Closing(r, earlier, _, done)) =>
      r == run && Lists(earlier, runs) && HasCompleted(w.facts, run) && done <= |runs| && MarkedBy(w, run, runs, done)
    case Some(l) => l.run == run && Lists(l.earlier, runs) && !HasCompleted(w.facts, run)
  }

  lemma StartOnTheWay(w: World, g: Engine, files: seq<Text>, reply: SaveReply, run: RunId, runs: seq<RunId>)
    requires MayStart(w, files) && OnTheWay(w, run, runs)
    ensures OnTheWay(StepStart(g, w, files, reply), run, runs)
  {}

  lemma ReconcileOnTheWay(w: World, g: Engine, reply: SaveReply, run: RunId, runs: seq<RunId>)
    requires MayReconcile(w) && OnTheWay(w, run, runs)
    ensures OnTheWay(StepReconcile(g, w, reply), run, runs)
  {}

  lemma TerminateOnTheWay(w: World, g: Engine, reply: SaveReply, run: RunId, runs: seq<RunId>)
    requires MayTerminate(w) && OnTheWay(w, run, runs)
    ensures OnTheWay(StepTerminate(g, w, reply), run, runs)
  {}

  lemma MemoryOnTheWay(w: World, w': World, run: RunId, runs: seq<RunId>)
    requires OnTheWay(w, run, runs) && w.live.Some? && w.live.value.Working?
    requires w'.live.Some? && w'.live.value.Working?
    requires w'.live.value.run == w.live.value.run && w'.live.value.earlier == w.live.value.earlier
    requires HasCompleted(w'.facts, run) ==> HasCompleted(w.facts, run)
    ensures OnTheWay(w', run, runs)
  {}

  lemma SupersedeOnTheWay(source: Text, w: World, run: RunId, runs: seq<RunId>)
    requires MaySupersede(w) && OnTheWay(w, run, runs) && ProperPredecessors(source, w, run, runs)
    ensures OnTheWay(StepSupersede(w, Saved), run, runs)
  {
    var l, w' := w.live.value, StepSupersede(w, Saved);
    forall i | 0 <= i < l.done + 1
      ensures EndsMarked(w'.journals, runs[i], run)
    {
      if i < l.done {
        assert EndsMarked(w.journals, runs[i], run);
      }
    }
  }

  /** Neither the marks nor the completion of a run are touched by a step that leaves both sides alone. */
  lemma FrameOnTheWay(source: Text, w: World, w': World, run: RunId, runs: seq<RunId>)
    requires OnTheWay(w, run, runs) && ProperPredecessors(source, w, run, runs)
    requires w'.facts == w.facts
    requires forall r :: Stored(source, w, r) ==> r in w'.journals && w'.journals[r] == w.journals[r]
    requires w'.live == w.live || (w.live.Some? && w'.live.Some? && SamePredecessors(w.live.value, w'.live.value))
    ensures OnTheWay(w', run, runs)
  {
    forall i | 0 <= i < |runs| && EndsMarked(w.journals, runs[i], run)
      ensures EndsMarked(w'.journals, runs[i], run)
    {
      assert Stored(source, w, runs[i]);
    }
  }

  lemma FinishOnTheWay(w: World, run: RunId, runs: seq<RunId>)
    requires MayFinish(w) && OnTheWay(w, run, runs)
    ensures OnTheWay(w.(live := None), run, runs)
  {}

  lemma RecordsOnTheWay(g: Engine, w: World, e: Event, run: RunId, runs: seq<RunId>)
    requires Enabled(g, w, e) && (e.Record? || e.Note? || e.Land?) && OnTheWay(w, run, runs)
    ensures OnTheWay(Step(g, w, e), run, runs)
  {
    MemoryOnTheWay(w, Step(g, w, e), run, runs);
  }

  lemma OthersOnTheWay(g: Engine, w: World, e: Event, run: RunId, runs: seq<RunId>)
    requires Enabled(g, w, e) && OnTheWay(w, run, runs) && ProperPredecessors(g.setup.source, w, run, runs)
    requires e.Work? || e.Pipe? || e.Answer? || e.Lose? || e.ForeignBlobs? || e.ForeignRows? || e.ForeignJournals?
    ensures OnTheWay(Step(g, w, e), run, runs)
  {
    var w' := Step(g, w, e);
    if e.ForeignRows? || e.ForeignJournals? {
      assert w'.live == w.live && w'.facts == w.facts;
    } else {
      QuietStep(g, w, e);
      StaysAlive(g, w, e);
    }
    FrameOnTheWay(g.setup.source, w, w', run, runs);
  }

  lemma StaysAlive(g: Engine, w: World, e: Event)
    requires Enabled(g, w, e) && (e.Work? || e.Pipe? || e.Answer? || e.Lose? || e.ForeignBlobs?)
    ensures w.live.None? ==> Step(g, w, e).live.None?
    ensures w.live.Some? ==> Step(g, w, e).live.Some?
  {}

  lemma OnTheWayStep(g: Engine, w: World, e: Event, run: RunId, runs: seq<RunId>)
    requires Enabled(g, w, e) && Undisturbed(e)
    requires OnTheWay(w, run, runs) && ProperPredecessors(g.setup.source, w, run, runs)
    ensures OnTheWay(Step(g, w, e), run, runs)
  {
    if e.Start? {
      StartOnTheWay(w, g, e.files, e.reply, run, runs);
    } else if e.Reconcile? {
      ReconcileOnTheWay(w, g, e.reply, run, runs);
    } else if e.Terminate? {
      TerminateOnTheWay(w, g, e.reply, run, runs);
    } else if e.Supersede? {
      SupersedeOnTheWay(g.setup.source, w, run, runs);
    } else if e.Finish? {
      FinishOnTheWay(w, run, runs);
    } else if e.Record? || e.Note? || e.Land? {
      RecordsOnTheWay(g, w, e, run, runs);
    } else {
      OthersOnTheWay(g, w, e, run, runs);
    }
  }

  /** A journal of the source stays one. */
  lemma StoredStays(g: Engine, w: World, e: Event, r: RunId)
    requires Enabled(g, w, e) && JournalsOk(g, w) && Stored(g.setup.source, w, r)
    ensures Stored(g.setup.source, Step(g, w, e), r)
  {
    if IsWrite(e) && Written(w, e) == Some(r) {
      WrittenStaysOurs(g, w, e, r);
    } else if !e.ForeignJournals? {
      OnlyWrittenChanges(g, w, e, r);
    }
  }

  lemma WrittenStaysOurs(g: Engine, w: World, e: Event, r: RunId)
    requires Enabled(g, w, e) && JournalsOk(g, w) && Stored(g.setup.source, w, r)
    requires IsWrite(e) && Written(w, e) == Some(r)
    ensures Stored(g.setup.source, Step(g, w, e), r)
  {
    if e.Reconcile? || e.Supersede? {
      PassStaysOurs(g, w, e, r);
    }
  }

  lemma PassStaysOurs(g: Engine, w: World, e: Event, r: RunId)
    requires Enabled(g, w, e) && JournalsOk(g, w) && Stored(g.setup.source, w, r)
    requires (e.Reconcile? || e.Supersede?) && Written(w, e) == Some(r)
    ensures Stored(g.setup.source, Step(g, w, e), r)
  {
    var item := w.live.value.earlier[w.live.value.done];
    assert w.journals[item.run] == item.journal;
  }

  lemma PredecessorsStay(g: Engine, w: World, e: Event, run: RunId, runs: seq<RunId>)
    requires Enabled(g, w, e) && JournalsOk(g, w) && ProperPredecessors(g.setup.source, w, run, runs)
    ensures ProperPredecessors(g.setup.source, Step(g, w, e), run, runs)
  {
    forall i | 0 <= i < |runs|
      ensures Stored(g.setup.source, Step(g, w, e), runs[i])
    {
      StoredStays(g, w, e, runs[i]);
    }
  }

  lemma {:induction false} OnTheWayRun(g: Engine, w: World, es: seq<Event>, run: RunId, runs: seq<RunId>)
    requires ValidEngine(g) && Injective(g.setup.sha) && Safe(g, w) && JournalsOk(g, w) && ValidRun(g, w, es)
    requires forall i :: 0 <= i < |es| ==> Undisturbed(es[i])
    requires OnTheWay(w, run, runs) && ProperPredecessors(g.setup.source, w, run, runs)
    ensures OnTheWay(Exec(g, w, es), run, runs)
    decreases es
  {
    if es != [] {
      TruthfulStep(g, w, es[0]);
      OnTheWayStep(g, w, es[0], run, runs);
      PredecessorsStay(g, w, es[0], run, runs);
      OnTheWayRun(g, Step(g, w, es[0]), es[1..], run, runs);
    }
  }

  /** A run that has not come to its end yet is on the way to marking what it listed. */
  lemma NotEndedIsOnTheWay(g: Engine, w: World)
    requires CountersOk(w) && JournalsOk(g, w) && w.live.Some? && !w.live.value.Closing?
    ensures OnTheWay(w, w.live.value.run, RunsOf(w.live.value.earlier))
    ensures ProperPredecessors(g.setup.source, w, w.live.value.run, RunsOf(w.live.value.earlier))
  {
    assert EarlierOk(g.setup.source, w, w.live.value.run, w.live.value.earlier, 0);
  }

  /**
   * Only a run that saw every candidate through supersedes, and it does: when a run has ended as
   * completed and the saves of its marks were acknowledged, the last entry in the journal of every
   * predecessor it had found open is its mark.
   */
  lemma CompletedRunSupersedes(g: Engine, w: World, es: seq<Event>)
    requires ValidEngine(g) && Injective(g.setup.sha) && Safe(g, w) && JournalsOk(g, w)
    requires w.live.Some? && !w.live.value.Closing? && ValidRun(g, w, es)
    requires forall i :: 0 <= i < |es| ==> Undisturbed(es[i])
    requires Exec(g, w, es).live.None? && HasCompleted(Exec(g, w, es).facts, w.live.value.run)
    ensures var runs := RunsOf(w.live.value.earlier);
            MarkedBy(Exec(g, w, es), w.live.value.run, runs, |runs|)
  {
    NotEndedIsOnTheWay(g, w);
    OnTheWayRun(g, w, es, w.live.value.run, RunsOf(w.live.value.earlier));
  }

  // ---------- and leaves them alone otherwise ----------

  ghost predicate SameEntries(journals: Journals, was: Journals, runs: seq<RunId>) {
    forall i :: 0 <= i < |runs| ==>
      runs[i] in journals && runs[i] in was && journals[runs[i]] == was[runs[i]]
  }

  /** Until the run has completed, its predecessors' journals are as they were when it started working. */
  ghost predicate LeftAlone(w: World, was: Journals, run: RunId, runs: seq<RunId>) {
    match w.live
    case None => HasCompleted(w.facts, run) || SameEntries(w.journals, was, runs)
    case Some(Closing(r, _, _, _)) => r == run && HasCompleted(w.facts, run)
    case Some(Opening(_, _, _, _, _, _)) => false
    case Some(l) => l.run == run && SameEntries(w.journals, was, runs)
  }

  lemma WritesNoPredecessor(g: Engine, w: World, e: Event, was: Journals, run: RunId, runs: seq<RunId>)
    requires Enabled(g, w, e) && !e.Reconcile? && !e.Supersede? && !e.Start?
    requires ProperPredecessors(g.setup.source, w, run, runs) && SameEntries(w.journals, was, runs)
    requires w.live.Some? ==> w.live.value.run == run
    ensures SameEntries(Step(g, w, e).journals, was, runs)
  {
    forall i | 0 <= i < |runs|
      ensures runs[i] in Step(g, w, e).journals && Step(g, w, e).journals[runs[i]] == was[runs[i]]
    {
      assert Stored(g.setup.source, w, runs[i]);
      if !e.ForeignJournals? {
        OnlyWrittenChanges(g, w, e, runs[i]);
      }
    }
  }

  /** A working run goes on working, or ends. */
  lemma WorkGoesOn(g: Engine, w: World, e: Event)
    requires Enabled(g, w, e) && w.live.Some? && w.live.value.Working? && !e.Terminate?
    ensures Step(g, w, e).live.None?
            || (Step(g, w, e).live.value.Working? && Step(g, w, e).live.value.run == w.live.value.run)
  {}

  lemma ClosingGoesOn(g: Engine, w: World, e: Event)
    requires Enabled(g, w, e) && w.live.Some? && w.live.value.Closing?
    ensures Step(g, w, e).facts == w.facts
    ensures Step(g, w, e).live.None?
            || (Step(g, w, e).live.value.Closing? && Step(g, w, e).live.value.run == w.live.value.run)
  {}

  lemma NobodyGoesOn(g: Engine, w: World, e: Event)
    requires Enabled(g, w, e) && w.live.None? && !e.Begin?
    ensures Step(g, w, e).facts == w.facts && Step(g, w, e).live.None?
    ensures !e.Reconcile? && !e.Supersede? && !e.Start?
  {}

  lemma LeftAloneStep(g: Engine, w: World, e: Event, was: Journals, run: RunId, runs: seq<RunId>)
    requires Enabled(g, w, e) && !e.Begin?
    requires ProperPredecessors(g.setup.source, w, run, runs) && LeftAlone(w, was, run, runs)
    ensures LeftAlone(Step(g, w, e), was, run, runs)
  {
    if w.live.None? {
      NobodyGoesOn(g, w, e);
      if !HasCompleted(w.facts, run) {
        WritesNoPredecessor(g, w, e, was, run, runs);
      }
    } else if w.live.value.Closing? {
      ClosingGoesOn(g, w, e);
    } else {
      WorkLeavesAlone(g, w, e, was, run, runs);
    }
  }

  lemma WorkLeavesAlone(g: Engine, w: World, e: Event, was: Journals, run: RunId, runs: seq<RunId>)
    requires Enabled(g, w, e) && w.live.Some? && w.live.value.Working?
    requires ProperPredecessors(g.setup.source, w, run, runs) && LeftAlone(w, was, run, runs)
    ensures LeftAlone(Step(g, w, e), was, run, runs)
  {
    WritesNoPredecessor(g, w, e, was, run, runs);
    if !e.Terminate? {
      WorkGoesOn(g, w, e);
    }
  }

  lemma {:induction false} LeftAloneRun(
      g: Engine, w: World, es: seq<Event>, was: Journals, run: RunId, runs: seq<RunId>)
    requires ValidEngine(g) && Injective(g.setup.sha) && Safe(g, w) && JournalsOk(g, w) && ValidRun(g, w, es)
    requires forall i :: 0 <= i < |es| ==> !es[i].Begin?
    requires ProperPredecessors(g.setup.source, w, run, runs) && LeftAlone(w, was, run, runs)
    ensures LeftAlone(Exec(g, w, es), was, run, runs)
    decreases es
  {
    if es != [] {
      TruthfulStep(g, w, es[0]);
      LeftAloneStep(g, w, es[0], was, run, runs);
      PredecessorsStay(g, w, es[0], run, runs);
      LeftAloneRun(g, Step(g, w, es[0]), es[1..], was, run, runs);
    }
  }

  /** A run that ends in any other way, killed or not, leaves the journals of its predecessors as they were. */
  lemma OnlyCompletionSupersedes(g: Engine, w: World, es: seq<Event>)
    requires ValidEngine(g) && Injective(g.setup.sha) && Safe(g, w) && JournalsOk(g, w)
    requires w.live.Some? && w.live.value.Working? && ValidRun(g, w, es)
    requires forall i :: 0 <= i < |es| ==> !es[i].Begin?
    requires !HasCompleted(Exec(g, w, es).facts, w.live.value.run)
    ensures SameEntries(Exec(g, w, es).journals, w.journals, RunsOf(w.live.value.earlier))
  {
    var run, runs := w.live.value.run, RunsOf(w.live.value.earlier);
    NotEndedIsOnTheWay(g, w);
    LeftAloneRun(g, w, es, w.journals, run, runs);
    LeftAloneAtTheEnd(Exec(g, w, es), w.journals, run, runs);
  }

  lemma LeftAloneAtTheEnd(w: World, was: Journals, run: RunId, runs: seq<RunId>)
    requires LeftAlone(w, was, run, runs) && !HasCompleted(w.facts, run)
    ensures SameEntries(w.journals, was, runs)
  {}
}
