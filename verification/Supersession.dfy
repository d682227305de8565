/** What a `superseded_by` entry in a journal stands for. */
module Supersession {
  import opened Domain
  import opened Journal
  import opened World
  import opened RunFacts
  import opened JournalSafety

  /** The run ended as completed. */
  predicate HasCompleted(facts: map<RunId, Facts>, run: RunId) {
    run in facts && facts[run].terminal == Some(Completed)
  }

  /** One of the first `n` entries is a reconciliation. */
  ghost predicate ReconciledWithin(h: seq<RunState>, n: nat)
    requires n <= |h|
  {
    exists j :: 0 <= j < n && h[j].Reconciled?
  }

  /** Every mark names another run, one that completed, and stands behind a reconciliation. */
  ghost predicate MarksOk(facts: map<RunId, Facts>, r: RunId, h: seq<RunState>) {
    forall i :: 0 <= i < |h| && h[i].SupersededBy? ==>
      h[i].run != r && HasCompleted(facts, h[i].run) && ReconciledWithin(h, i)
  }

  /** What the live run knows about its predecessors by the time it may mark them. */
  ghost predicate MarkingOk(l: Live, facts: map<RunId, Facts>) {
    var n := if l.Opening? && l.done <= |l.earlier| then l.done else |l.earlier|;
    && (forall i :: 0 <= i < n ==> AllReconciled(l.earlier[i].journal.history))
    && (l.Closing? ==> HasCompleted(facts, l.run))
  }

  ghost predicate AllReconciled(h: seq<RunState>) {
    ReconciledWithin(h, |h|)
  }

  ghost predicate SupersessionOk(g: Engine, w: World) {
    && (forall r :: Stored(g.setup.source, w, r) ==> MarksOk(w.facts, r, w.journals[r].history))
    && (w.live.Some? ==> MarkingOk(w.live.value, w.facts))
  }

  // ---------- one entry more ----------

  lemma UnmarkedIsOk(facts: map<RunId, Facts>, r: RunId, h: seq<RunState>)
    requires !IsClosed(h)
    ensures MarksOk(facts, r, h)
  {}

  lemma ReconciledKeepsMarks(facts: map<RunId, Facts>, r: RunId, j: RunJournal, rows: nat)
    requires MarksOk(facts, r, j.history)
    ensures MarksOk(facts, r, Push(j, Reconciled(rows)).history) && AllReconciled(Push(j, Reconciled(rows)).history)
  {
    var h' := Push(j, Reconciled(rows)).history;
    assert h'[|j.history|].Reconciled?;
    EarlierMarksStay(facts, r, j, Reconciled(rows));
  }

  lemma MarkKeepsMarks(facts: map<RunId, Facts>, r: RunId, j: RunJournal, next: RunId)
    requires MarksOk(facts, r, j.history)
    requires next != r && HasCompleted(facts, next) && AllReconciled(j.history)
    ensures MarksOk(facts, r, Push(j, SupersededBy(next)).history)
  {
    var h' := Push(j, SupersededBy(next)).history;
    var k :| 0 <= k < |j.history| && j.history[k].Reconciled?;
    assert h'[k].Reconciled?;
    EarlierMarksStay(facts, r, j, SupersededBy(next));
  }

  lemma EarlierMarksStay(facts: map<RunId, Facts>, r: RunId, j: RunJournal, s: RunState)
    requires MarksOk(facts, r, j.history)
    ensures var h' := Push(j, s).history;
            forall i :: 0 <= i < |j.history| && h'[i].SupersededBy? ==>
              h'[i].run != r && HasCompleted(facts, h'[i].run) && ReconciledWithin(h', i)
  {
    var h, h' := j.history, Push(j, s).history;
    forall i | 0 <= i < |h| && h'[i].SupersededBy?
      ensures ReconciledWithin(h', i)
    {
      assert h[i].SupersededBy?;
      var k :| 0 <= k < i && h[k].Reconciled?;
      assert h'[k].Reconciled?;
    }
  }

  // ---------- the frame ----------

  /** No run that completed is forgotten. */
  ghost predicate CompletionsStay(facts: map<RunId, Facts>, facts': map<RunId, Facts>) {
    forall s :: HasCompleted(facts, s) ==> HasCompleted(facts', s)
  }

  /** A step that writes at most one journal, truthfully. */
  lemma WritingKeepsMarks(g: Engine, w: World, w': World, r: RunId)
    requires SupersessionOk(g, w) && CompletionsStay(w.facts, w'.facts)
    requires forall s :: s != r && Stored(g.setup.source, w', s) ==>
               Stored(g.setup.source, w, s) && w'.journals[s] == w.journals[s]
    requires Stored(g.setup.source, w', r) ==> MarksOk(w'.facts, r, w'.journals[r].history)
    requires w'.live.Some? ==> MarkingOk(w'.live.value, w'.facts)
    ensures SupersessionOk(g, w')
  {
    forall s | Stored(g.setup.source, w', s)
      ensures MarksOk(w'.facts, s, w'.journals[s].history)
    {
      if s != r {
        assert MarksOk(w.facts, s, w.journals[s].history);
      }
    }
  }

  /** A step that writes no journal of this source. */
  lemma SilenceKeepsMarks(g: Engine, w: World, w': World)
    requires SupersessionOk(g, w) && CompletionsStay(w.facts, w'.facts)
    requires forall s :: Stored(g.setup.source, w', s) ==>
               Stored(g.setup.source, w, s) && w'.journals[s] == w.journals[s]
    requires w'.live.Some? ==> MarkingOk(w'.live.value, w'.facts)
    ensures SupersessionOk(g, w')
  {
    forall s | Stored(g.setup.source, w', s)
      ensures MarksOk(w'.facts, s, w'.journals[s].history)
    {
      assert MarksOk(w.facts, s, w.journals[s].history);
    }
  }

  // ---------- every step ----------

  /** The live run rewrites its own journal from its memory, which has no marks. */
  lemma MemoryKeepsMarks(g: Engine, w: World, w': World, n: nat, f: Facts, reply: SaveReply)
    requires SupersessionOk(g, w) && w.live.Some? && FactsOk(f)
    requires w.live.value.run in w.facts ==> w.facts[w.live.value.run].terminal.None?
    requires w'.facts == w.facts[w.live.value.run := f]
    requires w'.journals == SaveEffect(w.journals, w.live.value.run, RunJournal(g.setup.source, n, f.history), reply)
    requires w'.live.Some? ==> MarkingOk(w'.live.value, w'.facts)
    ensures SupersessionOk(g, w')
  {
    var run := w.live.value.run;
    MemoryIsOwn(f);
    if Stored(g.setup.source, w', run) {
      if reply.NotSaved? {
        assert MarksOk(w.facts, run, w.journals[run].history);
      } else {
        UnmarkedIsOk(w'.facts, run, f.history);
      }
    }
    WritingKeepsMarks(g, w, w', run);
  }

  lemma StartKeepsMarks(g: Engine, w: World, files: seq<Text>, reply: SaveReply)
    requires CountersOk(w) && SupersessionOk(g, w) && MayStart(w, files)
    ensures SupersessionOk(g, StepStart(g, w, files, reply))
  {
    if files == [] {
      SilenceKeepsMarks(g, w, StepStart(g, w, files, reply));
    } else {
      FreshFactsOk();
      MemoryKeepsMarks(g, w, StepStart(g, w, files, reply), |files|, Facts([], 0, 0, [Started], None), reply);
    }
  }

  lemma RecordKeepsMarks(g: Engine, w: World, reply: SaveReply)
    requires CountersOk(w) && SupersessionOk(g, w) && MayRecord(w)
    requires FactsOk(StepRecord(g, w, reply).facts[w.live.value.run])
    ensures SupersessionOk(g, StepRecord(g, w, reply))
  {
    var w' := StepRecord(g, w, reply);
    MemoryKeepsMarks(g, w, w', |w.live.value.files|, w'.facts[w.live.value.run], reply);
  }

  lemma NoteKeepsMarks(g: Engine, w: World, reply: SaveReply)
    requires CountersOk(w) && SupersessionOk(g, w) && MayNote(w)
    requires FactsOk(StepNote(g, w, reply).facts[w.live.value.run])
    ensures SupersessionOk(g, StepNote(g, w, reply))
  {
    var w' := StepNote(g, w, reply);
    MemoryKeepsMarks(g, w, w', |w.live.value.files|, w'.facts[w.live.value.run], reply);
  }

  lemma TerminateKeepsMarks(g: Engine, w: World, reply: SaveReply)
    requires CountersOk(w) && SupersessionOk(g, w) && MayTerminate(w)
    requires FactsOk(StepTerminate(g, w, reply).facts[w.live.value.run])
    ensures SupersessionOk(g, StepTerminate(g, w, reply))
  {
    var w' := StepTerminate(g, w, reply);
    MemoryKeepsMarks(g, w, w', |w.live.value.files|, w'.facts[w.live.value.run], reply);
  }

  lemma ReconcileKeepsMarks(g: Engine, w: World, reply: SaveReply)
    requires JournalsOk(g, w) && SupersessionOk(g, w) && MayReconcile(w)
    ensures SupersessionOk(g, StepReconcile(g, w, reply))
  {
    var item := w.live.value.earlier[w.live.value.done];
    assert Stored(g.setup.source, w, item.run) && w.journals[item.run] == item.journal;
    ReconciledKeepsMarks(w.facts, item.run, item.journal, |RunRows(g.setup.source, item.run, w.catalog)|);
    WritingKeepsMarks(g, w, StepReconcile(g, w, reply), item.run);
  }

  lemma SupersedeKeepsMarks(g: Engine, w: World, reply: SaveReply)
    requires JournalsOk(g, w) && SupersessionOk(g, w) && MaySupersede(w)
    ensures SupersessionOk(g, StepSupersede(w, reply))
  {
    var l := w.live.value;
    var item := l.earlier[l.done];
    assert Stored(g.setup.source, w, item.run) && w.journals[item.run] == item.journal;
    MarkKeepsMarks(w.facts, item.run, item.journal, l.run);
    WritingKeepsMarks(g, w, StepSupersede(w, reply), item.run);
  }

  lemma LandKeepsMarks(g: Engine, w: World)
    requires SupersessionOk(g, w) && MayLand(w)
    ensures SupersessionOk(g, StepLand(w))
  {
    SilenceKeepsMarks(g, w, StepLand(w));
  }

  lemma BeginKeepsMarks(g: Engine, w: World, run: RunId, order: seq<RunId>)
    requires SupersessionOk(g, w) && MayBegin(g, w, run, order)
    ensures SupersessionOk(g, StepBegin(g, w, run, order))
  {
    SilenceKeepsMarks(g, w, StepBegin(g, w, run, order));
  }

  lemma QuietKeepsMarks(g: Engine, w: World, w': World)
    requires SupersessionOk(g, w) && SameJournals(w, w')
    ensures SupersessionOk(g, w')
  {
    SilenceKeepsMarks(g, w, w');
  }

  lemma ForeignersKeepMarks(g: Engine, w: World, e: Event)
    requires SupersessionOk(g, w) && Enabled(g, w, e) && (e.ForeignRows? || e.ForeignJournals?)
    ensures SupersessionOk(g, Step(g, w, e))
  {
    SilenceKeepsMarks(g, w, Step(g, w, e));
  }

  lemma SupersessionStep(g: Engine, w: World, e: Event)
    requires CountersOk(w) && JournalsOk(g, w) && SupersessionOk(g, w) && Enabled(g, w, e)
    requires CountersOk(Step(g, w, e))
    ensures SupersessionOk(g, Step(g, w, e))
  {
    if TouchesNoJournal(e) {
      QuietStep(g, w, e);
      QuietKeepsMarks(g, w, Step(g, w, e));
    } else if e.Record? {
      RecordKeepsMarks(g, w, e.reply);
    } else if e.Note? {
      NoteKeepsMarks(g, w, e.reply);
    } else if e.Terminate? {
      TerminateKeepsMarks(g, w, e.reply);
    } else if e.Land? {
      LandKeepsMarks(g, w);
    } else {
      PassesKeepMarks(g, w, e);
    }
  }

  lemma PassesKeepMarks(g: Engine, w: World, e: Event)
    requires CountersOk(w) && JournalsOk(g, w) && SupersessionOk(g, w) && Enabled(g, w, e)
    requires e.Begin? || e.Start? || e.Reconcile? || e.Supersede? || e.ForeignRows? || e.ForeignJournals?
    ensures SupersessionOk(g, Step(g, w, e))
  {
    if e.Begin? {
      BeginKeepsMarks(g, w, e.run, e.order);
    } else if e.Start? {
      StartKeepsMarks(g, w, e.files, e.reply);
    } else if e.Reconcile? {
      ReconcileKeepsMarks(g, w, e.reply);
    } else if e.Supersede? {
      SupersedeKeepsMarks(g, w, e.reply);
    } else {
      ForeignersKeepMarks(g, w, e);
    }
  }

  /**
   * A `superseded_by` entry tells the truth: it names another run of the source, one that ended as
   * completed with every batch in the catalog, and the rows of the marked run were counted before.
   */
  lemma SupersededMeansCompleted(g: Engine, w: World, r: RunId, i: nat)
    requires CountersOk(w) && SupersessionOk(g, w) && JournalsOk(g, w) && Stored(g.setup.source, w, r)
    requires i < |w.journals[r].history| && w.journals[r].history[i].SupersededBy?
    ensures var h, s := w.journals[r].history, w.journals[r].history[i].run;
            && s != r && HasCompleted(w.facts, s)
            && w.facts[s].applied == w.facts[s].acked == |w.facts[s].attempted|
            && exists j :: 0 <= j < i && h[j] == Reconciled(|RunRows(g.setup.source, r, w.catalog)|)
  {
    var h := w.journals[r].history;
    assert MarksOk(w.facts, r, h) && Truthful(g.setup.source, w, r, w.journals[r]);
    var j :| 0 <= j < i && h[j].Reconciled?;
    assert FactsOk(w.facts[h[i].run]);
  }
}
