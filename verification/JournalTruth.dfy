/** The journal only under-reports, follows its grammar, and reconciliation closes what was open. */
module JournalTruth {
  import opened Domain
  import opened Seqs
  import opened Journal
  import opened World
  import opened BlobSafety
  import opened RunFacts
  import opened Safety
  import opened JournalSafety
  import P = Pipeline

  lemma TruthfulStep(g: Engine, w: World, e: Event)
    requires ValidEngine(g) && Injective(g.setup.sha) && Safe(g, w) && JournalsOk(g, w) && Enabled(g, w, e)
    ensures Safe(g, Step(g, w, e)) && JournalsOk(g, Step(g, w, e))
  {
    SafeStep(g, w, e);
    JournalsStep(g, w, e);
  }

  lemma {:induction false} JournalsRun(g: Engine, w: World, es: seq<Event>)
    requires ValidEngine(g) && Injective(g.setup.sha) && Safe(g, w) && JournalsOk(g, w) && ValidRun(g, w, es)
    ensures Safe(g, Exec(g, w, es)) && JournalsOk(g, Exec(g, w, es))
    decreases es
  {
    if es != [] {
      TruthfulStep(g, w, es[0]);
      JournalsRun(g, Step(g, w, es[0]), es[1..]);
    }
  }

  lemma {:induction false} FlattenPrefix(batches: seq<seq<Row>>, m: nat)
    requires m <= |batches|
    ensures Flatten(batches[..m]) <= Flatten(batches)
    decreases |batches|
  {
    if m == |batches| {
      assert batches[..m] == batches;
    } else {
      var init := batches[..|batches| - 1];
      FlattenPrefix(init, m);
      assert init[..m] == batches[..m];
    }
  }

  lemma {:induction false} SizesPrefix(batches: seq<seq<Row>>, m: nat)
    requires m <= |batches|
    ensures Sizes(batches)[..m] == Sizes(batches[..m])
    decreases |batches|
  {
    if m == |batches| {
      assert batches[..m] == batches;
      assert Sizes(batches)[..m] == Sizes(batches);
    } else {
      var init := batches[..|batches| - 1];
      SizesPrefix(init, m);
      assert init[..m] == batches[..m];
      assert Sizes(batches)[..m] == Sizes(init)[..m];
    }
  }

  /**
   * Reading one stored journal against the run's facts: it names some number of acknowledged
   * batches, never more than there were, and it is terminal only if it is complete.
   */
  lemma StoredScript(source: Text, w: World, r: RunId) returns (m: nat, c: bool, t: Option<RunState>)
    requires AllTruthful(source, w) && Stored(source, w, r) && FactsOk(w.facts[r])
    ensures var f, own := w.facts[r], Own(w.journals[r].history);
            && m <= f.acked
            && own == Script(Sizes(f.attempted[..m]), c, t)
            && (t.Some? ==> own == f.history && t == f.terminal && m == f.acked)
            && RowsCommitted(w.journals[r].history) == |Flatten(f.attempted[..m])|
            && BatchesCommitted(w.journals[r].history) == m
            && LastOwn(w.journals[r].history) == LastOwn(own)
  {
    var f, h := w.facts[r], w.journals[r].history;
    assert Truthful(source, w, r, w.journals[r]);
    var acked := f.attempted[..f.acked];
    m, c, t := PrefixOfScript(Sizes(acked), |f.attempted| > f.acked, f.terminal, Own(h));
    SizesPrefix(acked, m);
    assert acked[..m] == f.attempted[..m];
    OwnIsTransparent(h);
    ScriptTotals(Sizes(f.attempted[..m]), c, t);
    SizesSum(f.attempted[..m]);
  }

  lemma LastOfScript(sizes: seq<nat>, c: bool, t: Option<RunState>)
    requires t.Some? ==> IsTerminal(t.value)
    ensures t.Some? ==> LastOwn(Script(sizes, c, t)) == t.value
    ensures t.None? ==> !IsTerminal(LastOwn(Script(sizes, c, t)))
  {
    AcknowledgedNonEmpty(sizes);
    var h := Script(sizes, c, t);
    if t.None? && !c {
      assert h == Acknowledged(sizes);
    }
  }

  /** What the last own entry of a stored journal says about the batches of the run. */
  lemma LastOwnMeans(source: Text, w: World, r: RunId)
    requires AllTruthful(source, w) && Stored(source, w, r) && FactsOk(w.facts[r])
    ensures var h, f := w.journals[r].history, w.facts[r];
            && BatchesCommitted(h) <= f.acked
            && RowsCommitted(h) == |Flatten(f.attempted[..BatchesCommitted(h)])|
            && (LastOwn(h).Completed? || LastOwn(h).Incomplete? ==> BatchesCommitted(h) == f.applied)
            && (LastOwn(h).CommitFailed? ==> LastOwn(h).batch == BatchesCommitted(h) + 1 == |f.attempted|)
  {
    var m, c, t := StoredScript(source, w, r);
    LastOfScript(Sizes(w.facts[r].attempted[..m]), c, t);
  }

  /**
   * The journal only under-reports. Whichever saves failed: the run's own entries are a prefix of
   * what it remembers, the first is `started`, the recorded rows never exceed the rows in the
   * catalog, they are equal once the run is recorded as completed or incomplete, and after a
   * recorded commit failure the catalog holds the recorded rows or those plus exactly the failed
   * batch. Every reconciliation entry is exact.
   */
  lemma JournalUnderReports(g: Engine, w: World, r: RunId)
    requires CountersOk(w) && RunRowsOk(g, w) && JournalsOk(g, w) && Stored(g.setup.source, w, r)
    ensures var h, f, rows := w.journals[r].history, w.facts[r], RunRows(g.setup.source, r, w.catalog);
            && h[0] == Started && Own(h) <= f.history
            && RowsCommitted(h) <= |rows|
            && (LastOwn(h).Completed? || LastOwn(h).Incomplete? ==> RowsCommitted(h) == |rows|)
            && (LastOwn(h).CommitFailed? ==>
                  && LastOwn(h).batch == BatchesCommitted(h) + 1 == |f.attempted|
                  && RowsCommitted(h) == |Flatten(f.attempted[..BatchesCommitted(h)])|
                  && (rows == Flatten(f.attempted[..BatchesCommitted(h)]) || rows == Flatten(f.attempted)))
            && CountsExact(h, |rows|)
  {
    var source, f := g.setup.source, w.facts[r];
    assert Truthful(source, w, r, w.journals[r]);
    assert FactRows(source, r, f, w.catalog);
    LastOwnMeans(source, w, r);
    AppliedRows(f, BatchesCommitted(w.journals[r].history));
  }

  /** Of the rows that landed, the recorded ones come first. */
  lemma AppliedRows(f: Facts, m: nat)
    requires FactsOk(f) && m <= f.acked
    ensures |Flatten(f.attempted[..m])| <= |Flatten(f.attempted[..f.applied])|
    ensures f.applied == |f.attempted| ==> f.attempted[..f.applied] == f.attempted
  {
    var applied := f.attempted[..f.applied];
    FlattenPrefix(applied, m);
    assert applied[..m] == f.attempted[..m];
  }

  /** No row exists for a run whose `started` entry is not stored, whatever became of that run. */
  lemma NoRowWithoutStarted(g: Engine, w: World, r: RunId)
    requires RunRowsOk(g, w) && JournalsOk(g, w)
    requires RunRows(g.setup.source, r, w.catalog) != []
    ensures Stored(g.setup.source, w, r) && [Started] <= w.journals[r].history
  {
    if r !in w.facts {
      RunRowsNone(g.setup.source, r, w.catalog);
    }
    assert FactRows(g.setup.source, r, w.facts[r], w.catalog);
    assert Truthful(g.setup.source, w, r, w.journals[r]);
  }

  /**
   * The grammar of a live run's memory, and the agreement of its three batch counters: the
   * committer's own counter, the writer's commit counts, and the journal entries.
   */
  lemma CountersAgree(g: Engine, w: World)
    requires ValidEngine(g) && PoolOk(g, w) && CountersOk(w) && w.live.Some? && w.live.value.Working?
    ensures var l, f := w.live.value, w.facts[w.live.value.run];
            && f.history == Script(Sizes(f.attempted[..f.acked]), l.batches > f.acked, None)
            && l.batches == |f.attempted|
            && l.pipe.commit.batchesCommitted <= l.batches <= l.pipe.commit.batchesCommitted + 1
            && (!l.phase.Idle? || l.pipe.writer.Broken? <==> l.batches == l.pipe.commit.batchesCommitted + 1)
            && RowsCommitted(f.history)
               == l.pipe.commit.committed + (if l.phase.Noted? then |l.pipe.writer.batch| else 0)
            && BatchesCommitted(f.history) == l.pipe.commit.batchesCommitted + (if l.phase.Noted? then 1 else 0)
            && (P.Final(l.pipe) && TerminalOf(l.pipe).CommitFailed? ==> TerminalOf(l.pipe).batch == l.batches)
  {
    var l, f := w.live.value, w.facts[w.live.value.run];
    var acked := f.attempted[..f.acked];
    ScriptTotals(Sizes(acked), |f.attempted| > f.acked, None);
    SizesSum(acked);
    AckedBatches(l, f);
    if l.phase.Noted? {
      FlattenSnoc(l.pipe.batches, l.pipe.writer.batch);
    }
  }

  /** The batches a run's journal acknowledges are those its writer counted, give or take the one just noted. */
  lemma AckedBatches(l: Live, f: Facts)
    requires l.Working? && InStep(l, f) && f.acked <= |f.attempted|
    ensures l.phase.Noted? ==> l.pipe.writer.Flushing?
    ensures f.attempted[..f.acked] == l.pipe.batches + if l.phase.Noted? then [l.pipe.writer.batch] else []
  {}

  // ---------- failing closed ----------

  /**
   * A run that cannot reconcile a predecessor or cannot record its own start ends there: an error,
   * even one for a save that has landed, stops it before it has touched anything else.
   */
  lemma FailsClosed(g: Engine, w: World, e: Event)
    requires Enabled(g, w, e) && ((e.Reconcile? && !e.reply.Saved?) || (e.Start? && !e.reply.Saved?))
    ensures var w' := Step(g, w, e);
            w'.live.None? && w'.catalog == w.catalog && w'.blobs == w.blobs
  {}

  // ---------- open runs ----------

  /**
   * A stored journal of the source is open exactly when no entry in it settles the rows of its run:
   * neither a completion, nor an end with failed files, nor a closure by a later run. So an
   * unacknowledged commit and an interrupted run both stay open until a later run closes them.
   */
  lemma OpenMeansNothingSettled(g: Engine, w: World, r: RunId)
    requires CountersOk(w) && JournalsOk(g, w) && Stored(g.setup.source, w, r)
    ensures OpenFor(g.setup.source, w.journals, r) <==> Unsettled(w.journals[r].history)
  {
    var h := w.journals[r].history;
    assert Truthful(g.setup.source, w, r, w.journals[r]);
    if IsClosed(h) {
      NotOpenIfClosed(h);
    } else {
      OwnOfOpen(h);
      UnclosedIsScript(g.setup.source, w, r);
    }
  }

  lemma UnclosedIsScript(source: Text, w: World, r: RunId)
    requires AllTruthful(source, w) && Stored(source, w, r) && FactsOk(w.facts[r])
    requires !IsClosed(w.journals[r].history)
    ensures IsOpen(w.journals[r].history) <==> Unsettled(w.journals[r].history)
  {
    var m, c, t := StoredScript(source, w, r);
    OwnOfOpen(w.journals[r].history);
    OpenMeansUnsettled(Sizes(w.facts[r].attempted[..m]), c, t);
  }

  // ---------- reconciliation ----------

  /**
   * After a successful reconciling pass exactly the runs whose journals could not be read are
   * still open, so none is open if and only if every open journal was found.
   */
  lemma ReconciledMeansFoundAreClosed(g: Engine, w: World)
    requires JournalsOk(g, w) && w.live.Some? && w.live.value.Opening?
    requires w.live.value.done == |w.live.value.earlier|
    ensures forall r :: OpenFor(g.setup.source, w.journals, r) <==> r in w.live.value.skipped
    ensures (forall r :: !OpenFor(g.setup.source, w.journals, r)) <==> w.live.value.skipped == {}
    ensures forall i :: 0 <= i < |w.live.value.earlier| ==>
              Stored(g.setup.source, w, w.live.value.earlier[i].run)
              && IsClosed(w.journals[w.live.value.earlier[i].run].history)
  {
    if r :| r in w.live.value.skipped {
      assert OpenFor(g.setup.source, w.journals, r);
    }
  }

  /** `after` is `before` with nothing of the run's own added or lost, and it is closed. */
  ghost predicate StillClosed(before: RunJournal, after: RunJournal) {
    && before.source == after.source && before.history <= after.history
    && IsClosed(after.history) && Own(after.history) == Own(before.history)
  }

  lemma ClosureStillCloses(before: RunJournal, c: RunState)
    requires IsClosure(c)
    ensures StillClosed(before, Push(before, c))
  {
    ClosureOnlyCloses(before.history, c);
    assert IsClosure(Push(before, c).history[|before.history|]);
  }

  /** The run whose journal a step writes. */
  ghost function Written(w: World, e: Event): Option<RunId>
    requires w.live.Some?
  {
    var l := w.live.value;
    match e
    case Start(_, _) => Some(l.run)
    case Record(_) => Some(l.run)
    case Note(_) => Some(l.run)
    case Terminate(_) => Some(l.run)
    case Reconcile(_) => if !l.Working? && l.done < |l.earlier| then Some(l.earlier[l.done].run) else None
    case Supersede(_) => if !l.Working? && l.done < |l.earlier| then Some(l.earlier[l.done].run) else None
    case _ => None
  }

  predicate IsWrite(e: Event) {
    e.Start? || e.Record? || e.Note? || e.Terminate? || e.Reconcile? || e.Supersede?
  }

  lemma MemoryWritesItsOwn(g: Engine, w: World, e: Event, r: RunId)
    requires Enabled(g, w, e) && (e.Record? || e.Note? || e.Terminate?)
    requires r in w.journals && r != w.live.value.run
    ensures r in Step(g, w, e).journals && Step(g, w, e).journals[r] == w.journals[r]
  {}

  lemma PassWritesItsItem(g: Engine, w: World, e: Event, r: RunId)
    requires Enabled(g, w, e) && (e.Start? || e.Reconcile? || e.Supersede?)
    requires r in w.journals && Written(w, e) != Some(r)
    ensures r in Step(g, w, e).journals && Step(g, w, e).journals[r] == w.journals[r]
  {}

  lemma RestWritesNothing(g: Engine, w: World, e: Event)
    requires Enabled(g, w, e) && !IsWrite(e) && !e.ForeignJournals?
    ensures Step(g, w, e).journals == w.journals
  {
    if TouchesNoJournal(e) {
      QuietStep(g, w, e);
    }
  }

  /** Apart from other sources' writers, a step changes at most the journal it writes. */
  lemma OnlyWrittenChanges(g: Engine, w: World, e: Event, r: RunId)
    requires Enabled(g, w, e) && !e.ForeignJournals? && r in w.journals
    requires IsWrite(e) ==> Written(w, e) != Some(r)
    ensures r in Step(g, w, e).journals && Step(g, w, e).journals[r] == w.journals[r]
  {
    if e.Record? || e.Note? || e.Terminate? {
      MemoryWritesItsOwn(g, w, e, r);
    } else if IsWrite(e) {
      PassWritesItsItem(g, w, e, r);
    } else {
      RestWritesNothing(g, w, e);
    }
  }

  /** What a step writes is a journal of this source, and only the passes write a closed one. */
  lemma WrittenIsOurs(g: Engine, w: World, e: Event, r: RunId)
    requires Enabled(g, w, e) && IsWrite(e) && LiveJournalsOk(g.setup.source, w) && r in w.journals
    requires Written(w, e) == Some(r)
    ensures w.journals[r].source == g.setup.source
    ensures IsClosed(w.journals[r].history) ==> e.Reconcile? || e.Supersede?
  {}

  lemma ClosedIsStillClosed(j: RunJournal)
    requires IsClosed(j.history)
    ensures StillClosed(j, j)
  {}

  /** A pass only ever adds closure entries to the journals it lists. */
  lemma ReconcilingOnlyCloses(g: Engine, w: World, reply: SaveReply, r: RunId)
    requires MayReconcile(w) && JournalsOk(g, w)
    requires Stored(g.setup.source, w, r) && IsClosed(w.journals[r].history)
    ensures var w' := StepReconcile(g, w, reply);
            r in w'.journals && StillClosed(w.journals[r], w'.journals[r])
  {
    var item := w.live.value.earlier[w.live.value.done];
    assert w.journals[item.run] == item.journal;
    ClosureStillCloses(item.journal, Reconciled(|RunRows(g.setup.source, item.run, w.catalog)|));
    ClosedIsStillClosed(w.journals[r]);
  }

  lemma SupersedingOnlyCloses(g: Engine, w: World, reply: SaveReply, r: RunId)
    requires MaySupersede(w) && JournalsOk(g, w)
    requires Stored(g.setup.source, w, r) && IsClosed(w.journals[r].history)
    ensures var w' := StepSupersede(w, reply);
            r in w'.journals && StillClosed(w.journals[r], w'.journals[r])
  {
    var item := w.live.value.earlier[w.live.value.done];
    assert w.journals[item.run] == item.journal;
    ClosureStillCloses(item.journal, SupersededBy(w.live.value.run));
    ClosedIsStillClosed(w.journals[r]);
  }

  /** A closed journal stays closed, and keeps exactly what the run itself recorded. */
  lemma ClosedStaysClosed(g: Engine, w: World, e: Event, r: RunId)
    requires Enabled(g, w, e) && JournalsOk(g, w)
    requires Stored(g.setup.source, w, r) && IsClosed(w.journals[r].history)
    ensures r in Step(g, w, e).journals && StillClosed(w.journals[r], Step(g, w, e).journals[r])
  {
    if e.Reconcile? {
      ReconcilingOnlyCloses(g, w, e.reply, r);
    } else if e.Supersede? {
      SupersedingOnlyCloses(g, w, e.reply, r);
    } else if !e.ForeignJournals? {
      if IsWrite(e) && Written(w, e) == Some(r) {
        WrittenIsOurs(g, w, e, r);
      }
      OnlyWrittenChanges(g, w, e, r);
    }
  }

  /** This source's runs never touch the journals of another source. */
  lemma OtherSourcesUntouched(g: Engine, w: World, e: Event, r: RunId)
    requires Enabled(g, w, e) && JournalsOk(g, w) && !e.ForeignJournals?
    requires r in w.journals && w.journals[r].source != g.setup.source
    ensures r in Step(g, w, e).journals && Step(g, w, e).journals[r] == w.journals[r]
  {
    if IsWrite(e) && Written(w, e) == Some(r) {
      WrittenIsOurs(g, w, e, r);
    }
    OnlyWrittenChanges(g, w, e, r);
  }
}
