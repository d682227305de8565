/** The engine's invariant: blobs before rows, and the catalog rows of every run. */
module Safety {
  import opened Domain
  import opened Seqs
  import opened Identity
  import opened Upload
  import opened Journal
  import opened Process
  import opened World
  import opened BlobSafety
  import opened RunFacts
  import P = Pipeline

  // ---------- blobs before rows ----------

  /** The batch about to land is the one the writer still holds. */
  lemma LandingBatch(w: World)
    requires CountersOk(w) && w.live.Some? && w.live.value.Working?
    requires var f := w.facts[w.live.value.run]; f.applied < |f.attempted|
    ensures var f := w.facts[w.live.value.run];
            && f.attempted[f.applied] == P.Batch(w.live.value.pipe.writer)
            && f.applied == f.acked == |w.live.value.pipe.batches|
            && f.attempted == w.live.value.pipe.batches + [f.attempted[f.applied]]
  {}

  lemma LandKeepsBlobs(g: Engine, w: World)
    requires ValidEngine(g) && PoolOk(g, w) && CountersOk(w) && BlobsOk(g, w) && MayLand(w)
    ensures BlobsOk(g, StepLand(w))
  {
    LandingBatch(w);
    var batch := w.facts[w.live.value.run].attempted[w.facts[w.live.value.run].applied];
    forall row | row in batch
      ensures Vouched(g.setup.sha, EverSeen(w), row.hash, row.size) && Derived(g.setup, row)
    {
      BatchIsBacked(g, w, row);
    }
    LandedIsBacked(g, w, StepLand(w), batch);
  }

  lemma LandedIsBacked(g: Engine, w: World, w': World, batch: seq<Row>)
    requires BlobsOk(g, w) && w'.blobs == w.blobs && w'.lost == w.lost && w'.live == w.live
    requires w'.catalog == w.catalog + batch
    requires forall row :: row in batch ==>
               Vouched(g.setup.sha, EverSeen(w), row.hash, row.size) && Derived(g.setup, row)
    ensures BlobsOk(g, w')
  {}

  lemma PipeKeepsBlobs(g: Engine, w: World, p: P.Event)
    requires ValidEngine(g) && PoolOk(g, w) && BlobsOk(g, w) && MayPipe(g, w, p)
    ensures BlobsOk(g, StepPipeline(g, w, p))
  {
    var l := w.live.value;
    PipeKeepsWorkers(g, l, p, RunSeen(w, l));
    var l' := StepPipe(g, l, p);
    assert l'.gone == l.gone;
  }

  lemma PipeKeepsWorkers(g: Engine, l: Live, p: P.Event, seen: set<Text>)
    requires l.Working? && PipeEnabled(g, l, p) && l.pipe.total == |l.files|
    requires WorkersOk(g, l, seen) && LogOk(g, l, seen)
    ensures WorkersOk(g, StepPipe(g, l, p), seen) && LogOk(g, StepPipe(g, l, p), seen)
  {}

  lemma StartKeepsBlobs(g: Engine, w: World, files: seq<Text>, reply: SaveReply)
    requires BlobsOk(g, w) && MayStart(w, files)
    ensures BlobsOk(g, StepStart(g, w, files, reply))
  {}

  lemma ForeignRowsKeepBlobs(g: Engine, w: World, rows: seq<Row>)
    requires BlobsOk(g, w) && OfOthers(g, rows)
    ensures BlobsOk(g, w.(catalog := w.catalog + rows))
  {}

  /** The stores and what the live run has lost are as before. */
  ghost predicate SameStores(w: World, w': World) {
    && w'.blobs == w.blobs && w'.lost == w.lost && w'.catalog == w.catalog
    && (w.live.Some? && w.live.value.Working? && w'.live.Some? && w'.live.value.Working? ==>
          w'.live.value.gone == w.live.value.gone)
  }

  lemma OthersKeepStores(g: Engine, w: World, e: Event)
    requires Enabled(g, w, e)
    requires OutsideWork(e) || e.Record? || e.Answer? || e.Note? || e.ForeignJournals?
    ensures SameStores(w, Step(g, w, e))
  {}

  lemma BlobsFrame(g: Engine, w: World, w': World)
    requires BlobsOk(g, w) && SameWork(w, w') && SameStores(w, w')
    ensures BlobsOk(g, w')
  {}

  lemma OthersKeepBlobs(g: Engine, w: World, e: Event)
    requires BlobsOk(g, w) && Enabled(g, w, e)
    requires OutsideWork(e) || e.Record? || e.Answer? || e.Note? || e.ForeignJournals?
    ensures BlobsOk(g, Step(g, w, e))
  {
    OthersKeepWork(g, w, e);
    OthersKeepStores(g, w, e);
    BlobsFrame(g, w, Step(g, w, e));
  }

  lemma SurroundingsKeepBlobs(g: Engine, w: World, e: Event)
    requires BlobsOk(g, w) && Enabled(g, w, e)
    requires e.Start? || e.Lose? || e.ForeignBlobs? || e.ForeignRows?
    ensures BlobsOk(g, Step(g, w, e))
  {
    if e.Start? {
      StartKeepsBlobs(g, w, e.files, e.reply);
    } else if e.Lose? {
      BlobsLost(g, w, e.keys);
    } else if e.ForeignBlobs? {
      BlobsGrow(g, w, e.blobs);
    } else {
      ForeignRowsKeepBlobs(g, w, e.rows);
    }
  }

  lemma BlobsStep(g: Engine, w: World, e: Event)
    requires ValidEngine(g) && Injective(g.setup.sha)
    requires PoolOk(g, w) && CountersOk(w) && BlobsOk(g, w) && Enabled(g, w, e)
    ensures BlobsOk(g, Step(g, w, e))
  {
    if e.Work? {
      WorkKeepsBlobs(g, w, e.task, e.w);
    } else if e.Pipe? {
      PipeKeepsBlobs(g, w, e.p);
    } else if e.Land? {
      LandKeepsBlobs(g, w);
    } else if OutsideWork(e) || e.Record? || e.Answer? || e.Note? || e.ForeignJournals? {
      OthersKeepBlobs(g, w, e);
    } else {
      SurroundingsKeepBlobs(g, w, e);
    }
  }

  // ---------- the rows of each run ----------

  ghost predicate BatchesOf(source: Text, run: RunId, f: Facts) {
    forall i, j :: 0 <= i < |f.attempted| && 0 <= j < |f.attempted[i]| ==>
      f.attempted[i][j].source == source && f.attempted[i][j].run == run
  }

  /** A run has exactly the rows of its applied batches in the catalog, in order. */
  ghost predicate FactRows(source: Text, run: RunId, f: Facts, catalog: seq<Row>) {
    && BatchesOf(source, run, f)
    && f.applied <= |f.attempted|
    && RunRows(source, run, catalog) == Flatten(f.attempted[..f.applied])
  }

  /** No other run has any: a run that has not tried to store its first entry has no row. */
  ghost predicate RunRowsOk(g: Engine, w: World) {
    && (forall row :: row in w.catalog && row.source == g.setup.source ==> row.run in w.facts)
    && (forall r :: r in w.facts ==> FactRows(g.setup.source, r, w.facts[r], w.catalog))
  }

  lemma LandKeepsRunRows(g: Engine, w: World)
    requires RunRowsOk(g, w) && MayLand(w)
    ensures RunRowsOk(g, StepLand(w))
  {
    var run := w.live.value.run;
    LandedKeepsRunRows(g, w, StepLand(w), run, w.facts[run], w.facts[run].attempted[w.facts[run].applied]);
  }

  lemma LandedKeepsRunRows(g: Engine, w: World, w': World, run: RunId, f: Facts, batch: seq<Row>)
    requires RunRowsOk(g, w) && run in w.facts && f == w.facts[run]
    requires f.applied < |f.attempted| && batch == f.attempted[f.applied]
    requires w'.catalog == w.catalog + batch && w'.facts == w.facts[run := f.(applied := f.applied + 1)]
    ensures RunRowsOk(g, w')
  {
    var source := g.setup.source;
    assert FactRows(source, run, f, w.catalog);
    assert f.attempted[..f.applied + 1] == f.attempted[..f.applied] + [batch];
    forall r | r in w'.facts
      ensures FactRows(source, r, w'.facts[r], w'.catalog)
    {
      assert FactRows(source, r, w.facts[r], w.catalog);
      LandedRows(source, run, r, w.catalog, f.attempted[..f.applied], batch);
    }
    assert forall row :: row in batch ==> row.run == run;
  }

  /** Appending one batch of `run` extends the rows of `run` and of no other run. */
  lemma LandedRows(source: Text, run: RunId, r: RunId, catalog: seq<Row>, before: seq<seq<Row>>, batch: seq<Row>)
    requires forall j :: 0 <= j < |batch| ==> batch[j].source == source && batch[j].run == run
    ensures r != run ==> RunRows(source, r, catalog + batch) == RunRows(source, r, catalog)
    ensures r == run && RunRows(source, r, catalog) == Flatten(before) ==>
              RunRows(source, r, catalog + batch) == Flatten(before + [batch])
  {
    RunRowsConcat(source, r, catalog, batch);
    if r == run {
      RunRowsAll(source, run, batch);
      FlattenSnoc(before, batch);
    } else {
      RunRowsNone(source, r, batch);
    }
  }

  lemma RecordKeepsRunRows(g: Engine, w: World, reply: SaveReply)
    requires ValidEngine(g) && PoolOk(g, w) && CountersOk(w) && BlobsOk(g, w) && RunRowsOk(g, w)
    requires MayRecord(w)
    ensures RunRowsOk(g, StepRecord(g, w, reply))
  {
    var l := w.live.value;
    var batch := l.pipe.writer.batch;
    forall j | 0 <= j < |batch|
      ensures batch[j].source == g.setup.source && batch[j].run == l.run
    {
      BatchIsBacked(g, w, batch[j]);
    }
    AttemptKeepsRunRows(g, w, StepRecord(g, w, reply), l.run, batch);
  }

  lemma AttemptKeepsRunRows(g: Engine, w: World, w': World, run: RunId, batch: seq<Row>)
    requires RunRowsOk(g, w) && run in w.facts && run in w'.facts
    requires w'.facts[run].attempted == w.facts[run].attempted + [batch]
    requires w'.facts[run].applied == w.facts[run].applied
    requires w'.facts == w.facts[run := w'.facts[run]] && w'.catalog == w.catalog
    requires forall j :: 0 <= j < |batch| ==> batch[j].source == g.setup.source && batch[j].run == run
    ensures RunRowsOk(g, w')
  {
    var f := w.facts[run];
    assert FactRows(g.setup.source, run, f, w.catalog);
    assert w'.facts[run].attempted[..f.applied] == f.attempted[..f.applied];
  }

  lemma ForeignRowsKeepRunRows(g: Engine, w: World, rows: seq<Row>)
    requires RunRowsOk(g, w) && OfOthers(g, rows)
    ensures RunRowsOk(g, w.(catalog := w.catalog + rows))
  {
    forall r | r in w.facts
      ensures FactRows(g.setup.source, r, w.facts[r], w.catalog + rows)
    {
      RunRowsConcat(g.setup.source, r, w.catalog, rows);
      RunRowsNone(g.setup.source, r, rows);
    }
  }

  lemma StartKeepsRunRows(g: Engine, w: World, files: seq<Text>, reply: SaveReply)
    requires CountersOk(w) && RunRowsOk(g, w) && MayStart(w, files)
    ensures RunRowsOk(g, StepStart(g, w, files, reply))
  {
    var run := w.live.value.run;
    RunRowsNone(g.setup.source, run, w.catalog);
    assert Flatten<Row>([]) == [];
  }

  lemma NoteKeepsRunRows(g: Engine, w: World, reply: SaveReply)
    requires RunRowsOk(g, w) && MayNote(w)
    ensures RunRowsOk(g, StepNote(g, w, reply))
  {
    RememberingKeepsRunRows(g, w, StepNote(g, w, reply), w.live.value.run);
  }

  lemma TerminateKeepsRunRows(g: Engine, w: World, reply: SaveReply)
    requires RunRowsOk(g, w) && MayTerminate(w)
    ensures RunRowsOk(g, StepTerminate(g, w, reply))
  {
    RememberingKeepsRunRows(g, w, StepTerminate(g, w, reply), w.live.value.run);
  }

  /** New entries in a run's memory, with the same batches, keep its rows. */
  lemma RememberingKeepsRunRows(g: Engine, w: World, w': World, run: RunId)
    requires RunRowsOk(g, w) && run in w.facts && run in w'.facts
    requires w'.facts[run].attempted == w.facts[run].attempted && w'.facts[run].applied == w.facts[run].applied
    requires w'.facts == w.facts[run := w'.facts[run]] && w'.catalog == w.catalog
    ensures RunRowsOk(g, w')
  {
    assert FactRows(g.setup.source, run, w.facts[run], w.catalog);
  }

  lemma OthersKeepRunRows(g: Engine, w: World, e: Event)
    requires RunRowsOk(g, w) && Enabled(g, w, e)
    requires !e.Land? && !e.Record? && !e.ForeignRows? && !e.Start? && !e.Note? && !e.Terminate?
    ensures RunRowsOk(g, Step(g, w, e))
  {
    var w' := Step(g, w, e);
    assert w'.catalog == w.catalog && w'.facts == w.facts;
  }

  lemma RunRowsStep(g: Engine, w: World, e: Event)
    requires ValidEngine(g) && PoolOk(g, w) && CountersOk(w) && BlobsOk(g, w) && RunRowsOk(g, w) && Enabled(g, w, e)
    ensures RunRowsOk(g, Step(g, w, e))
  {
    if e.Land? {
      LandKeepsRunRows(g, w);
    } else if e.Record? {
      RecordKeepsRunRows(g, w, e.reply);
    } else if e.ForeignRows? {
      ForeignRowsKeepRunRows(g, w, e.rows);
    } else if e.Start? {
      StartKeepsRunRows(g, w, e.files, e.reply);
    } else if e.Note? {
      NoteKeepsRunRows(g, w, e.reply);
    } else if e.Terminate? {
      TerminateKeepsRunRows(g, w, e.reply);
    } else {
      OthersKeepRunRows(g, w, e);
    }
  }

  // ---------- the combined invariant ----------

  ghost predicate Safe(g: Engine, w: World) {
    PoolOk(g, w) && CountersOk(w) && BlobsOk(g, w) && RunRowsOk(g, w)
  }

  lemma SafeStep(g: Engine, w: World, e: Event)
    requires ValidEngine(g) && Injective(g.setup.sha) && Safe(g, w) && Enabled(g, w, e)
    ensures Safe(g, Step(g, w, e))
  {
    PoolStep(g, w, e);
    CountersStep(g, w, e);
    BlobsStep(g, w, e);
    RunRowsStep(g, w, e);
  }

  lemma {:induction false} SafeRun(g: Engine, w: World, es: seq<Event>)
    requires ValidEngine(g) && Injective(g.setup.sha) && Safe(g, w) && ValidRun(g, w, es)
    ensures Safe(g, Exec(g, w, es))
    decreases es
  {
    if es != [] {
      SafeStep(g, w, es[0]);
      SafeRun(g, Step(g, w, es[0]), es[1..]);
    }
  }

  /** Rows a live run has produced and not yet handed over, plus everything in the catalog. */
  ghost predicate RowExists(g: Engine, w: World, row: Row) {
    || (row in w.catalog && row.source == g.setup.source)
    || (w.live.Some? && w.live.value.Working?
        && row in P.Held(w.live.value.pipe) + w.live.value.pipe.channel + P.Batch(w.live.value.pipe.writer))
  }

  /** The blob of a row is in the store, or it has been lost; nothing else can be in its place. */
  ghost predicate BackedUntilLost(g: Engine, w: World, row: Row) {
    if ObjectKey(row.hash) in w.blobs then Backed(g.setup, w.blobs, row) else ObjectKey(row.hash) in w.lost
  }

  lemma ExistingRowIsBacked(g: Engine, w: World, row: Row)
    requires ValidEngine(g) && PoolOk(g, w) && BlobsOk(g, w) && RowExists(g, w, row)
    ensures BackedUntilLost(g, w, row) && Derived(g.setup, row)
  {
    if !(row in w.catalog && row.source == g.setup.source) {
      BatchIsBacked(g, w, row);
      assert RunSeen(w, w.live.value) <= EverSeen(w);
    }
    VouchedIsStored(g.setup.sha, w.blobs, EverSeen(w), row.hash, row.size);
  }

  /**
   * Blobs before rows, in every state of every run, crashes included: a row that exists anywhere
   * has an object under its key with exactly the recorded digest and length, unless the store has
   * lost it, and its identifier and address derive from that digest.
   */
  lemma BlobsBeforeRows(g: Engine, w: World, es: seq<Event>, row: Row)
    requires ValidEngine(g) && Injective(g.setup.sha) && Safe(g, w) && ValidRun(g, w, es)
    requires RowExists(g, Exec(g, w, es), row)
    ensures BackedUntilLost(g, Exec(g, w, es), row) && Derived(g.setup, row)
  {
    SafeRun(g, w, es);
    ExistingRowIsBacked(g, Exec(g, w, es), row);
  }

  /** What the store has ever lost is lost by some event of the run. */
  lemma {:induction false} LossesAreEvents(g: Engine, w: World, es: seq<Event>)
    requires ValidRun(g, w, es) && forall i :: 0 <= i < |es| ==> !es[i].Lose?
    ensures Exec(g, w, es).lost == w.lost
    decreases es
  {
    if es != [] {
      LossesAreEvents(g, Step(g, w, es[0]), es[1..]);
    }
  }

  /** Over a run in which the store loses nothing, every row is backed outright. */
  lemma BlobsBeforeRowsWithoutLoss(g: Engine, w: World, es: seq<Event>, row: Row)
    requires ValidEngine(g) && Injective(g.setup.sha) && Safe(g, w) && ValidRun(g, w, es)
    requires w.lost == {} && forall i :: 0 <= i < |es| ==> !es[i].Lose?
    requires RowExists(g, Exec(g, w, es), row)
    ensures Backed(g.setup, Exec(g, w, es).blobs, row)
  {
    LossesAreEvents(g, w, es);
    BlobsBeforeRows(g, w, es, row);
  }
}
