/**
 * Blobs before rows: the blob of a row that exists anywhere was stored before, and is still there
 * unless the store has lost it.
 */
module BlobSafety {
  import opened Domain
  import opened Seqs
  import opened Upload
  import opened Journal
  import opened Process
  import opened World
  import P = Pipeline

  // ---------- the pipeline inside the engine ----------

  ghost predicate PoolOk(g: Engine, w: World) {
    w.live.Some? && w.live.value.Working? ==>
      var l := w.live.value;
      && P.Inv(g.pool, l.pipe)
      && l.pipe.total == |l.files| > 0
      && Distinct(l.files)
      && l.workers.Keys == l.pipe.inflight
  }

  lemma PipeKeepsPool(g: Engine, l: Live, p: P.Event)
    requires ValidEngine(g) && l.Working? && PipeEnabled(g, l, p)
    requires P.Inv(g.pool, l.pipe) && l.pipe.total == |l.files| && l.workers.Keys == l.pipe.inflight
    ensures var l' := StepPipe(g, l, p);
            P.Inv(g.pool, l'.pipe) && l'.pipe.total == |l.files| && l'.workers.Keys == l'.pipe.inflight
  {
    P.StepInv(g.pool, l.pipe, p);
  }

  lemma WorkKeepsPool(g: Engine, w: World, t: nat, we: WorkerEvent)
    requires PoolOk(g, w) && MayWork(w, t, we)
    ensures PoolOk(g, StepWork(g, w, t, we))
  {
    assert w.live.value.workers.Keys + {t} == w.live.value.workers.Keys;
  }

  lemma StartKeepsPool(g: Engine, w: World, files: seq<Text>, reply: SaveReply)
    requires ValidEngine(g) && MayStart(w, files)
    ensures PoolOk(g, StepStart(g, w, files, reply))
  {
    P.InitInv(g.pool, |files|);
  }

  /** Every other step leaves the pipeline and what its workers know alone. */
  ghost predicate SameWork(w: World, w': World) {
    w'.live.Some? && w'.live.value.Working? ==>
      && w.live.Some? && w.live.value.Working?
      && var l, l' := w.live.value, w'.live.value;
         && l'.run == l.run && l'.loaded == l.loaded && l'.known == l.known && l'.files == l.files
         && l'.pipe == l.pipe && l'.workers == l.workers
         && l'.uploads == l.uploads && l'.stored == l.stored && l'.ambiguous == l.ambiguous && l'.added == l.added
  }

  /** A step of a pass, the end of the work, and a crash. */
  predicate OutsideWork(e: Event) {
    e.Begin? || e.Reconcile? || e.Terminate? || e.Supersede? || e.Finish? || e.Crash?
  }

  lemma NoWorkOutside(g: Engine, w: World, e: Event)
    requires Enabled(g, w, e) && OutsideWork(e)
    ensures !(Step(g, w, e).live.Some? && Step(g, w, e).live.value.Working?)
  {}

  lemma AnswersKeepWork(g: Engine, w: World, e: Event)
    requires Enabled(g, w, e) && (e.Record? || e.Land? || e.Answer? || e.Note?)
    ensures SameWork(w, Step(g, w, e))
  {}

  lemma LoseKeepsWork(w: World, keys: set<Text>)
    ensures SameWork(w, LoseBlobs(w, keys))
  {}

  lemma ForeignersKeepWork(g: Engine, w: World, e: Event)
    requires Enabled(g, w, e) && (e.ForeignBlobs? || e.ForeignRows? || e.ForeignJournals?)
    ensures SameWork(w, Step(g, w, e))
  {
    assert Step(g, w, e).live == w.live;
  }

  lemma OthersKeepWork(g: Engine, w: World, e: Event)
    requires Enabled(g, w, e) && !e.Start? && !e.Pipe? && !e.Work?
    ensures SameWork(w, Step(g, w, e))
  {
    if OutsideWork(e) {
      NoWorkOutside(g, w, e);
    } else if e.Record? || e.Land? || e.Answer? || e.Note? {
      AnswersKeepWork(g, w, e);
    } else if e.Lose? {
      LoseKeepsWork(w, e.keys);
    } else {
      ForeignersKeepWork(g, w, e);
    }
  }

  lemma PoolStep(g: Engine, w: World, e: Event)
    requires ValidEngine(g) && PoolOk(g, w) && Enabled(g, w, e)
    ensures PoolOk(g, Step(g, w, e))
  {
    if e.Start? {
      StartKeepsPool(g, w, e.files, e.reply);
    } else if e.Pipe? {
      PipeKeepsPool(g, w.live.value, e.p);
    } else if e.Work? {
      WorkKeepsPool(g, w, e.task, e.w);
    } else {
      OthersKeepWork(g, w, e);
    }
  }

  // ---------- blobs ----------

  /** Keys that are in the store or have been lost from it: since the first world, or since the run started working. */
  function EverSeen(w: World): set<Text> {
    w.blobs.Keys + w.lost
  }

  function RunSeen(w: World, l: Live): set<Text>
    requires l.Working?
  {
    w.blobs.Keys + l.gone
  }

  ghost predicate CatalogBacked(g: Engine, w: World) {
    forall row :: row in w.catalog && row.source == g.setup.source ==>
      Vouched(g.setup.sha, EverSeen(w), row.hash, row.size) && Derived(g.setup, row)
  }

  ghost predicate WorkersOk(g: Engine, l: Live, seen: set<Text>)
    requires l.Working?
  {
    forall t :: t in l.workers ==> t < |l.files| && WorkerOk(g.setup, l.run, l.files[t], l.loaded, seen, l.workers[t])
  }

  ghost predicate LogOk(g: Engine, l: Live, seen: set<Text>)
    requires l.Working?
  {
    forall k :: 0 <= k < |l.pipe.log| ==>
      && l.pipe.log[k].task < |l.files|
      && ResultOk(g.setup, l.run, l.files[l.pipe.log[k].task], l.loaded, seen, l.pipe.log[k].result)
  }

  ghost predicate BlobsOk(g: Engine, w: World) {
    && Cas(g.setup.sha, w.blobs)
    && CatalogBacked(g, w)
    && (w.live.Some? && w.live.value.Working? ==>
          var l := w.live.value;
          && l.gone <= w.lost
          && WorkersOk(g, l, RunSeen(w, l)) && LogOk(g, l, RunSeen(w, l)))
  }

  /** Every row the pipeline has seen came out of a joined worker. */
  lemma {:induction false} RowsAreLogged(log: seq<P.Joined>, row: Row)
    requires row in P.Rows(log)
    ensures exists k :: 0 <= k < |log| && log[k].result.Observed? && log[k].result.row == row
  {
    var n := |log| - 1;
    if log[n].result.Observed? && log[n].result.row == row {
    } else {
      RowsAreLogged(log[..n], row);
      var k :| 0 <= k < n && log[..n][k].result.Observed? && log[..n][k].result.row == row;
      assert log[k].result.row == row;
    }
  }

  /** The rows of the batch being committed are logged. */
  lemma BatchIsLogged(g: Engine, l: Live, row: Row)
    requires ValidEngine(g) && l.Working? && P.Inv(g.pool, l.pipe)
    requires row in P.Held(l.pipe) + l.pipe.channel + P.Batch(l.pipe.writer)
    ensures exists k :: 0 <= k < |l.pipe.log| && l.pipe.log[k].result.Observed? && l.pipe.log[k].result.row == row
  {
    assert row in P.Rows(l.pipe.log);
    RowsAreLogged(l.pipe.log, row);
  }

  lemma BatchIsBacked(g: Engine, w: World, row: Row)
    requires ValidEngine(g) && PoolOk(g, w) && BlobsOk(g, w) && w.live.Some? && w.live.value.Working?
    requires var l := w.live.value;
             row in P.Held(l.pipe) + l.pipe.channel + P.Batch(l.pipe.writer)
    ensures Vouched(g.setup.sha, RunSeen(w, w.live.value), row.hash, row.size) && Derived(g.setup, row)
    ensures row.source == g.setup.source && row.run == w.live.value.run
  {
    BatchIsLogged(g, w.live.value, row);
  }

  /** What is known about workers and outcomes survives as long as no key is forgotten. */
  lemma SeenGrows(g: Engine, l: Live, before: set<Text>, after: set<Text>)
    requires l.Working? && WorkersOk(g, l, before) && LogOk(g, l, before) && before <= after
    ensures WorkersOk(g, l, after) && LogOk(g, l, after)
  {
    forall t | t in l.workers
      ensures WorkerOk(g.setup, l.run, l.files[t], l.loaded, after, l.workers[t])
    {
      WorkerIsStable(g.setup, l.run, l.files[t], l.loaded, before, after, l.workers[t]);
    }
  }

  /** A store that only grows by the protocol keeps every old promise. */
  lemma BlobsGrow(g: Engine, w: World, blobs: Blobs)
    requires BlobsOk(g, w) && Protocol(g.setup.sha, w.blobs, blobs)
    ensures BlobsOk(g, w.(blobs := blobs))
  {
    ProtocolKeepsCas(g.setup.sha, w.blobs, blobs);
    assert w.blobs.Keys <= blobs.Keys;
    if w.live.Some? && w.live.value.Working? {
      var l := w.live.value;
      SeenGrows(g, l, RunSeen(w, l), blobs.Keys + l.gone);
    }
  }

  /** A store that loses objects keeps them too: nothing that was seen is forgotten. */
  lemma BlobsLost(g: Engine, w: World, keys: set<Text>)
    requires BlobsOk(g, w)
    ensures BlobsOk(g, LoseBlobs(w, keys))
  {
    var w' := LoseBlobs(w, keys);
    assert EverSeen(w) <= EverSeen(w');
    if w.live.Some? && w.live.value.Working? {
      var l := w.live.value;
      SeenGrows(g, l, RunSeen(w, l), RunSeen(w', w'.live.value));
    }
  }

  /** One worker takes a step: the others keep their promises, and so does everything that is stored. */
  lemma WorkerReplaced(g: Engine, w: World, w': World, t: nat, wk: Worker)
    requires BlobsOk(g, w) && Protocol(g.setup.sha, w.blobs, w'.blobs)
    requires w.live.Some? && w.live.value.Working? && t in w.live.value.workers && t < |w.live.value.files|
    requires w'.live.Some? && w'.live.value.Working? && w'.catalog == w.catalog && w'.lost == w.lost
    requires w'.live.value.workers == w.live.value.workers[t := wk] && w'.live.value.gone == w.live.value.gone
    requires w'.live.value.files == w.live.value.files && w'.live.value.pipe == w.live.value.pipe
    requires w'.live.value.run == w.live.value.run && w'.live.value.loaded == w.live.value.loaded
    requires var l := w.live.value;
             WorkerOk(g.setup, l.run, l.files[t], l.loaded, RunSeen(w', w'.live.value), wk)
    ensures BlobsOk(g, w')
  {
    BlobsGrow(g, w, w'.blobs);
    var l, l' := w.live.value, w'.live.value;
    assert RunSeen(w.(blobs := w'.blobs), l) == RunSeen(w', l');
    assert EverSeen(w.(blobs := w'.blobs)) == EverSeen(w');
  }

  lemma WorkKeepsBlobs(g: Engine, w: World, t: nat, we: WorkerEvent)
    requires ValidEngine(g) && Injective(g.setup.sha) && PoolOk(g, w) && BlobsOk(g, w)
    requires MayWork(w, t, we)
    ensures BlobsOk(g, StepWork(g, w, t, we))
    ensures Protocol(g.setup.sha, w.blobs, StepWork(g, w, t, we).blobs)
  {
    var l := w.live.value;
    var w' := StepWork(g, w, t, we);
    WorkerStepOk(g.setup, l.run, l.files[t], l.loaded, w.blobs, RunSeen(w, l), l.workers[t], we);
    StepWorkFrame(g, w, t, we);
    assert RunSeen(w, l) + w'.blobs.Keys == RunSeen(w', w'.live.value);
    WorkerReplaced(g, w, w', t, w'.live.value.workers[t]);
  }

  lemma StepWorkFrame(g: Engine, w: World, t: nat, we: WorkerEvent)
    requires MayWork(w, t, we)
    ensures var w' := StepWork(g, w, t, we);
            && w' == StepWork(g, w, t, we) && w'.catalog == w.catalog && w'.lost == w.lost
            && w'.live.Some? && w'.live.value.Working? && t in w'.live.value.workers
            && w'.live.value.workers == w.live.value.workers[t := w'.live.value.workers[t]]
            && w'.live.value.gone == w.live.value.gone && w'.live.value.files == w.live.value.files
            && w'.live.value.pipe == w.live.value.pipe && w'.live.value.run == w.live.value.run
            && w'.live.value.loaded == w.live.value.loaded
  {}
}
