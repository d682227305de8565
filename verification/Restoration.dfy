/**
 * Blobs that the store lost. A run that completes has put back what its candidates need, a path
 * that did not change gets no row for it, and the run's byte count does not show it.
 */
module Restoration {
  import opened Domain
  import opened Seqs
  import opened Identity
  import opened CatalogState
  import opened Process
  import opened World
  import opened BlobSafety
  import opened RunFacts
  import opened Safety
  import opened Recovery
  import opened Runs
  import P = Pipeline

  // ---------- what a completed run has put back ----------

  /** The content a completed run saw at one candidate: known before and unchanged, or in a row of the run. */
  ghost predicate SawContent(g: Engine, w: World, path: Text, hash: Text)
    requires w.live.Some? && w.live.value.Working?
  {
    var l := w.live.value;
    || (path in l.loaded && l.loaded[path].hash == hash)
    || (exists row :: row in RunRows(g.setup.source, l.run, w.catalog) && row.path == path && row.hash == hash)
  }

  ghost predicate CompletedWork(w: World) {
    && w.live.Some? && w.live.value.Working? && P.Final(w.live.value.pipe)
    && TerminalOf(w.live.value.pipe).Completed?
  }

  /**
   * When a run completes, the blob of every candidate is in the store, with content that hashes to
   * what the run saw, unless the store has lost it since the run started working.
   */
  lemma CompletedCandidateIsBacked(g: Engine, w: World, i: nat) returns (hash: Text)
    requires ValidEngine(g) && Safe(g, w) && CompletedWork(w) && i < |w.live.value.files|
    ensures SawContent(g, w, w.live.value.files[i], hash)
    ensures ObjectKey(hash) in w.blobs || ObjectKey(hash) in w.live.value.gone
    ensures ObjectKey(hash) in w.blobs ==> g.setup.sha(w.blobs[ObjectKey(hash)].bytes) == hash
  {
    var l := w.live.value;
    var result := ResultOfCandidate(g, w, i);
    if result.Observed? {
      hash := result.row.hash;
      assert FactRows(g.setup.source, l.run, w.facts[l.run], w.catalog);
    } else {
      hash := l.loaded[l.files[i]].hash;
    }
    if ObjectKey(hash) in w.blobs {
      ObjectKeyInjective(hash, g.setup.sha(w.blobs[ObjectKey(hash)].bytes));
    }
  }

  /** Every candidate of a completed run was joined, without an error, and an observed row has landed. */
  lemma ResultOfCandidate(g: Engine, w: World, i: nat) returns (result: WorkerResult)
    requires ValidEngine(g) && PoolOk(g, w) && CountersOk(w) && BlobsOk(g, w) && CompletedWork(w)
    requires i < |w.live.value.files|
    ensures var l, f := w.live.value, w.facts[w.live.value.run];
            && ResultOk(g.setup, l.run, l.files[i], l.loaded, RunSeen(w, l), result)
            && (exists k :: 0 <= k < |l.pipe.log| && l.pipe.log[k] == P.Joined(i, result))
            && (result.Observed? || result.Unchanged?)
            && f.applied <= |f.attempted|
            && (result.Observed? ==> result.row in Flatten(f.attempted[..f.applied]))
  {
    CompletedRun(g, w);
    var k := JoinedAt(w.live.value.pipe.log, i);
    result := w.live.value.pipe.log[k].result;
    LoggedResultOk(g, w, k);
  }

  lemma JoinedAt(log: seq<P.Joined>, i: nat) returns (k: nat)
    requires P.Count(log, P.IsError) == 0 && P.InLog(log, i)
    ensures k < |log| && log[k] == P.Joined(i, log[k].result)
    ensures log[k].result.Observed? || log[k].result.Unchanged?
    ensures log[k].result.Observed? ==> log[k].result.row in P.Rows(log)
  {
    k :| 0 <= k < |log| && log[k].task == i;
    NoErrors(log, k);
    if log[k].result.Observed? {
      ObservedIsARow(log, k);
    }
  }

  lemma LoggedResultOk(g: Engine, w: World, k: nat)
    requires BlobsOk(g, w) && w.live.Some? && w.live.value.Working? && k < |w.live.value.pipe.log|
    ensures var l := w.live.value;
            var j := l.pipe.log[k];
            && j.task < |l.files|
            && ResultOk(g.setup, l.run, l.files[j.task], l.loaded, RunSeen(w, l), j.result)
  {}

  /**
   * For a tree that does not change: when a run completes, the catalog state of every candidate is
   * the tree's, and the store holds the file's bytes again, whatever had been lost before, unless
   * they were lost since the run started working.
   */
  lemma CompletedRunRestoresTheTree(g: Engine, tree: Tree, w: World, es: seq<Event>, i: nat)
    requires ValidEngine(g) && Injective(g.setup.sha) && Reachable(g, w) && w.live.None?
    requires ValidRun(g, w, es) && FaithfulRun(g, tree, w, es)
    requires CompletedWork(Exec(g, w, es)) && i < |Exec(g, w, es).live.value.files|
    ensures var w' := Exec(g, w, es);
            var p := w'.live.value.files[i];
            && Matches(g, tree, Latest(SourceRows(g.setup.source, w'.catalog)), p)
            && (HoldsBytes(g, w', tree[p]) || ObjectKey(g.setup.sha(tree[p])) in w'.live.value.gone)
  {
    ReachableIsSound(g, w);
    var base := SourceRows(g.setup.source, w.catalog);
    FreshStart(g, tree, w);
    RecoveryRun(g, tree, base, w, es);
    SafeRun(g, w, es);
    CompletedFileMatches(g, tree, base, Exec(g, w, es), i);
    CompletedFileIsStored(g, tree, base, Exec(g, w, es), i);
  }

  ghost predicate HoldsBytes(g: Engine, w: World, bytes: Bytes) {
    ObjectKey(g.setup.sha(bytes)) in w.blobs && w.blobs[ObjectKey(g.setup.sha(bytes))].bytes == bytes
  }

  lemma CompletedFileIsStored(g: Engine, tree: Tree, base: seq<Row>, w: World, i: nat)
    requires ValidEngine(g) && Injective(g.setup.sha)
    requires PoolOk(g, w) && CountersOk(w) && BlobsOk(g, w) && RecoveryOk(g, tree, base, w)
    requires CompletedWork(w) && i < |w.live.value.files| && w.live.value.files[i] in tree
    ensures var bytes := tree[w.live.value.files[i]];
            HoldsBytes(g, w, bytes) || ObjectKey(g.setup.sha(bytes)) in w.live.value.gone
  {
    var l := w.live.value;
    var prior := SourceRows(g.setup.source, w.catalog)[..l.known];
    var result := ResultOfCandidate(g, w, i);
    assert WorkFits(g, tree, prior, l);
    ResultIsSeen(g, tree, prior, l, i, result, RunSeen(w, l));
    if ObjectKey(g.setup.sha(tree[l.files[i]])) in w.blobs {
      StoredIsTheContent(g, w, tree[l.files[i]]);
    }
  }

  /** What a run found at a candidate is what the tree holds, and its key has been in the store. */
  lemma ResultIsSeen(
      g: Engine, tree: Tree, prior: seq<Row>, l: Live, i: nat, result: WorkerResult, seen: set<Text>)
    requires l.Working? && i < |l.files| && l.files[i] in tree
    requires result.Observed? || result.Unchanged?
    requires ResultOk(g.setup, l.run, l.files[i], l.loaded, seen, result)
    requires ResultFits(g, tree, l.loaded, prior, l.files[i], result)
    ensures ObjectKey(g.setup.sha(tree[l.files[i]])) in seen
  {}

  lemma StoredIsTheContent(g: Engine, w: World, bytes: Bytes)
    requires Injective(g.setup.sha) && BlobsOk(g, w) && ObjectKey(g.setup.sha(bytes)) in w.blobs
    ensures HoldsBytes(g, w, bytes)
  {
    var key := ObjectKey(g.setup.sha(bytes));
    ObjectKeyInjective(g.setup.sha(bytes), g.setup.sha(w.blobs[key].bytes));
  }

  // ---------- no row for a restored path ----------

  /** The rows of the live run in the catalog are rows its workers handed over. */
  lemma LandedRowsAreLogged(g: Engine, w: World, row: Row)
    requires ValidEngine(g) && PoolOk(g, w) && CountersOk(w) && RunRowsOk(g, w)
    requires w.live.Some? && w.live.value.Working?
    requires row in RunRows(g.setup.source, w.live.value.run, w.catalog)
    ensures row in P.Rows(w.live.value.pipe.log)
  {
    var l, f := w.live.value, w.facts[w.live.value.run];
    assert FactRows(g.setup.source, l.run, f, w.catalog);
    AppliedIsSent(l, f);
    SentIsLogged(g, l, row);
  }

  /** What has landed of a live run is its acknowledged batches, perhaps with the one the writer holds. */
  lemma AppliedIsSent(l: Live, f: Facts)
    requires l.Working? && FactsOk(f) && InStep(l, f)
    ensures forall row :: row in Flatten(f.attempted[..f.applied]) ==>
              row in Flatten(l.pipe.batches) + P.Batch(l.pipe.writer)
  {
    if f.attempted[..f.applied] != l.pipe.batches {
      FlattenSnoc(l.pipe.batches, P.Batch(l.pipe.writer));
      assert f.attempted[..f.applied] == l.pipe.batches + [P.Batch(l.pipe.writer)];
    }
  }

  lemma SentIsLogged(g: Engine, l: Live, row: Row)
    requires ValidEngine(g) && l.Working? && P.Inv(g.pool, l.pipe)
    requires row in Flatten(l.pipe.batches) + P.Batch(l.pipe.writer)
    ensures row in P.Rows(l.pipe.log)
  {
    assert row in l.pipe.sent;
  }

  /**
   * A path that a run found unchanged, whether or not its blob had to be restored, gets no row from
   * that run: not in the catalog, and not on the way there.
   */
  lemma UnchangedPathGetsNoRow(g: Engine, w: World, k: nat, row: Row)
    requires ValidEngine(g) && Safe(g, w) && w.live.Some? && w.live.value.Working?
    requires k < |w.live.value.pipe.log| && w.live.value.pipe.log[k].result.Unchanged?
    requires row in RunRows(g.setup.source, w.live.value.run, w.catalog)
             || row in P.Held(w.live.value.pipe) + w.live.value.pipe.channel + P.Batch(w.live.value.pipe.writer)
    ensures row.path != w.live.value.files[w.live.value.pipe.log[k].task]
  {
    var l := w.live.value;
    if row in RunRows(g.setup.source, l.run, w.catalog) {
      LandedRowsAreLogged(g, w, row);
    } else {
      WaitingIsLogged(g, l, row);
    }
    RowsAreLogged(l.pipe.log, row);
    var j :| 0 <= j < |l.pipe.log| && l.pipe.log[j].result.Observed? && l.pipe.log[j].result.row == row;
    LoggedResultOk(g, w, j);
    OneJoinPerPath(g, w, j, k);
  }

  lemma WaitingIsLogged(g: Engine, l: Live, row: Row)
    requires ValidEngine(g) && l.Working? && P.Inv(g.pool, l.pipe)
    requires row in P.Held(l.pipe) + l.pipe.channel + P.Batch(l.pipe.writer)
    ensures row in P.Rows(l.pipe.log)
  {
    if row !in P.Held(l.pipe) {
      assert row in l.pipe.sent;
    }
  }

  lemma OneJoinPerPath(g: Engine, w: World, j: nat, k: nat)
    requires PoolOk(g, w) && w.live.Some? && w.live.value.Working?
    requires j < |w.live.value.pipe.log| && k < |w.live.value.pipe.log| && j != k
    ensures var l := w.live.value;
            && l.pipe.log[j].task < |l.files| && l.pipe.log[k].task < |l.files|
            && l.files[l.pipe.log[j].task] != l.files[l.pipe.log[k].task]
  {
    var l := w.live.value;
    assert l.pipe.log[j].task != l.pipe.log[k].task;
  }
}
