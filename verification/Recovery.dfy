/**
 * Recovery converges and never duplicates. For a source tree that does not change, over any
 * sequence of runs that end by crash, by a failed commit (applied or not) or by completion, each
 * path gets at most one row, and a completed run leaves the catalog state equal to the tree.
 */
module Recovery {
  import opened Domain
  import opened Seqs
  import opened CatalogState
  import Journal
  import Upload
  import opened Process
  import opened World
  import opened BlobSafety
  import opened RunFacts
  import opened Safety
  import P = Pipeline

  type Tree = map<Text, Bytes>

  /** The state records content `hash` for `path`: the path needs no row. */
  ghost predicate Knows(state: CurrentState, path: Text, hash: Text) {
    path in state && state[path].hash == hash
  }

  /** The state records what the tree holds at `path`. */
  ghost predicate Matches(g: Engine, tree: Tree, state: CurrentState, path: Text) {
    path in tree && Knows(state, path, g.setup.sha(tree[path]))
  }

  // ---------- assumptions ----------

  /**
   * The tree is fixed: a scan reads what the tree holds, and candidates are files of the tree.
   * Clocks advance between runs: an observation is later than every row that was loaded at the
   * start of its run.
   */
  ghost predicate Faithful(g: Engine, tree: Tree, w: World, e: Event)
    requires Enabled(g, w, e)
  {
    match e
    case Start(files, _) => forall i :: 0 <= i < |files| ==> files[i] in tree
    case Work(t, Scan(Some(snap))) =>
      var l := w.live.value;
      && l.files[t] in tree && snap.bytes == tree[l.files[t]]
      && forall i :: 0 <= i < l.known && i < |SourceRows(g.setup.source, w.catalog)| ==>
           SourceRows(g.setup.source, w.catalog)[i].at < snap.now
    case _ => true
  }

  ghost predicate FaithfulRun(g: Engine, tree: Tree, w: World, es: seq<Event>)
    requires ValidRun(g, w, es)
    decreases es
  {
    es == [] || (Faithful(g, tree, w, es[0]) && FaithfulRun(g, tree, Step(g, w, es[0]), es[1..]))
  }

  // ---------- what new rows look like ----------

  /** Rows appended since `base`: the tree's content, one per path, later, and only where needed. */
  ghost predicate NewsOk(g: Engine, tree: Tree, base: seq<Row>, news: seq<Row>) {
    && (forall i :: 0 <= i < |news| ==> news[i].path in tree && news[i].hash == g.setup.sha(tree[news[i].path]))
    && (forall i, j :: 0 <= i < j < |news| ==> news[i].path != news[j].path)
    && (forall i, j :: 0 <= i < |base| && 0 <= j < |news| && base[i].path == news[j].path ==> base[i].at < news[j].at)
    && (forall i :: 0 <= i < |news| ==> !Knows(Latest(base), news[i].path, news[i].hash))
  }

  ghost predicate HasPath(rows: seq<Row>, path: Text) {
    exists i :: 0 <= i < |rows| && rows[i].path == path
  }

  /** A path matches after the news exactly if it has news or matched before. */
  lemma NewsMatch(g: Engine, tree: Tree, base: seq<Row>, news: seq<Row>, path: Text)
    requires NewsOk(g, tree, base, news)
    ensures Latest(base + news) == Latest(base) + Latest(news)
    ensures Matches(g, tree, Latest(base + news), path) <==> HasPath(news, path) || Matches(g, tree, Latest(base), path)
  {
    LaterRowsOverride(base, news);
    LatestAt(news, path);
    if path in Latest(news) {
      var i :| FirstMaximum(news, path, i) && Latest(news)[path] == KnownPath(news[i].hash, news[i].at);
      assert news[i].path == path;
    }
  }

  lemma NewsPrefix(g: Engine, tree: Tree, base: seq<Row>, news: seq<Row>, n: nat)
    requires NewsOk(g, tree, base, news) && n <= |news|
    ensures NewsOk(g, tree, base, news[..n])
  {}

  /** More news never undoes a match. */
  lemma MatchGrows(g: Engine, tree: Tree, base: seq<Row>, news: seq<Row>, more: seq<Row>, path: Text)
    requires NewsOk(g, tree, base, news + more) && Matches(g, tree, Latest(base + news), path)
    ensures Matches(g, tree, Latest(base + (news + more)), path)
  {
    var all := news + more;
    assert all[..|news|] == news;
    NewsPrefix(g, tree, base, all, |news|);
    NewsMatch(g, tree, base, news, path);
    NewsMatch(g, tree, base, all, path);
    if HasPath(news, path) {
      var i :| 0 <= i < |news| && news[i].path == path;
      assert all[i].path == path;
    }
  }

  /** A row a run may still append: the tree's content, unknown when the run started, later than what it loaded. */
  ghost predicate RowFits(g: Engine, tree: Tree, loaded: CurrentState, prior: seq<Row>, path: Text, row: Row) {
    && row.path == path && path in tree && row.hash == g.setup.sha(tree[path])
    && !Knows(loaded, path, row.hash)
    && (forall i :: 0 <= i < |prior| ==> prior[i].at < row.at)
  }

  ghost predicate InfoFits(g: Engine, tree: Tree, prior: seq<Row>, path: Text, info: Row) {
    && info.path == path && path in tree && info.hash == g.setup.sha(tree[path])
    && (forall i :: 0 <= i < |prior| ==> prior[i].at < info.at)
  }

  ghost predicate ResultFits(
      g: Engine, tree: Tree, loaded: CurrentState, prior: seq<Row>, path: Text, r: WorkerResult)
  {
    match r
    case Observed(row, _) => RowFits(g, tree, loaded, prior, path, row)
    case Unchanged(_) => Matches(g, tree, loaded, path)
    case _ => true
  }

  ghost predicate WorkerFits(g: Engine, tree: Tree, loaded: CurrentState, prior: seq<Row>, path: Text, wk: Worker) {
    match wk
    case Scanning(_) => true
    case Checking(info, _) => InfoFits(g, tree, prior, path, info)
    case Uploading(info, _) => InfoFits(g, tree, prior, path, info)
    case Finished(r) => ResultFits(g, tree, loaded, prior, path, r)
  }

  // ---------- the invariant ----------

  /** Everything the live run has found out fits the tree and the state it loaded. */
  ghost predicate WorkFits(g: Engine, tree: Tree, prior: seq<Row>, l: Live)
    requires l.Working?
  {
    && l.loaded == Latest(prior)
    && Distinct(l.files)
    && (forall i :: 0 <= i < |l.files| ==> l.files[i] in tree)
    && (forall t :: t in l.workers ==>
          t < |l.files| && WorkerFits(g, tree, l.loaded, prior, l.files[t], l.workers[t]))
    && (forall k :: 0 <= k < |l.pipe.log| ==>
          && l.pipe.log[k].task < |l.files|
          && ResultFits(g, tree, l.loaded, prior, l.files[l.pipe.log[k].task], l.pipe.log[k].result))
  }

  ghost predicate LiveFits(g: Engine, tree: Tree, base: seq<Row>, rows: seq<Row>, w: World) {
    match w.live
    case None => true
    case Some(Closing(_, _, _, _)) => true
    case Some(Opening(_, loaded, known, _, _, _)) => known == |rows| && loaded == Latest(rows)
    case Some(l) =>
      && |base| <= l.known <= |rows|
      && WorkFits(g, tree, rows[..l.known], l)
      && l.run in w.facts
      && w.facts[l.run].applied <= |w.facts[l.run].attempted|
      && rows[l.known..] == Flatten(w.facts[l.run].attempted[..w.facts[l.run].applied])
  }

  function FileSet(files: seq<Text>): set<Text> {
    set i | 0 <= i < |files| :: files[i]
  }

  /** The candidates a run settles at the moment it completes. */
  ghost function SettledNow(w: World, e: Event): set<Text> {
    if e.Terminate? && w.live.Some? && w.live.value.Working? && TerminalOf(w.live.value.pipe).Completed?
    then FileSet(w.live.value.files)
    else {}
  }

  /** The candidates of all runs that complete during `es`. */
  ghost function SettledBy(g: Engine, w: World, es: seq<Event>): set<Text>
    requires ValidRun(g, w, es)
    decreases es
  {
    if es == [] then {} else SettledNow(w, es[0]) + SettledBy(g, Step(g, w, es[0]), es[1..])
  }

  ghost predicate RecoveryOk(g: Engine, tree: Tree, base: seq<Row>, w: World) {
    var rows := SourceRows(g.setup.source, w.catalog);
    && base <= rows
    && NewsOk(g, tree, base, rows[|base|..])
    && LiveFits(g, tree, base, rows, w)
  }

  // ---------- workers ----------

  lemma OutcomeFits(
      g: Engine, tree: Tree, loaded: CurrentState, prior: seq<Row>, path: Text, info: Row, blob: BlobState)
    requires InfoFits(g, tree, prior, path, info)
    ensures WorkerFits(g, tree, loaded, prior, path, OutcomeOf(loaded, info, blob))
  {}

  /** A step of a worker that reads what the tree holds keeps it fitting. */
  lemma WorkerStepFits(
      g: Engine, tree: Tree, l: Live, prior: seq<Row>, blobs: Upload.Blobs, t: nat, we: WorkerEvent)
    requires l.Working? && t in l.workers && t < |l.files| && WorkerEnabled(l.workers[t], we)
    requires WorkerFits(g, tree, l.loaded, prior, l.files[t], l.workers[t])
    requires we.Scan? && we.snap.Some? ==>
               && l.files[t] in tree && we.snap.value.bytes == tree[l.files[t]]
               && forall i :: 0 <= i < |prior| ==> prior[i].at < we.snap.value.now
    ensures var wk' := WorkerStep(g.setup, l.run, l.files[t], l.loaded, blobs, l.workers[t], we).0;
            WorkerFits(g, tree, l.loaded, prior, l.files[t], wk')
  {
    if we.Check? || we.Transfer? {
      OutcomeFits(g, tree, l.loaded, prior, l.files[t], l.workers[t].info, Existing);
      OutcomeFits(g, tree, l.loaded, prior, l.files[t], l.workers[t].info, BlobState.Uploaded);
    }
  }

  lemma WorkKeepsRecovery(g: Engine, tree: Tree, base: seq<Row>, w: World, t: nat, we: WorkerEvent)
    requires MayWork(w, t, we) && RecoveryOk(g, tree, base, w) && Faithful(g, tree, w, Work(t, we))
    ensures RecoveryOk(g, tree, base, StepWork(g, w, t, we))
  {
    var l := w.live.value;
    var prior := SourceRows(g.setup.source, w.catalog)[..l.known];
    assert WorkerFits(g, tree, l.loaded, prior, l.files[t], l.workers[t]);
    WorkerStepFits(g, tree, l, prior, w.blobs, t, we);
    WorkerStepped(g, tree, base, w, t, we);
  }

  lemma WorkerStepped(g: Engine, tree: Tree, base: seq<Row>, w: World, t: nat, we: WorkerEvent)
    requires MayWork(w, t, we) && RecoveryOk(g, tree, base, w)
    requires var l := w.live.value;
             var wk' := WorkerStep(g.setup, l.run, l.files[t], l.loaded, w.blobs, l.workers[t], we).0;
             WorkerFits(g, tree, l.loaded, SourceRows(g.setup.source, w.catalog)[..l.known], l.files[t], wk')
    ensures RecoveryOk(g, tree, base, StepWork(g, w, t, we))
  {
    var l, l' := w.live.value, StepWork(g, w, t, we).live.value;
    assert l'.workers == l.workers[t := l'.workers[t]] && l'.known == l.known && l'.run == l.run;
    ReplacedWorkerFits(g, tree, SourceRows(g.setup.source, w.catalog)[..l.known], l, l', t);
  }

  lemma ReplacedWorkerFits(g: Engine, tree: Tree, prior: seq<Row>, l: Live, l': Live, t: nat)
    requires l.Working? && l'.Working? && WorkFits(g, tree, prior, l)
    requires t in l.workers && t in l'.workers && l'.workers == l.workers[t := l'.workers[t]]
    requires l'.files == l.files && l'.loaded == l.loaded && l'.pipe == l.pipe
    requires t < |l.files| && WorkerFits(g, tree, l.loaded, prior, l.files[t], l'.workers[t])
    ensures WorkFits(g, tree, prior, l')
  {}

  lemma PipeKeepsRecovery(g: Engine, tree: Tree, base: seq<Row>, w: World, p: P.Event)
    requires MayPipe(g, w, p) && PoolOk(g, w) && RecoveryOk(g, tree, base, w)
    ensures RecoveryOk(g, tree, base, StepPipeline(g, w, p))
  {
    var l := w.live.value;
    PipeKeepsWork(g, tree, SourceRows(g.setup.source, w.catalog)[..l.known], l, p);
    var l' := StepPipe(g, l, p);
    assert l'.known == l.known && l'.run == l.run;
  }

  lemma PipeKeepsWork(g: Engine, tree: Tree, prior: seq<Row>, l: Live, p: P.Event)
    requires l.Working? && PipeEnabled(g, l, p) && WorkFits(g, tree, prior, l) && l.pipe.total == |l.files|
    ensures WorkFits(g, tree, prior, StepPipe(g, l, p))
  {}

  // ---------- landing a batch ----------

  /** Distinct files give the rows of a run distinct paths. */
  lemma {:induction false} LoggedPathsDistinct(files: seq<Text>, log: seq<P.Joined>)
    requires Distinct(files)
    requires forall k :: 0 <= k < |log| ==> log[k].task < |files|
    requires forall k :: 0 <= k < |log| && log[k].result.Observed? ==> log[k].result.row.path == files[log[k].task]
    requires forall j, k :: 0 <= j < k < |log| ==> log[j].task != log[k].task
    ensures forall i, j :: 0 <= i < j < |P.Rows(log)| ==> P.Rows(log)[i].path != P.Rows(log)[j].path
  {
    if log != [] {
      var n := |log| - 1;
      LoggedPathsDistinct(files, log[..n]);
      var rows := P.Rows(log[..n]);
      if log[n].result.Observed? {
        forall i | 0 <= i < |rows|
          ensures rows[i].path != log[n].result.row.path
        {
          RowsAreLogged(log[..n], rows[i]);
          var k :| 0 <= k < n && log[..n][k].result.Observed? && log[..n][k].result.row == rows[i];
          assert files[log[k].task] != files[log[n].task];
        }
      }
    }
  }

  /** A batch of fitting rows extends the news of a base. */
  lemma BatchExtendsNews(
      g: Engine, tree: Tree, base: seq<Row>, mid: seq<Row>, own: seq<Row>, batch: seq<Row>)
    requires NewsOk(g, tree, base, mid + own)
    requires forall i, j :: 0 <= i < j < |own + batch| ==> (own + batch)[i].path != (own + batch)[j].path
    requires forall j :: 0 <= j < |batch| ==> RowFits(g, tree, Latest(base + mid), base + mid, batch[j].path, batch[j])
    ensures NewsOk(g, tree, base, mid + own + batch)
  {
    var news := mid + own;
    assert news[..|mid|] == mid;
    NewsPrefix(g, tree, base, news, |mid|);
    forall j | 0 <= j < |batch|
      ensures !HasPath(mid, batch[j].path)
      ensures !Knows(Latest(base), batch[j].path, batch[j].hash)
      ensures forall i :: 0 <= i < |base| ==> base[i].at < batch[j].at
    {
      assert batch[j].path in tree;
      NewsMatch(g, tree, base, mid, batch[j].path);
      assert forall i :: 0 <= i < |base| ==> (base + mid)[i] == base[i];
    }
    var all := news + batch;
    forall i, j | 0 <= i < j < |all|
      ensures all[i].path != all[j].path
    {
      if j < |news| {
        assert all[i] == news[i] && all[j] == news[j];
      } else if i < |mid| {
        assert all[i] == mid[i];
      } else {
        assert all[i] == (own + batch)[i - |mid|] && all[j] == (own + batch)[j - |mid|];
      }
    }
    assert all == mid + own + batch;
  }

  /** The rows of the batch about to land fit, and no path occurs twice among the run's rows. */
  lemma LandingBatchFits(g: Engine, tree: Tree, base: seq<Row>, w: World)
    requires ValidEngine(g) && PoolOk(g, w) && CountersOk(w) && RecoveryOk(g, tree, base, w) && MayLand(w)
    ensures var l, f := w.live.value, w.facts[w.live.value.run];
            var rows := SourceRows(g.setup.source, w.catalog);
            var own, batch := rows[l.known..], f.attempted[f.applied];
            && (forall i, j :: 0 <= i < j < |own + batch| ==> (own + batch)[i].path != (own + batch)[j].path)
            && (forall j :: 0 <= j < |batch| ==>
                  RowFits(g, tree, l.loaded, rows[..l.known], batch[j].path, batch[j]))
  {
    var l, f := w.live.value, w.facts[w.live.value.run];
    var rows := SourceRows(g.setup.source, w.catalog);
    LandingBatch(w);
    assert f.attempted[..f.applied] == l.pipe.batches;
    assert rows[l.known..] == Flatten(l.pipe.batches) && f.attempted[f.applied] == P.Batch(l.pipe.writer);
    LandedAndNextDiffer(g, tree, rows[..l.known], l);
    NextBatchFits(g, tree, rows[..l.known], l);
  }

  /** What has landed and the batch to come are distinct rows of the log. */
  lemma LandedAndNextDiffer(g: Engine, tree: Tree, prior: seq<Row>, l: Live)
    requires ValidEngine(g) && l.Working? && P.Inv(g.pool, l.pipe) && WorkFits(g, tree, prior, l)
    ensures var rows := Flatten(l.pipe.batches) + P.Batch(l.pipe.writer);
            forall i, j :: 0 <= i < j < |rows| ==> rows[i].path != rows[j].path
  {
    var rows := Flatten(l.pipe.batches) + P.Batch(l.pipe.writer);
    LoggedPathsDistinct(l.files, l.pipe.log);
    LandedAndNextAreLogged(g, l);
    assert forall i :: 0 <= i < |rows| ==> rows[i] == P.Rows(l.pipe.log)[i];
  }

  lemma LandedAndNextAreLogged(g: Engine, l: Live)
    requires ValidEngine(g) && l.Working? && P.Inv(g.pool, l.pipe)
    ensures Flatten(l.pipe.batches) + P.Batch(l.pipe.writer) <= P.Rows(l.pipe.log)
  {
    assert l.pipe.sent == Flatten(l.pipe.batches) + P.Batch(l.pipe.writer) + l.pipe.channel;
  }

  lemma NextBatchFits(g: Engine, tree: Tree, prior: seq<Row>, l: Live)
    requires ValidEngine(g) && l.Working? && P.Inv(g.pool, l.pipe) && WorkFits(g, tree, prior, l)
    ensures var batch := P.Batch(l.pipe.writer);
            forall j :: 0 <= j < |batch| ==> RowFits(g, tree, l.loaded, prior, batch[j].path, batch[j])
  {
    var batch := P.Batch(l.pipe.writer);
    forall j | 0 <= j < |batch|
      ensures RowFits(g, tree, l.loaded, prior, batch[j].path, batch[j])
    {
      BatchIsLogged(g, l, batch[j]);
    }
  }

  lemma LandKeepsRecovery(g: Engine, tree: Tree, base: seq<Row>, w: World)
    requires ValidEngine(g) && PoolOk(g, w) && CountersOk(w) && BlobsOk(g, w)
    requires RecoveryOk(g, tree, base, w) && MayLand(w)
    ensures RecoveryOk(g, tree, base, StepLand(w))
  {
    var l, f := w.live.value, w.facts[w.live.value.run];
    var rows, batch := SourceRows(g.setup.source, w.catalog), f.attempted[f.applied];
    LandedSourceRows(g, w);
    LandingBatchFits(g, tree, base, w);
    LandedNews(g, tree, base, rows, l.known, batch);
    LandedLive(g, tree, base, rows, w);
  }

  lemma LandedSourceRows(g: Engine, w: World)
    requires ValidEngine(g) && PoolOk(g, w) && CountersOk(w) && BlobsOk(g, w) && MayLand(w)
    ensures var f := w.facts[w.live.value.run];
            SourceRows(g.setup.source, StepLand(w).catalog)
            == SourceRows(g.setup.source, w.catalog) + f.attempted[f.applied]
  {
    var f := w.facts[w.live.value.run];
    var batch := f.attempted[f.applied];
    LandingBatch(w);
    forall j | 0 <= j < |batch|
      ensures batch[j].source == g.setup.source
    {
      BatchIsBacked(g, w, batch[j]);
    }
    SourceRowsConcat(g.setup.source, w.catalog, batch);
    SourceRowsAll(g.setup.source, batch);
  }

  lemma LandedLive(g: Engine, tree: Tree, base: seq<Row>, rows: seq<Row>, w: World)
    requires MayLand(w) && LiveFits(g, tree, base, rows, w)
    ensures var f := w.facts[w.live.value.run];
            LiveFits(g, tree, base, rows + f.attempted[f.applied], StepLand(w))
  {
    var l, f := w.live.value, w.facts[w.live.value.run];
    var batch := f.attempted[f.applied];
    FlattenSnoc(f.attempted[..f.applied], batch);
    assert f.attempted[..f.applied + 1] == f.attempted[..f.applied] + [batch];
    assert (rows + batch)[..l.known] == rows[..l.known];
    assert (rows + batch)[l.known..] == rows[l.known..] + batch;
  }

  lemma LandedNews(g: Engine, tree: Tree, base: seq<Row>, rows: seq<Row>, known: nat, batch: seq<Row>)
    requires base <= rows && |base| <= known <= |rows| && NewsOk(g, tree, base, rows[|base|..])
    requires var own := rows[known..];
             && (forall i, j :: 0 <= i < j < |own + batch| ==> (own + batch)[i].path != (own + batch)[j].path)
             && (forall j :: 0 <= j < |batch| ==>
                   RowFits(g, tree, Latest(rows[..known]), rows[..known], batch[j].path, batch[j]))
    ensures NewsOk(g, tree, base, (rows + batch)[|base|..])
  {
    var mid, own := Cut(base, rows, known);
    BatchExtendsNews(g, tree, base, mid, own, batch);
    assert (rows + batch)[|base|..] == mid + own + batch;
  }

  /** The rows of a source: what was there first, what earlier runs added, what this run added. */
  lemma Cut(base: seq<Row>, rows: seq<Row>, known: nat) returns (mid: seq<Row>, own: seq<Row>)
    requires base <= rows && |base| <= known <= |rows|
    ensures rows[..known] == base + mid && rows[known..] == own
    ensures rows[|base|..] == mid + own && rows == base + (mid + own)
  {
    mid, own := rows[|base|..known], rows[known..];
  }

  lemma MatchStays(g: Engine, tree: Tree, base: seq<Row>, rows: seq<Row>, later: seq<Row>, path: Text)
    requires base <= rows <= later && NewsOk(g, tree, base, later[|base|..]) && Matches(g, tree, Latest(rows), path)
    ensures Matches(g, tree, Latest(later), path)
  {
    var news, more := CutLater(base, rows, later);
    MatchGrows(g, tree, base, news, more, path);
  }

  lemma CutLater(base: seq<Row>, rows: seq<Row>, later: seq<Row>) returns (news: seq<Row>, more: seq<Row>)
    requires base <= rows <= later
    ensures rows == base + news && later == base + (news + more) && later[|base|..] == news + more
  {
    news, more := rows[|base|..], later[|rows|..];
  }

  // ---------- completion ----------

  lemma {:induction false} NoErrors(log: seq<P.Joined>, k: nat)
    requires P.Count(log, P.IsError) == 0 && k < |log|
    ensures !log[k].result.Failed? && !log[k].result.Panicked?
  {
    var n := |log| - 1;
    if k < n {
      NoErrors(log[..n], k);
      assert log[..n][k] == log[k];
    }
  }

  lemma {:induction false} ObservedIsARow(log: seq<P.Joined>, k: nat)
    requires k < |log| && log[k].result.Observed?
    ensures log[k].result.row in P.Rows(log)
  {
    var n := |log| - 1;
    if k < n {
      assert log[..n][k] == log[k];
      ObservedIsARow(log[..n], k);
    }
  }

  /** A completed run joined every task without an error and landed every row. */
  lemma CompletedRun(g: Engine, w: World)
    requires ValidEngine(g) && PoolOk(g, w) && CountersOk(w)
    requires w.live.Some? && w.live.value.Working? && P.Final(w.live.value.pipe)
    requires TerminalOf(w.live.value.pipe).Completed?
    ensures var l, f := w.live.value, w.facts[w.live.value.run];
            && P.Count(l.pipe.log, P.IsError) == 0
            && (forall i :: 0 <= i < |l.files| ==> P.InLog(l.pipe.log, i))
            && f.applied <= |f.attempted|
            && P.Rows(l.pipe.log) == Flatten(f.attempted[..f.applied])
  {
    var l, f := w.live.value, w.facts[w.live.value.run];
    assert FactsOk(f) && InStep(l, f);
    CompletedPipe(g, l.pipe);
    assert f.attempted[..f.applied] == l.pipe.batches;
  }

  lemma CompletedPipe(g: Engine, s: P.State)
    requires ValidEngine(g) && P.Inv(g.pool, s) && P.Final(s) && TerminalOf(s).Completed?
    ensures P.Count(s.log, P.IsError) == 0 && s.writer.Ended?
    ensures forall i :: 0 <= i < s.total ==> P.InLog(s.log, i)
    ensures P.Rows(s.log) == Flatten(s.batches)
  {
    P.AxesPartitionTheLog(s.log);
    P.SuccessfulRunCommitsTheChunks(g.pool, s);
  }

  /** In a completed run every file was observed and its row landed, or it was known unchanged. */
  lemma CompletedFile(g: Engine, tree: Tree, base: seq<Row>, w: World, i: nat)
    requires w.live.Some? && w.live.value.Working? && LiveFits(g, tree, base, SourceRows(g.setup.source, w.catalog), w)
    requires var l, f := w.live.value, w.facts[w.live.value.run];
             && P.Count(l.pipe.log, P.IsError) == 0
             && i < |l.files| && P.InLog(l.pipe.log, i)
             && P.Rows(l.pipe.log) == Flatten(f.attempted[..f.applied])
    ensures var rows, l := SourceRows(g.setup.source, w.catalog), w.live.value;
            Matches(g, tree, Latest(rows[..l.known]), l.files[i]) || HasPath(rows[l.known..], l.files[i])
  {
    var l := w.live.value;
    var own := SourceRows(g.setup.source, w.catalog)[l.known..];
    var k :| 0 <= k < |l.pipe.log| && l.pipe.log[k].task == i;
    NoErrors(l.pipe.log, k);
    if l.pipe.log[k].result.Observed? {
      ObservedIsARow(l.pipe.log, k);
      var j :| 0 <= j < |own| && own[j] == l.pipe.log[k].result.row;
      assert own[j].path == l.files[i];
    }
  }

  lemma CompletedFileMatches(g: Engine, tree: Tree, base: seq<Row>, w: World, i: nat)
    requires ValidEngine(g) && PoolOk(g, w) && CountersOk(w) && RecoveryOk(g, tree, base, w)
    requires w.live.Some? && w.live.value.Working? && P.Final(w.live.value.pipe)
    requires TerminalOf(w.live.value.pipe).Completed? && i < |w.live.value.files|
    ensures Matches(g, tree, Latest(SourceRows(g.setup.source, w.catalog)), w.live.value.files[i])
  {
    CompletedRun(g, w);
    CompletedFile(g, tree, base, w, i);
    LoadedOrLanded(g, tree, base, SourceRows(g.setup.source, w.catalog), w.live.value.known, w.live.value.files[i]);
  }

  lemma LoadedOrLanded(g: Engine, tree: Tree, base: seq<Row>, rows: seq<Row>, known: nat, path: Text)
    requires base <= rows && |base| <= known <= |rows| && NewsOk(g, tree, base, rows[|base|..])
    requires Matches(g, tree, Latest(rows[..known]), path) || HasPath(rows[known..], path)
    ensures Matches(g, tree, Latest(rows), path)
  {
    var mid, own := Cut(base, rows, known);
    if HasPath(own, path) {
      var j :| 0 <= j < |own| && own[j].path == path;
      assert (mid + own)[|mid| + j].path == path;
      NewsMatch(g, tree, base, mid + own, path);
    } else {
      MatchGrows(g, tree, base, mid, own, path);
    }
  }

  lemma TerminateKeepsRecovery(g: Engine, tree: Tree, base: seq<Row>, w: World, reply: Journal.SaveReply)
    requires RecoveryOk(g, tree, base, w) && MayTerminate(w)
    ensures RecoveryOk(g, tree, base, StepTerminate(g, w, reply))
  {}

  /** A run that completes settles its candidates. */
  lemma CompletionSettles(g: Engine, tree: Tree, base: seq<Row>, w: World, e: Event, path: Text)
    requires ValidEngine(g) && PoolOk(g, w) && CountersOk(w) && RecoveryOk(g, tree, base, w) && Enabled(g, w, e)
    requires path in SettledNow(w, e)
    ensures Matches(g, tree, Latest(SourceRows(g.setup.source, w.catalog)), path)
  {
    var i :| 0 <= i < |w.live.value.files| && w.live.value.files[i] == path;
    CompletedFileMatches(g, tree, base, w, i);
  }

  /** The catalog is append-only. */
  lemma CatalogGrows(g: Engine, w: World, e: Event)
    requires Enabled(g, w, e)
    ensures SourceRows(g.setup.source, w.catalog) <= SourceRows(g.setup.source, Step(g, w, e).catalog)
  {
    var added := Step(g, w, e).catalog[|w.catalog|..];
    assert Step(g, w, e).catalog == w.catalog + added;
    SourceRowsConcat(g.setup.source, w.catalog, added);
  }

  lemma {:induction false} CatalogGrowsOver(g: Engine, w: World, es: seq<Event>)
    requires ValidRun(g, w, es)
    ensures SourceRows(g.setup.source, w.catalog) <= SourceRows(g.setup.source, Exec(g, w, es).catalog)
    decreases es
  {
    if es != [] {
      CatalogGrows(g, w, es[0]);
      CatalogGrowsOver(g, Step(g, w, es[0]), es[1..]);
    }
  }

  // ---------- the other steps ----------

  lemma RecordKeepsRecovery(g: Engine, tree: Tree, base: seq<Row>, w: World, reply: Journal.SaveReply)
    requires RecoveryOk(g, tree, base, w) && MayRecord(w)
    ensures RecoveryOk(g, tree, base, StepRecord(g, w, reply))
  {
    var f := w.facts[w.live.value.run];
    assert (f.attempted + [w.live.value.pipe.writer.batch])[..f.applied] == f.attempted[..f.applied];
  }

  lemma StartKeepsRecovery(g: Engine, tree: Tree, base: seq<Row>, w: World, files: seq<Text>, reply: Journal.SaveReply)
    requires RecoveryOk(g, tree, base, w)
    requires MayStart(w, files) && Faithful(g, tree, w, Start(files, reply))
    ensures RecoveryOk(g, tree, base, StepStart(g, w, files, reply))
  {
    var rows := SourceRows(g.setup.source, w.catalog);
    assert rows[..|rows|] == rows && rows[|rows|..] == [];
    assert Flatten<Row>([]) == [];
  }

  lemma ForeignRowsKeepRecovery(g: Engine, tree: Tree, base: seq<Row>, w: World, news: seq<Row>)
    requires RecoveryOk(g, tree, base, w) && OfOthers(g, news)
    ensures RecoveryOk(g, tree, base, w.(catalog := w.catalog + news))
  {
    SourceRowsConcat(g.setup.source, w.catalog, news);
    SourceRowsNone(g.setup.source, news);
    var rows := SourceRows(g.setup.source, w.catalog);
    assert rows + [] == rows;
  }

  lemma BeginKeepsRecovery(g: Engine, tree: Tree, base: seq<Row>, w: World, run: RunId, order: seq<RunId>)
    requires RecoveryOk(g, tree, base, w) && MayBegin(g, w, run, order)
    ensures RecoveryOk(g, tree, base, StepBegin(g, w, run, order))
  {}

  lemma ReconcileKeepsRecovery(g: Engine, tree: Tree, base: seq<Row>, w: World, reply: Journal.SaveReply)
    requires RecoveryOk(g, tree, base, w) && MayReconcile(w)
    ensures RecoveryOk(g, tree, base, StepReconcile(g, w, reply))
  {}

  /** The catalog, the work and the batches that landed are as before. */
  ghost predicate SameNews(w: World, w': World) {
    && w'.catalog == w.catalog && SameWork(w, w') && !(w'.live.Some? && w'.live.value.Opening? && w'.live != w.live)
    && (w'.live.Some? && w'.live.value.Working? && HasFacts(w) ==>
          && HasFacts(w')
          && w'.facts[w'.live.value.run].attempted == w.facts[w'.live.value.run].attempted
          && w'.facts[w'.live.value.run].applied == w.facts[w'.live.value.run].applied)
  }

  lemma RecoveryFrame(g: Engine, tree: Tree, base: seq<Row>, w: World, w': World)
    requires RecoveryOk(g, tree, base, w) && SameNews(w, w')
    ensures RecoveryOk(g, tree, base, w')
  {}

  lemma NoteKeepsNews(g: Engine, w: World, reply: Journal.SaveReply)
    requires MayNote(w)
    ensures SameNews(w, StepNote(g, w, reply))
  {}

  lemma OthersKeepNews(g: Engine, w: World, e: Event)
    requires Enabled(g, w, e)
    requires e.Answer? || e.Supersede? || e.Finish? || e.Crash? || e.Lose? || e.ForeignBlobs? || e.ForeignJournals?
    ensures SameNews(w, Step(g, w, e))
  {
    OthersKeepWork(g, w, e);
    assert Step(g, w, e).catalog == w.catalog && Step(g, w, e).facts == w.facts;
  }

  lemma OthersKeepRecovery(g: Engine, tree: Tree, base: seq<Row>, w: World, e: Event)
    requires Enabled(g, w, e) && RecoveryOk(g, tree, base, w)
    requires e.Answer? || e.Supersede? || e.Finish? || e.Crash? || e.Lose? || e.ForeignBlobs? || e.ForeignJournals?
             || e.Note?
    ensures RecoveryOk(g, tree, base, Step(g, w, e))
  {
    if e.Note? {
      NoteKeepsNews(g, w, e.reply);
    } else {
      OthersKeepNews(g, w, e);
    }
    RecoveryFrame(g, tree, base, w, Step(g, w, e));
  }

  lemma BookkeepingKeepsRecovery(g: Engine, tree: Tree, base: seq<Row>, w: World, e: Event)
    requires RecoveryOk(g, tree, base, w) && Enabled(g, w, e) && Faithful(g, tree, w, e)
    requires !e.Work? && !e.Pipe? && !e.Land?
    ensures RecoveryOk(g, tree, base, Step(g, w, e))
  {
    if e.Begin? {
      BeginKeepsRecovery(g, tree, base, w, e.run, e.order);
    } else if e.Reconcile? {
      ReconcileKeepsRecovery(g, tree, base, w, e.reply);
    } else if e.Start? {
      StartKeepsRecovery(g, tree, base, w, e.files, e.reply);
    } else if e.Record? {
      RecordKeepsRecovery(g, tree, base, w, e.reply);
    } else if e.ForeignRows? {
      ForeignRowsKeepRecovery(g, tree, base, w, e.rows);
    } else if e.Terminate? {
      TerminateKeepsRecovery(g, tree, base, w, e.reply);
    } else {
      OthersKeepRecovery(g, tree, base, w, e);
    }
  }

  lemma RecoveryStep(g: Engine, tree: Tree, base: seq<Row>, w: World, e: Event)
    requires ValidEngine(g) && PoolOk(g, w) && CountersOk(w) && BlobsOk(g, w) && RecoveryOk(g, tree, base, w)
    requires Enabled(g, w, e) && Faithful(g, tree, w, e)
    ensures RecoveryOk(g, tree, base, Step(g, w, e))
  {
    if e.Work? {
      WorkKeepsRecovery(g, tree, base, w, e.task, e.w);
    } else if e.Pipe? {
      PipeKeepsRecovery(g, tree, base, w, e.p);
    } else if e.Land? {
      LandKeepsRecovery(g, tree, base, w);
    } else {
      BookkeepingKeepsRecovery(g, tree, base, w, e);
    }
  }

  lemma {:induction false} RecoveryRun(g: Engine, tree: Tree, base: seq<Row>, w: World, es: seq<Event>)
    requires ValidEngine(g) && Injective(g.setup.sha) && Safe(g, w) && RecoveryOk(g, tree, base, w)
    requires ValidRun(g, w, es) && FaithfulRun(g, tree, w, es)
    ensures RecoveryOk(g, tree, base, Exec(g, w, es))
    decreases es
  {
    if es != [] {
      SafeStep(g, w, es[0]);
      RecoveryStep(g, tree, base, w, es[0]);
      RecoveryRun(g, tree, base, Step(g, w, es[0]), es[1..]);
    }
  }

  /** A path that matches during a run for a fixed tree matches at the end. */
  lemma MatchLasts(g: Engine, tree: Tree, base: seq<Row>, w: World, es: seq<Event>, path: Text)
    requires ValidRun(g, w, es) && RecoveryOk(g, tree, base, w) && RecoveryOk(g, tree, base, Exec(g, w, es))
    requires Matches(g, tree, Latest(SourceRows(g.setup.source, w.catalog)), path)
    ensures Matches(g, tree, Latest(SourceRows(g.setup.source, Exec(g, w, es).catalog)), path)
  {
    CatalogGrowsOver(g, w, es);
    var rows, later := SourceRows(g.setup.source, w.catalog), SourceRows(g.setup.source, Exec(g, w, es).catalog);
    MatchStays(g, tree, base, rows, later, path);
  }

  lemma SettledFromNow(g: Engine, tree: Tree, base: seq<Row>, w: World, es: seq<Event>, path: Text)
    requires ValidEngine(g) && Injective(g.setup.sha) && Safe(g, w) && RecoveryOk(g, tree, base, w)
    requires ValidRun(g, w, es) && FaithfulRun(g, tree, w, es) && es != [] && path in SettledNow(w, es[0])
    ensures Matches(g, tree, Latest(SourceRows(g.setup.source, Exec(g, w, es).catalog)), path)
  {
    CompletionSettles(g, tree, base, w, es[0], path);
    RecoveryRun(g, tree, base, w, es);
    MatchLasts(g, tree, base, w, es, path);
  }

  lemma {:induction false} SettledRun(
      g: Engine, tree: Tree, base: seq<Row>, w: World, es: seq<Event>, path: Text)
    requires ValidEngine(g) && Injective(g.setup.sha) && Safe(g, w) && RecoveryOk(g, tree, base, w)
    requires ValidRun(g, w, es) && FaithfulRun(g, tree, w, es) && path in SettledBy(g, w, es)
    ensures Matches(g, tree, Latest(SourceRows(g.setup.source, Exec(g, w, es).catalog)), path)
    decreases es
  {
    if path in SettledNow(w, es[0]) {
      SettledFromNow(g, tree, base, w, es, path);
    } else {
      SafeStep(g, w, es[0]);
      RecoveryStep(g, tree, base, w, es[0]);
      SettledRun(g, tree, base, Step(g, w, es[0]), es[1..], path);
    }
  }

  // ---------- the theorems ----------

  /**
   * From any state between two runs, whatever the catalog holds, and for any tree: over any
   * sequence of runs, however each ends, rows are only appended, at most one per path, only for
   * paths whose state differed from the tree, and with the tree's content. The state is the old
   * state overridden by the new rows, so other paths keep theirs, and every candidate of a run
   * that completed meanwhile matches the tree at the end.
   */
  lemma RecoveryConverges(g: Engine, tree: Tree, w: World, es: seq<Event>) returns (news: seq<Row>)
    requires ValidEngine(g) && Injective(g.setup.sha) && Safe(g, w) && w.live.None?
    requires ValidRun(g, w, es) && FaithfulRun(g, tree, w, es)
    ensures var base, w' := SourceRows(g.setup.source, w.catalog), Exec(g, w, es);
            var rows := SourceRows(g.setup.source, w'.catalog);
            && rows == base + news
            && (forall i, j :: 0 <= i < j < |news| ==> news[i].path != news[j].path)
            && (forall i :: 0 <= i < |news| ==>
                  && news[i].path in tree && news[i].hash == g.setup.sha(tree[news[i].path])
                  && !Matches(g, tree, Latest(base), news[i].path))
            && Latest(rows) == Latest(base) + Latest(news)
            && (forall p :: p in SettledBy(g, w, es) ==> Matches(g, tree, Latest(rows), p))
  {
    var base, w' := SourceRows(g.setup.source, w.catalog), Exec(g, w, es);
    FreshStart(g, tree, w);
    RecoveryRun(g, tree, base, w, es);
    forall p | p in SettledBy(g, w, es)
      ensures Matches(g, tree, Latest(SourceRows(g.setup.source, w'.catalog)), p)
    {
      SettledRun(g, tree, base, w, es, p);
    }
    news := NewsOfRun(g, tree, base, SourceRows(g.setup.source, w'.catalog));
  }

  /** Between two runs, whatever the catalog holds, there are no news yet. */
  lemma FreshStart(g: Engine, tree: Tree, w: World)
    requires w.live.None?
    ensures RecoveryOk(g, tree, SourceRows(g.setup.source, w.catalog), w)
  {
    var base := SourceRows(g.setup.source, w.catalog);
    assert base[|base|..] == [];
  }

  lemma NewsOfRun(g: Engine, tree: Tree, base: seq<Row>, rows: seq<Row>) returns (news: seq<Row>)
    requires base <= rows && NewsOk(g, tree, base, rows[|base|..])
    ensures rows == base + news
    ensures forall i, j :: 0 <= i < j < |news| ==> news[i].path != news[j].path
    ensures forall i :: 0 <= i < |news| ==>
              && news[i].path in tree && news[i].hash == g.setup.sha(tree[news[i].path])
              && !Matches(g, tree, Latest(base), news[i].path)
    ensures Latest(rows) == Latest(base) + Latest(news)
  {
    news := rows[|base|..];
    assert rows == base + news;
    LaterRowsOverride(base, news);
  }

  ghost function HeadPath(rows: seq<Row>): Text {
    if rows == [] then [] else rows[0].path
  }

  /** Once every file of the tree matches, further runs append nothing. */
  lemma LaterRunsAppendNothing(g: Engine, tree: Tree, w: World, es: seq<Event>)
    requires ValidEngine(g) && Injective(g.setup.sha) && Safe(g, w) && w.live.None?
    requires ValidRun(g, w, es) && FaithfulRun(g, tree, w, es)
    requires forall p :: p in tree ==> Matches(g, tree, Latest(SourceRows(g.setup.source, w.catalog)), p)
    ensures SourceRows(g.setup.source, Exec(g, w, es).catalog) == SourceRows(g.setup.source, w.catalog)
  {
    var news := RecoveryConverges(g, tree, w, es);
    assert HeadPath(news) in tree ==> Matches(g, tree, Latest(SourceRows(g.setup.source, w.catalog)), HeadPath(news));
  }
}
