/**
 * The ingest engine of one source: content-addressed blobs, the append-only catalog, the persisted
 * journals, and at most one live run. A run may be killed at any point, a journal write may fail or
 * land without an acknowledgement, a commit may fail after it was applied, the store may lose
 * objects, and other sources use the same stores all the time.
 */
module World {
  import opened Domain
  import opened Identity
  import opened Seqs
  import opened Upload
  import opened CatalogState
  import opened Journal
  import opened Process
  import P = Pipeline

  datatype Engine = Engine(setup: Setup, pool: P.Config)

  predicate ValidEngine(g: Engine) {
    P.ValidConfig(g.pool) && g.pool.commits
  }

  /** A predecessor found open at the start, as the live run holds it in memory. */
  datatype Listed = Listed(run: RunId, journal: RunJournal)

  /** Where the commit of the batch being flushed stands. */
  datatype Phase =
    | Idle
    | Recorded  // `committing` is journaled and the append is on its way
    | Accepted  // the catalog said yes
    | Noted     // `batch_committed` is journaled
    | Refused   // the append returned an error

  /**
   * The live run. `skipped` are open predecessors the listing did not find; `uploads` and `stored`
   * map each worker that reported an upload to its key and byte count; `ambiguous` and `added` are
   * keys the run stored, the former by a final write that ended in an error; `gone` are keys the
   * store has lost since the run started working. The program keeps none of the last six.
   */
  datatype Live =
    | Opening(
        run: RunId, loaded: CurrentState, known: nat, earlier: seq<Listed>, skipped: set<RunId>, done: nat)
    | Working(
        run: RunId, loaded: CurrentState, known: nat, earlier: seq<Listed>, skipped: set<RunId>,
        files: seq<Text>, pipe: P.State, workers: map<nat, Worker>,
        phase: Phase, batches: nat,
        uploads: map<nat, Text>, stored: map<nat, nat>, ambiguous: set<Text>, added: set<Text>, gone: set<Text>)
    | Closing(run: RunId, earlier: seq<Listed>, skipped: set<RunId>, done: nat)

  /**
   * What one run did and what its memory held last: the batches it tried to commit, how many of
   * them it saw acknowledged, how many the catalog applied, and its in-memory journal.
   */
  datatype Facts = Facts(
    attempted: seq<seq<Row>>,
    acked: nat,
    applied: nat,
    history: seq<RunState>,
    terminal: Option<RunState>)

  /**
   * `used`, `facts` and `lost` record the past. Only the batch on its way to the catalog and the
   * freshness of a run identifier are read from them.
   */
  datatype World = World(
    blobs: Blobs,
    catalog: seq<Row>,
    journals: Journals,
    live: Option<Live>,
    used: set<RunId>,
    facts: map<RunId, Facts>,
    lost: set<Text>)

  // ---------- queries on the catalog and the journals ----------

  function SourceRows(source: Text, catalog: seq<Row>): seq<Row> {
    if catalog == [] then []
    else
      var r := catalog[|catalog| - 1];
      SourceRows(source, catalog[..|catalog| - 1]) + if r.source == source then [r] else []
  }

  function RunRows(source: Text, run: RunId, catalog: seq<Row>): seq<Row> {
    if catalog == [] then []
    else
      var r := catalog[|catalog| - 1];
      RunRows(source, run, catalog[..|catalog| - 1]) + if r.source == source && r.run == run then [r] else []
  }

  predicate OpenFor(source: Text, journals: Journals, run: RunId) {
    run in journals && journals[run].source == source && IsOpen(journals[run].history)
  }

  /**
   * `order` lists open runs of the source, in whatever order the listing gave. A journal object
   * that could not be read is missing from it.
   */
  ghost predicate IsListing(source: Text, journals: Journals, order: seq<RunId>) {
    Distinct(order) && forall r :: r in order ==> OpenFor(source, journals, r)
  }

  /** Open runs the listing did not find. */
  ghost function Skipped(source: Text, journals: Journals, order: seq<RunId>): set<RunId> {
    set r | r in journals && OpenFor(source, journals, r) && r !in order
  }

  function ListedOf(journals: Journals, order: seq<RunId>): (ls: seq<Listed>)
    requires forall r :: r in order ==> r in journals
    ensures |ls| == |order|
    ensures forall i :: 0 <= i < |order| ==> ls[i] == Listed(order[i], journals[order[i]])
  {
    if order == [] then []
    else ListedOf(journals, order[..|order| - 1]) + [Listed(order[|order| - 1], journals[order[|order| - 1]])]
  }

  function RunsOf(open: seq<Listed>): (order: seq<RunId>)
    ensures |order| == |open|
    ensures forall i :: 0 <= i < |open| ==> order[i] == open[i].run
  {
    seq(|open|, i requires 0 <= i < |open| => open[i].run)
  }

  // ---------- steps ----------

  datatype Event =
    | Begin(run: RunId, order: seq<RunId>)
    | Reconcile(reply: SaveReply)
    | Start(files: seq<Text>, reply: SaveReply)
    | Pipe(p: P.Event)
    | Work(task: nat, w: WorkerEvent)
    | Record(reply: SaveReply)
    | Land
    | Answer(ok: bool)
    | Note(reply: SaveReply)
    | Terminate(reply: SaveReply)
    | Supersede(reply: SaveReply)
    | Finish
    | Crash
    | Lose(keys: set<Text>)
    | ForeignBlobs(blobs: Blobs)
    | ForeignRows(rows: seq<Row>)
    | ForeignJournals(journals: Journals)

  ghost predicate MayBegin(g: Engine, w: World, run: RunId, order: seq<RunId>) {
    && w.live.None?
    && run !in w.used && run !in w.journals
    && IsListing(g.setup.source, w.journals, order)
  }

  predicate MayReconcile(w: World) {
    w.live.Some? && w.live.value.Opening? && w.live.value.done < |w.live.value.earlier|
  }

  predicate MayStart(w: World, files: seq<Text>) {
    && w.live.Some? && w.live.value.Opening? && w.live.value.done == |w.live.value.earlier|
    && Distinct(files)
  }

  predicate MayPipe(g: Engine, w: World, p: P.Event) {
    w.live.Some? && w.live.value.Working? && PipeEnabled(g, w.live.value, p)
  }

  predicate MayWork(w: World, t: nat, we: WorkerEvent) {
    && w.live.Some? && w.live.value.Working?
    && t in w.live.value.workers && t < |w.live.value.files| && WorkerEnabled(w.live.value.workers[t], we)
  }

  predicate MayRecord(w: World) {
    && w.live.Some? && w.live.value.Working? && HasFacts(w)
    && w.live.value.phase.Idle? && w.live.value.pipe.writer.Flushing?
  }

  // The append takes effect, before or after the caller has an answer.
  predicate MayLand(w: World) {
    && w.live.Some? && w.live.value.Working? && HasFacts(w)
    && w.facts[w.live.value.run].applied < |w.facts[w.live.value.run].attempted|
  }

  predicate MayAnswer(w: World, ok: bool) {
    && w.live.Some? && w.live.value.Working? && HasFacts(w) && w.live.value.phase.Recorded?
    && (ok ==> w.facts[w.live.value.run].applied == |w.facts[w.live.value.run].attempted|)
  }

  predicate MayNote(w: World) {
    && w.live.Some? && w.live.value.Working? && HasFacts(w)
    && w.live.value.phase.Accepted? && w.live.value.pipe.writer.Flushing?
  }

  predicate MayTerminate(w: World) {
    w.live.Some? && w.live.value.Working? && HasFacts(w) && P.Final(w.live.value.pipe)
  }

  predicate MaySupersede(w: World) {
    w.live.Some? && w.live.value.Closing? && w.live.value.done < |w.live.value.earlier|
  }

  predicate MayFinish(w: World) {
    w.live.Some? && w.live.value.Closing? && w.live.value.done == |w.live.value.earlier|
  }

  ghost predicate OfOthers(g: Engine, rows: seq<Row>) {
    forall i :: 0 <= i < |rows| ==> rows[i].source != g.setup.source
  }

  ghost predicate JournalsOfOthers(g: Engine, w: World, js: Journals) {
    forall r :: r in js ==>
      && js[r].source != g.setup.source && r !in w.used
      && (r in w.journals ==> w.journals[r].source != g.setup.source)
  }

  ghost predicate Enabled(g: Engine, w: World, e: Event) {
    match e
    case Begin(run, order) => MayBegin(g, w, run, order)
    case Reconcile(_) => MayReconcile(w)
    case Start(files, _) => MayStart(w, files)
    case Pipe(p) => MayPipe(g, w, p)
    case Work(t, we) => MayWork(w, t, we)
    case Record(_) => MayRecord(w)
    case Land => MayLand(w)
    case Answer(ok) => MayAnswer(w, ok)
    case Note(_) => MayNote(w)
    case Terminate(_) => MayTerminate(w)
    case Supersede(_) => MaySupersede(w)
    case Finish => MayFinish(w)
    case Crash => w.live.Some?
    case Lose(_) => true
    case ForeignBlobs(blobs) => Protocol(g.setup.sha, w.blobs, blobs)
    case ForeignRows(rows) => OfOthers(g, rows)
    case ForeignJournals(js) => JournalsOfOthers(g, w, js)
  }

  predicate HasFacts(w: World)
    requires w.live.Some?
  {
    w.live.value.run in w.facts
  }

  /** The pipeline's steps, tied to what workers and the committer have actually done. */
  predicate PipeEnabled(g: Engine, l: Live, p: P.Event)
    requires l.Working?
  {
    && P.Enabled(g.pool, l.pipe, p)
    && (p.Join? ==> p.task in l.workers && l.workers[p.task] == Finished(p.result))
    && (p.CommitOk? ==> l.phase.Noted?)
    && (p.CommitFails? ==> l.phase.Refused?)
  }

  function StepPipe(g: Engine, l: Live, p: P.Event): Live
    requires l.Working? && PipeEnabled(g, l, p)
  {
    l.(pipe := P.Step(g.pool, l.pipe, p),
       workers := match p
                  case Spawn => l.workers[l.pipe.next := Scanning(SOURCE_CHANGED_RETRIES)]
                  case Join(t, _) => l.workers - {t}
                  case _ => l.workers,
       phase := if p.CommitOk? || p.CommitFails? then Idle else l.phase)
  }

  function StepPipeline(g: Engine, w: World, p: P.Event): World
    requires MayPipe(g, w, p)
  {
    w.(live := Some(StepPipe(g, w.live.value, p)))
  }

  /** A task starts as the program for one file does, with every retry left. */
  lemma SpawnStartsTheWorker(g: Engine, l: Live, attempts: seq<Attempt>)
    requires l.Working? && PipeEnabled(g, l, P.Spawn) && l.pipe.next < |l.files|
    ensures var l' := StepPipe(g, l, P.Spawn);
            && l.pipe.next in l'.workers
            && l'.workers[l.pipe.next] == WorkerRun(g.setup, l.run, l.files[l.pipe.next], l.loaded, attempts, [])
  {}

  predicate ReportsUpload(wk: Worker) {
    wk.Finished? && P.Is(wk.result, P.IsUploaded)
  }

  function BytesUnder(blobs: Blobs, hash: Text): nat {
    if ObjectKey(hash) in blobs then |blobs[ObjectKey(hash)].bytes| else 0
  }

  /** One step of one worker, with the keys it adds to the store and the bytes of what it stored. */
  function StepWork(g: Engine, w: World, t: nat, we: WorkerEvent): World
    requires MayWork(w, t, we)
  {
    var l := w.live.value;
    var hash := if l.workers[t].Uploading? then l.workers[t].info.hash else [];
    var (wk, blobs) := WorkerStep(g.setup, l.run, l.files[t], l.loaded, w.blobs, l.workers[t], we);
    var news := blobs.Keys - w.blobs.Keys;
    var reports := ReportsUpload(wk);
    w.(blobs := blobs,
       live := Some(l.(workers := l.workers[t := wk],
                       uploads := if reports then l.uploads[t := ObjectKey(hash)] else l.uploads,
                       stored := if reports then l.stored[t := BytesUnder(blobs, hash)] else l.stored,
                       ambiguous := if reports then l.ambiguous else l.ambiguous + news,
                       added := l.added + news)))
  }

  function JournalOf(g: Engine, l: Live, f: Facts): RunJournal
    requires l.Working?
  {
    RunJournal(g.setup.source, |l.files|, f.history)
  }

  /** Update the in-memory journal of the live run and rewrite the stored object. */
  function Save(g: Engine, w: World, l: Live, f: Facts, reply: SaveReply): World
    requires l.Working?
  {
    w.(journals := SaveEffect(w.journals, l.run, JournalOf(g, l, f), reply),
       facts := w.facts[l.run := f],
       live := Some(l))
  }

  /** The terminal entry a finished pipeline writes. */
  function TerminalOf(pipe: P.State): RunState {
    if pipe.writer.Broken? then CommitFailed(pipe.commit.batchesCommitted + 1)
    else if pipe.errors == [] then Completed
    else Incomplete(|pipe.errors|)
  }

  /** Objects disappear from the store; the live run, if there is one, remembers which. */
  function LoseBlobs(w: World, keys: set<Text>): World {
    var gone := keys * w.blobs.Keys;
    w.(blobs := w.blobs - keys,
       lost := w.lost + gone,
       live := if w.live.Some? && w.live.value.Working?
               then Some(w.live.value.(gone := w.live.value.gone + gone))
               else w.live)
  }

  ghost function StepBegin(g: Engine, w: World, run: RunId, order: seq<RunId>): World
    requires MayBegin(g, w, run, order)
  {
    var rows := SourceRows(g.setup.source, w.catalog);
    w.(used := w.used + {run},
       live := Some(Opening(run, Latest(rows), |rows|, ListedOf(w.journals, order),
                            Skipped(g.setup.source, w.journals, order), 0)))
  }

  function StepReconcile(g: Engine, w: World, reply: SaveReply): World
    requires MayReconcile(w)
  {
    var l := w.live.value;
    var item := l.earlier[l.done];
    var j := Push(item.journal, Reconciled(|RunRows(g.setup.source, item.run, w.catalog)|));
    w.(journals := SaveEffect(w.journals, item.run, j, reply),
       live := if reply.Saved? then Some(l.(earlier := l.earlier[l.done := Listed(item.run, j)], done := l.done + 1))
               else None)
  }

  function StepStart(g: Engine, w: World, files: seq<Text>, reply: SaveReply): World
    requires MayStart(w, files)
  {
    var l := w.live.value;
    if files == [] then w.(live := None)
    else
      var j := NewJournal(g.setup.source, |files|);
      w.(journals := SaveEffect(w.journals, l.run, j, reply),
         facts := w.facts[l.run := Facts([], 0, 0, j.history, None)],
         live := if reply.Saved?
                 then Some(Working(l.run, l.loaded, l.known, l.earlier, l.skipped, files,
                                   P.Init(g.pool, |files|), map[], Idle, 0, map[], map[], {}, {}, {}))
                 else None)
  }

  function StepRecord(g: Engine, w: World, reply: SaveReply): World
    requires MayRecord(w)
  {
    var l, f := w.live.value, w.facts[w.live.value.run];
    Save(g, w, l.(phase := Recorded, batches := l.batches + 1),
         f.(attempted := f.attempted + [l.pipe.writer.batch], history := f.history + [Committing(l.batches + 1)]),
         reply)
  }

  function StepLand(w: World): World
    requires MayLand(w)
  {
    var l, f := w.live.value, w.facts[w.live.value.run];
    w.(catalog := w.catalog + f.attempted[f.applied], facts := w.facts[l.run := f.(applied := f.applied + 1)])
  }

  function StepAnswer(w: World, ok: bool): World
    requires MayAnswer(w, ok)
  {
    w.(live := Some(w.live.value.(phase := if ok then Accepted else Refused)))
  }

  function StepNote(g: Engine, w: World, reply: SaveReply): World
    requires MayNote(w)
  {
    var l, f := w.live.value, w.facts[w.live.value.run];
    Save(g, w, l.(phase := Noted),
         f.(acked := f.acked + 1, history := f.history + [BatchCommitted(l.batches, |l.pipe.writer.batch|)]),
         reply)
  }

  function StepTerminate(g: Engine, w: World, reply: SaveReply): World
    requires MayTerminate(w)
  {
    var l, f := w.live.value, w.facts[w.live.value.run];
    var t := TerminalOf(l.pipe);
    var w' := Save(g, w, l, f.(history := f.history + [t], terminal := Some(t)), reply);
    w'.(live := if t.Completed? then Some(Closing(l.run, l.earlier, l.skipped, 0)) else None)
  }

  function StepSupersede(w: World, reply: SaveReply): World
    requires MaySupersede(w)
  {
    var l := w.live.value;
    var item := l.earlier[l.done];
    w.(journals := SaveEffect(w.journals, item.run, Push(item.journal, SupersededBy(l.run)), reply),
       live := Some(l.(done := l.done + 1)))
  }

  ghost function Step(g: Engine, w: World, e: Event): World
    requires Enabled(g, w, e)
  {
    match e
    case Begin(run, order) => StepBegin(g, w, run, order)
    case Reconcile(reply) => StepReconcile(g, w, reply)
    case Start(files, reply) => StepStart(g, w, files, reply)
    case Pipe(p) => StepPipeline(g, w, p)
    case Work(t, we) => StepWork(g, w, t, we)
    case Record(reply) => StepRecord(g, w, reply)
    case Land => StepLand(w)
    case Answer(ok) => StepAnswer(w, ok)
    case Note(reply) => StepNote(g, w, reply)
    case Terminate(reply) => StepTerminate(g, w, reply)
    case Supersede(reply) => StepSupersede(w, reply)
    case Finish => w.(live := None)
    case Crash => w.(live := None)
    case Lose(keys) => LoseBlobs(w, keys)
    case ForeignBlobs(blobs) => w.(blobs := blobs)
    case ForeignRows(rows) => w.(catalog := w.catalog + rows)
    case ForeignJournals(js) => w.(journals := w.journals + js)
  }

  // ---------- runs of the machine ----------

  ghost predicate ValidRun(g: Engine, w: World, es: seq<Event>)
    decreases es
  {
    es == [] || (Enabled(g, w, es[0]) && ValidRun(g, Step(g, w, es[0]), es[1..]))
  }

  ghost function Exec(g: Engine, w: World, es: seq<Event>): World
    requires ValidRun(g, w, es)
    decreases es
  {
    if es == [] then w else Exec(g, Step(g, w, es[0]), es[1..])
  }

  /** The first world: nothing stored, nothing recorded, no run. */
  const EMPTY_WORLD := World(map[], [], map[], None, {}, map[], {})

  // ---------- catalog lemmas ----------

  lemma {:induction false} SourceRowsConcat(source: Text, a: seq<Row>, b: seq<Row>)
    ensures SourceRows(source, a + b) == SourceRows(source, a) + SourceRows(source, b)
  {
    if b == [] {
      assert a + b == a;
    } else {
      var n := |b| - 1;
      assert (a + b)[..|a| + n] == a + b[..n];
      SourceRowsConcat(source, a, b[..n]);
    }
  }

  lemma {:induction false} SourceRowsAll(source: Text, b: seq<Row>)
    requires forall i :: 0 <= i < |b| ==> b[i].source == source
    ensures SourceRows(source, b) == b
  {
    if b != [] {
      SourceRowsAll(source, b[..|b| - 1]);
    }
  }

  lemma {:induction false} SourceRowsNone(source: Text, b: seq<Row>)
    requires forall i :: 0 <= i < |b| ==> b[i].source != source
    ensures SourceRows(source, b) == []
  {
    if b != [] {
      SourceRowsNone(source, b[..|b| - 1]);
    }
  }

  lemma {:induction false} SourceRowsMember(source: Text, catalog: seq<Row>, r: Row)
    ensures r in SourceRows(source, catalog) <==> r in catalog && r.source == source
  {
    if catalog != [] {
      var n := |catalog| - 1;
      SourceRowsMember(source, catalog[..n], r);
      assert catalog == catalog[..n] + [catalog[n]];
    }
  }

  lemma {:induction false} RunRowsConcat(source: Text, run: RunId, a: seq<Row>, b: seq<Row>)
    ensures RunRows(source, run, a + b) == RunRows(source, run, a) + RunRows(source, run, b)
  {
    if b == [] {
      assert a + b == a;
    } else {
      var n := |b| - 1;
      assert (a + b)[..|a| + n] == a + b[..n];
      RunRowsConcat(source, run, a, b[..n]);
    }
  }

  lemma {:induction false} RunRowsAll(source: Text, run: RunId, b: seq<Row>)
    requires forall i :: 0 <= i < |b| ==> b[i].source == source && b[i].run == run
    ensures RunRows(source, run, b) == b
  {
    if b != [] {
      RunRowsAll(source, run, b[..|b| - 1]);
    }
  }

  lemma {:induction false} RunRowsNone(source: Text, run: RunId, b: seq<Row>)
    requires forall i :: 0 <= i < |b| ==> b[i].source != source || b[i].run != run
    ensures RunRows(source, run, b) == []
  {
    if b != [] {
      RunRowsNone(source, run, b[..|b| - 1]);
    }
  }
}
