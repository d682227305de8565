/**
 * A run that restores a lost blob, step by step from nothing: one file is ingested, the run is
 * killed once its row has landed, the store loses the blob, and a second run puts it back.
 */
module Witness {
  import opened Domain
  import opened Identity
  import opened Upload
  import opened CatalogState
  import opened Journal
  import opened Process
  import opened World
  import opened UploadedBytes
  import opened Runs
  import P = Pipeline

  const CONTENT: Bytes := [7]
  const FILE: Text := [97]
  const SNAP := Snapshot(1, CONTENT, 0)
  const IO := UploadIO(Some(1), true, [Chunk(CONTENT, true)], Acknowledged, true)

  const POOL := P.Config(1, 1, true)

  function OneByOne(setup: Setup): Engine {
    Engine(setup, POOL)
  }

  function KeyOf(setup: Setup): Text {
    ObjectKey(setup.sha(CONTENT))
  }

  function RowOf(setup: Setup, run: RunId): Row {
    Prepare(setup, run, FILE, SNAP)
  }

  // ---------- one step further ----------

  lemma {:induction false} RunSnoc(g: Engine, w: World, es: seq<Event>, e: Event)
    requires ValidRun(g, w, es) && Enabled(g, Exec(g, w, es), e)
    ensures ValidRun(g, w, es + [e]) && Exec(g, w, es + [e]) == Step(g, Exec(g, w, es), e)
    decreases es
  {
    if es == [] {
      assert [] + [e] == [e] && [e][1..] == [];
    } else {
      RunSnoc(g, Step(g, w, es[0]), es[1..], e);
      assert (es + [e])[1..] == es[1..] + [e];
    }
  }

  /** What can be reached in one more step can be reached. */
  lemma ReachNext(g: Engine, w: World, e: Event)
    requires Reachable(g, w) && Enabled(g, w, e)
    ensures Reachable(g, Step(g, w, e))
  {
    var es :| ValidRun(g, EMPTY_WORLD, es) && Exec(g, EMPTY_WORLD, es) == w;
    RunSnoc(g, EMPTY_WORLD, es, e);
  }

  // ---------- the common part: start, scan, check, upload ----------

  /** Nothing runs, and a run with this identifier can begin. */
  ghost predicate Idling(g: Engine, w: World, run: RunId) {
    Reachable(g, w) && w.live.None? && run !in w.used && run !in w.journals
  }

  /** The run has started on the one file; its stores are as they were. */
  ghost predicate Started1(g: Engine, was: World, w: World, run: RunId) {
    && Reachable(g, w)
    && w.blobs == was.blobs && w.catalog == was.catalog && w.used == was.used + {run}
    && w.journals == was.journals[run := NewJournal(g.setup.source, 1)]
    && w.facts == was.facts[run := Facts([], 0, 0, [Started], None)]
    && w.live == Some(Working(
                        run, Latest(SourceRows(g.setup.source, was.catalog)), |SourceRows(g.setup.source, was.catalog)|,
                        [], Skipped(g.setup.source, was.journals, []), [FILE], P.Init(g.pool, 1), map[],
                        Idle, 0, map[], map[], {}, {}, {}))
  }

  lemma OpenRun(g: Engine, was: World, run: RunId) returns (w: World)
    requires MayBegin(g, was, run, [])
    ensures w == StepBegin(g, was, run, [])
    ensures var rows := SourceRows(g.setup.source, was.catalog);
            w == was.(used := was.used + {run},
                      live := Some(Opening(run, Latest(rows), |rows|, [],
                                           Skipped(g.setup.source, was.journals, []), 0)))
  {
    w := StepBegin(g, was, run, []);
    assert w.live.value.earlier == [];
  }

  lemma StartOne(g: Engine, was: World, run: RunId) returns (w: World)
    requires MayStart(was, [FILE]) && was.live.value.run == run
    ensures w == StepStart(g, was, [FILE], Saved)
    ensures var l := was.live.value;
            w == was.(journals := was.journals[run := NewJournal(g.setup.source, 1)],
                      facts := was.facts[run := Facts([], 0, 0, [Started], None)],
                      live := Some(Working(
                                     run, l.loaded, l.known, l.earlier, l.skipped, [FILE], P.Init(g.pool, 1), map[],
                                     Idle, 0, map[], map[], {}, {}, {})))
  {
    w := StepStart(g, was, [FILE], Saved);
  }

  lemma StartRun(g: Engine, was: World, run: RunId) returns (w: World)
    requires Idling(g, was, run)
    ensures Started1(g, was, w, run)
  {
    ReachNext(g, was, Begin(run, []));
    var opening := OpenRun(g, was, run);
    ReachNext(g, opening, Start([FILE], Saved));
    w := StartOne(g, opening, run);
  }

  /** A step of the one worker that reports nothing and stores nothing. */
  lemma QuietWork(g: Engine, was: World, we: WorkerEvent, before: Worker, after: Worker) returns (w: World)
    requires Reachable(g, was) && was.live.Some? && was.live.value.Working? && was.live.value.files == [FILE]
    requires was.live.value.workers == map[0 := before] && WorkerEnabled(before, we) && !ReportsUpload(after)
    requires WorkerStep(g.setup, was.live.value.run, FILE, was.live.value.loaded, was.blobs, before, we)
          == (after, was.blobs)
    ensures Reachable(g, w) && w == was.(live := Some(was.live.value.(workers := map[0 := after])))
  {
    ReachNext(g, was, Work(0, we));
    w := StepWork(g, was, 0, we);
    QuietStepWork(g, was, we, before, after);
  }

  lemma QuietStepWork(g: Engine, was: World, we: WorkerEvent, before: Worker, after: Worker)
    requires was.live.Some? && was.live.value.Working? && was.live.value.files == [FILE]
    requires was.live.value.workers == map[0 := before] && WorkerEnabled(before, we) && !ReportsUpload(after)
    requires WorkerStep(g.setup, was.live.value.run, FILE, was.live.value.loaded, was.blobs, before, we)
          == (after, was.blobs)
    ensures StepWork(g, was, 0, we) == was.(live := Some(was.live.value.(workers := map[0 := after])))
  {
    var l, l' := was.live.value, StepWork(g, was, 0, we).live.value;
    assert l'.workers == map[0 := after];
    assert was.blobs.Keys - was.blobs.Keys == {};
    assert l'.added == l.added && l'.ambiguous == l.ambiguous;
  }

  /** A step of the pipeline is a step of the engine. */
  lemma PipeWork(g: Engine, was: World, p: P.Event) returns (w: World)
    requires Reachable(g, was) && was.live.Some? && was.live.value.Working? && PipeEnabled(g, was.live.value, p)
    ensures Reachable(g, w) && w == was.(live := Some(StepPipe(g, was.live.value, p)))
  {
    ReachNext(g, was, Pipe(p));
    w := Step(g, was, Pipe(p));
  }

  const SPAWNED := P.Init(POOL, 1).(next := 1, inflight := {0})

  /** The one worker holds `wk`; nothing else has happened in the run. */
  ghost predicate WorkingOn(setup: Setup, start: World, w: World, wk: Worker) {
    && Reachable(OneByOne(setup), w)
    && start.live.Some? && start.live.value.Working? && start.live.value.files == [FILE]
    && w == start.(live := Some(start.live.value.(pipe := SPAWNED, workers := map[0 := wk])))
  }

  lemma SpawnAndScan(setup: Setup, was: World, start: World, run: RunId) returns (w: World)
    requires Started1(OneByOne(setup), was, start, run)
    ensures WorkingOn(setup, start, w, Checking(RowOf(setup, run), 1))
  {
    var g := OneByOne(setup);
    var spawned := PipeWork(g, start, P.Spawn);
    assert {} + {0} == {0};
    assert spawned.live.value.workers == map[0 := Scanning(1)];
    w := QuietWork(g, spawned, Scan(Some(SNAP)), Scanning(1), Checking(RowOf(setup, run), 1));
  }

  /** The worker has stored the blob and reports it. */
  ghost predicate Reported(setup: Setup, start: World, w: World, result: WorkerResult) {
    && Reachable(OneByOne(setup), w)
    && start.live.Some? && start.live.value.Working? && start.live.value.files == [FILE]
    && w == start.(
              blobs := start.blobs[KeyOf(setup) := Obj(CONTENT, Some(setup.sha(CONTENT)))],
              live := Some(start.live.value.(
                             pipe := SPAWNED, workers := map[0 := Finished(result)],
                             uploads := map[0 := KeyOf(setup)], stored := map[0 := 1], added := {KeyOf(setup)})))
  }

  lemma CheckAndUpload(setup: Setup, was: World, start: World, scanned: World, run: RunId)
    returns (w: World, result: WorkerResult)
    requires Started1(OneByOne(setup), was, start, run)
    requires WorkingOn(setup, start, scanned, Checking(RowOf(setup, run), 1))
    requires KeyOf(setup) !in start.blobs
    ensures Reported(setup, start, w, result)
    ensures Finished(result) == OutcomeOf(start.live.value.loaded, RowOf(setup, run), BlobState.Uploaded)
  {
    var row := RowOf(setup, run);
    var checked := QuietWork(OneByOne(setup), scanned, Check(false), Checking(row, 1), Uploading(row, 1));
    w, result := UploadContent(setup, checked, row);
  }

  /** The transfer stores the one byte. */
  lemma UploadContent(setup: Setup, was: World, row: Row) returns (w: World, result: WorkerResult)
    requires Reachable(OneByOne(setup), was) && KeyOf(setup) !in was.blobs
    requires was.live.Some? && was.live.value.Working? && was.live.value.files == [FILE]
    requires was.live.value.workers == map[0 := Uploading(row, 1)]
    requires was.live.value.uploads == map[] && was.live.value.stored == map[] && was.live.value.added == {}
    requires row.hash == setup.sha(CONTENT) && row.size == 1
    ensures Reachable(OneByOne(setup), w)
    ensures Finished(result) == OutcomeOf(was.live.value.loaded, row, BlobState.Uploaded)
    ensures w == was.(
                   blobs := was.blobs[KeyOf(setup) := Obj(CONTENT, Some(setup.sha(CONTENT)))],
                   live := Some(was.live.value.(
                                  workers := map[0 := Finished(result)],
                                  uploads := map[0 := KeyOf(setup)], stored := map[0 := 1], added := {KeyOf(setup)})))
  {
    ReachNext(OneByOne(setup), was, Work(0, Transfer(IO)));
    w := StepWork(OneByOne(setup), was, 0, Transfer(IO));
    result := OutcomeOf(was.live.value.loaded, row, BlobState.Uploaded).result;
    UploadStepWork(setup, was, row, result);
  }

  lemma UploadStepWork(setup: Setup, was: World, row: Row, result: WorkerResult)
    requires KeyOf(setup) !in was.blobs
    requires was.live.Some? && was.live.value.Working? && was.live.value.files == [FILE]
    requires was.live.value.workers == map[0 := Uploading(row, 1)]
    requires was.live.value.uploads == map[] && was.live.value.stored == map[] && was.live.value.added == {}
    requires row.hash == setup.sha(CONTENT) && row.size == 1
    requires Finished(result) == OutcomeOf(was.live.value.loaded, row, BlobState.Uploaded)
    ensures StepWork(OneByOne(setup), was, 0, Transfer(IO))
         == was.(blobs := was.blobs[KeyOf(setup) := Obj(CONTENT, Some(setup.sha(CONTENT)))],
                 live := Some(was.live.value.(
                                workers := map[0 := Finished(result)],
                                uploads := map[0 := KeyOf(setup)], stored := map[0 := 1], added := {KeyOf(setup)})))
  {
    StreamsContent(setup, was.blobs);
    var w := StepWork(OneByOne(setup), was, 0, Transfer(IO));
    var l := w.live.value;
    assert l.workers == map[0 := Finished(result)];
    assert w.blobs.Keys - was.blobs.Keys == {KeyOf(setup)};
    assert ReportsUpload(Finished(result));
    assert BytesUnder(w.blobs, row.hash) == 1;
    assert l.uploads == map[0 := KeyOf(setup)] && l.stored == map[0 := 1];
    assert l.added == {KeyOf(setup)};
  }

  lemma StreamsContent(setup: Setup, blobs: Blobs)
    requires KeyOf(setup) !in blobs
    ensures UploadEffect(setup.sha, blobs, setup.sha(CONTENT), 1, IO)
         == (UploadResult.Uploaded(1), blobs[KeyOf(setup) := Obj(CONTENT, Some(setup.sha(CONTENT)))])
  {
    assert IO.input[0] == Chunk(CONTENT, true) && IO.input[1..] == [];
    assert [] + CONTENT == CONTENT;
    assert Streamed([], IO.input) == Some(CONTENT);
  }

  // ---------- the two runs ----------

  /** The first run is killed when its row has landed. */
  lemma FirstRun(setup: Setup) returns (w: World)
    ensures Idling(OneByOne(setup), w, 1)
    ensures w.catalog == [RowOf(setup, 0)]
  {
    var g := OneByOne(setup);
    assert ValidRun(g, EMPTY_WORLD, []) && Exec(g, EMPTY_WORLD, []) == EMPTY_WORLD;
    var start := StartRun(g, EMPTY_WORLD, 0);
    var scanned := SpawnAndScan(setup, EMPTY_WORLD, start, 0);
    var reported, result := CheckAndUpload(setup, EMPTY_WORLD, start, scanned, 0);
    assert start.live.value.loaded == map[];
    var flushing := HandOver(setup, start, reported, RowOf(setup, 0));
    w := LandAndDie(setup, flushing, RowOf(setup, 0));
  }

  /** Join, send, receive: a batch of one row is full. */
  lemma HandOver(setup: Setup, start: World, reported: World, row: Row) returns (w: World)
    requires Reported(setup, start, reported, Observed(row, BlobState.Uploaded))
    ensures Reachable(OneByOne(setup), w)
    ensures w == reported.(live := w.live) && w.live.Some? && w.live.value.Working?
    ensures w.live.value.run == start.live.value.run && w.live.value.phase == start.live.value.phase
    ensures w.live.value.batches == start.live.value.batches
    ensures w.live.value.pipe.writer == P.Flushing([row], false)
  {
    var g := OneByOne(setup);
    var joined := PipeWork(g, reported, P.Join(0, Observed(row, BlobState.Uploaded)));
    var pipe := joined.live.value.pipe;
    assert pipe.producer == P.Sending(row) && pipe.channel == [] && pipe.writer == P.Receiving([]);
    w := SendAndReceive(setup, joined, row);
  }

  lemma SendAndReceive(setup: Setup, was: World, row: Row) returns (w: World)
    requires Reachable(OneByOne(setup), was) && was.live.Some? && was.live.value.Working?
    requires was.live.value.pipe.producer == P.Sending(row)
    requires was.live.value.pipe.channel == [] && was.live.value.pipe.writer == P.Receiving([])
    ensures Reachable(OneByOne(setup), w)
    ensures w == was.(live := w.live) && w.live.Some? && w.live.value.Working?
    ensures w.live.value == was.live.value.(pipe := w.live.value.pipe)
    ensures w.live.value.pipe.writer == P.Flushing([row], false)
  {
    var sent := PipeWork(OneByOne(setup), was, P.Send);
    assert sent.live.value.pipe.channel == [row] && sent.live.value.pipe.writer == P.Receiving([]);
    w := PipeWork(OneByOne(setup), sent, P.Receive);
    assert [] + [row] == [row];
  }

  /** The batch is appended, and the run is killed before it hears of it. */
  lemma LandAndDie(setup: Setup, flushing: World, row: Row) returns (w: World)
    requires Reachable(OneByOne(setup), flushing)
    requires flushing.live.Some? && flushing.live.value.Working? && flushing.live.value.run == 0
    requires flushing.live.value.phase == Idle && flushing.live.value.pipe.writer == P.Flushing([row], false)
    requires flushing.catalog == [] && flushing.used == {0} && flushing.journals.Keys == {0}
    requires flushing.facts == map[0 := Facts([], 0, 0, [Started], None)]
    ensures Idling(OneByOne(setup), w, 1) && w.catalog == [row]
  {
    var recorded := RecordOne(setup, flushing, row);
    var landed := LandOne(setup, recorded, row);
    ReachNext(OneByOne(setup), landed, Crash);
    w := Step(OneByOne(setup), landed, Crash);
  }

  lemma RecordOne(setup: Setup, was: World, row: Row) returns (w: World)
    requires Reachable(OneByOne(setup), was)
    requires was.live.Some? && was.live.value.Working? && was.live.value.run == 0 && was.live.value.phase == Idle
    requires was.live.value.pipe.writer == P.Flushing([row], false)
    requires was.facts == map[0 := Facts([], 0, 0, [Started], None)] && was.journals.Keys == {0}
    ensures Reachable(OneByOne(setup), w)
    ensures w.catalog == was.catalog && w.used == was.used && w.journals.Keys == {0}
    ensures w.live.Some? && w.live.value.Working? && w.live.value.run == 0
    ensures w.facts.Keys == {0} && w.facts[0].attempted == [[row]] && w.facts[0].applied == 0
  {
    ReachNext(OneByOne(setup), was, Record(Saved));
    w := Step(OneByOne(setup), was, Record(Saved));
    assert [] + [[row]] == [[row]];
  }

  lemma LandOne(setup: Setup, was: World, row: Row) returns (w: World)
    requires Reachable(OneByOne(setup), was) && was.catalog == []
    requires was.live.Some? && was.live.value.Working? && was.live.value.run == 0
    requires was.facts.Keys == {0} && was.facts[0].attempted == [[row]] && was.facts[0].applied == 0
    ensures Reachable(OneByOne(setup), w)
    ensures w.catalog == [row] && w.used == was.used && w.journals == was.journals && w.live == was.live
  {
    ReachNext(OneByOne(setup), was, Land);
    w := Step(OneByOne(setup), was, Land);
    assert [] + [row] == [row];
  }

  /** The store loses the blob. */
  lemma LoseTheBlob(setup: Setup, was: World) returns (w: World)
    requires Idling(OneByOne(setup), was, 1)
    ensures Idling(OneByOne(setup), w, 1) && w.catalog == was.catalog && KeyOf(setup) !in w.blobs
  {
    ReachNext(OneByOne(setup), was, Lose({KeyOf(setup)}));
    w := Step(OneByOne(setup), was, Lose({KeyOf(setup)}));
  }

  /**
   * A reachable state in which a restored blob has bytes: the run uploaded one byte, and its
   * `bytes` is zero.
   */
  lemma RestoredBlobIsNotCounted(setup: Setup) returns (w: World)
    ensures ValidEngine(OneByOne(setup)) && Reachable(OneByOne(setup), w)
    ensures w.live.Some? && w.live.value.Working?
    ensures w.live.value.pipe.log == [P.Joined(0, WorkerResult.Unchanged(BlobState.Uploaded))]
    ensures w.live.value.pipe.counts.uploaded == 1 && w.live.value.pipe.counts.bytes == 0
    ensures UploadBytes(w.live.value.pipe.log, w.live.value.stored) == 1
  {
    var g := OneByOne(setup);
    var first := FirstRun(setup);
    var lost := LoseTheBlob(setup, first);
    var start := StartRun(g, lost, 1);
    var scanned := SpawnAndScan(setup, lost, start, 1);
    var reported, result := CheckAndUpload(setup, lost, start, scanned, 1);
    KnownAfterFirstRun(setup);
    assert result == WorkerResult.Unchanged(BlobState.Uploaded);
    w := JoinRestored(setup, start, reported);
  }

  lemma JoinRestored(setup: Setup, start: World, reported: World) returns (w: World)
    requires Reported(setup, start, reported, WorkerResult.Unchanged(BlobState.Uploaded))
    ensures Reachable(OneByOne(setup), w) && w.live.Some? && w.live.value.Working?
    ensures w.live.value.pipe.log == [P.Joined(0, WorkerResult.Unchanged(BlobState.Uploaded))]
    ensures w.live.value.pipe.counts.uploaded == 1 && w.live.value.pipe.counts.bytes == 0
    ensures UploadBytes(w.live.value.pipe.log, w.live.value.stored) == 1
  {
    var result := WorkerResult.Unchanged(BlobState.Uploaded);
    assert P.Enabled(POOL, SPAWNED, P.Join(0, result));
    w := PipeWork(OneByOne(setup), reported, P.Join(0, result));
    RestoredTally();
    assert w.live.value.pipe == P.Step(POOL, SPAWNED, P.Join(0, result)) && w.live.value.stored == map[0 := 1];
  }

  lemma RestoredTally()
    ensures var result := WorkerResult.Unchanged(BlobState.Uploaded);
            var s := P.Step(POOL, SPAWNED, P.Join(0, result));
            && s.log == [P.Joined(0, result)] && s.counts.uploaded == 1 && s.counts.bytes == 0
            && UploadBytes(s.log, map[0 := 1]) == 1
  {
    var result := WorkerResult.Unchanged(BlobState.Uploaded);
    var log := [P.Joined(0, result)];
    assert P.Step(POOL, SPAWNED, P.Join(0, result)).log == log && log[..0] == [];
    assert UploadBytes([], map[0 := 1]) == 0;
  }

  lemma KnownAfterFirstRun(setup: Setup)
    ensures var row := RowOf(setup, 0);
            Decide(Latest(SourceRows(setup.source, [row])), FILE, setup.sha(CONTENT)) == PathDecision.Unchanged
  {
    var row := RowOf(setup, 0);
    assert [row][..0] == [] && SourceRows(setup.source, []) == [];
    assert SourceRows(setup.source, [row]) == [row];
    assert Latest([]) == map[] && Latest([row]) == CatalogState.Insert(map[], row);
  }
}
