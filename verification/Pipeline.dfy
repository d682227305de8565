/**
 * The bounded ingest pipeline: a producer with at most `concurrency` worker tasks, a channel of
 * capacity `batchSize`, and a writer that commits every `batchSize` rows and stops the run at the
 * first failed commit.
 *
 * `Step` is one indivisible piece of work between two await points. Workers finish in any order
 * with any result, and every commit may succeed or fail.
 */
module Pipeline {
  import opened Domain
  import opened Seqs

  datatype Config = Config(concurrency: nat, batchSize: nat, commits: bool)

  // Both bounds are non-zero by type in the original.
  predicate ValidConfig(cfg: Config) {
    cfg.concurrency > 0 && cfg.batchSize > 0
  }

  /** A task index (position in the candidate list) with what its worker returned. */
  datatype Joined = Joined(task: nat, result: WorkerResult)

  datatype Producer =
    | Filling
    | Sending(row: Row)  // suspended in the channel send, holding a row
    | Closed             // finished; the channel is closed

  datatype Writer =
    | Receiving(batch: seq<Row>)
    | Flushing(batch: seq<Row>, tail: bool)  // suspended in a commit
    | Broken(batch: seq<Row>)                // this batch failed; the receiver is dropped
    | Ended

  /** The last four fields record the past: join order, rows sent, rows refused, batches acknowledged. */
  datatype State = State(
    total: nat,
    next: nat,
    inflight: set<nat>,
    producer: Producer,
    channel: seq<Row>,
    writer: Writer,
    stop: bool,
    counts: IngestCounts,
    errors: seq<nat>,
    commit: CommitCounts,
    log: seq<Joined>,
    sent: seq<Row>,
    lost: seq<Row>,
    batches: seq<seq<Row>>)

  datatype Event =
    | Spawn
    | Join(task: nat, result: WorkerResult)
    | Send
    | SendFails
    | Close
    | Receive
    | Drain       // the channel is closed and empty
    | CommitOk
    | CommitFails

  function Init(cfg: Config, total: nat): State {
    State(total, 0, {}, Filling, [], if cfg.commits then Receiving([]) else Ended, false,
          NO_COUNTS, [], NO_COMMITS, [], [], [], [])
  }

  predicate CanSpawn(cfg: Config, s: State) {
    && s.producer.Filling?
    && |s.inflight| < cfg.concurrency
    && !s.stop
    && s.next < s.total
  }

  predicate Enabled(cfg: Config, s: State, e: Event) {
    match e
    case Spawn => CanSpawn(cfg, s)
    case Join(t, _) => s.producer.Filling? && !CanSpawn(cfg, s) && t in s.inflight
    case Close => s.producer.Filling? && !CanSpawn(cfg, s) && s.inflight == {}
    case Send => s.producer.Sending? && !s.writer.Broken? && |s.channel| < cfg.batchSize
    case SendFails => s.producer.Sending? && s.writer.Broken?
    case Receive => s.writer.Receiving? && s.channel != []
    case Drain => s.writer.Receiving? && s.channel == [] && s.producer.Closed?
    case CommitOk => s.writer.Flushing?
    case CommitFails => s.writer.Flushing?
  }

  predicate Final(s: State) {
    s.producer.Closed? && (s.writer.Broken? || s.writer.Ended?)
  }

  /** Candidates no task was started for. */
  function Pending(s: State): nat {
    if s.next <= s.total then s.total - s.next else 0
  }

  /** Fold one outcome into the counts. */
  function Tally(counts: IngestCounts, result: WorkerResult): IngestCounts {
    match result
    case Observed(row, Uploaded) =>
      counts.(observed := counts.observed + 1, bytes := counts.bytes + row.size, uploaded := counts.uploaded + 1)
    case Observed(row, Existing) =>
      counts.(observed := counts.observed + 1, alreadyExists := counts.alreadyExists + 1)
    case Unchanged(Uploaded) =>
      counts.(kept := counts.kept + 1, uploaded := counts.uploaded + 1)
    case Unchanged(Existing) =>
      counts.(kept := counts.kept + 1, alreadyExists := counts.alreadyExists + 1)
    case Failed => counts
    case Panicked => counts
  }

  function Step(cfg: Config, s: State, e: Event): State
    requires Enabled(cfg, s, e)
  {
    match e
    case Spawn => s.(next := s.next + 1, inflight := s.inflight + {s.next})
    case Join(t, r) =>
      s.(inflight := s.inflight - {t},
         log := s.log + [Joined(t, r)],
         counts := Tally(s.counts, r),
         errors := if r.Failed? || r.Panicked? then s.errors + [t] else s.errors,
         producer := if r.Observed? && cfg.commits then Sending(r.row) else Filling)
    case Send => s.(producer := Filling, channel := s.channel + [s.producer.row], sent := s.sent + [s.producer.row])
    case SendFails => s.(producer := Filling, lost := s.lost + [s.producer.row])
    case Close => s.(producer := Closed, counts := s.counts.(skipped := Pending(s)))
    case Receive =>
      var batch := s.writer.batch + [s.channel[0]];
      s.(channel := s.channel[1..],
         writer := if |batch| >= cfg.batchSize then Flushing(batch, false) else Receiving(batch))
    case Drain => s.(writer := if s.writer.batch == [] then Ended else Flushing(s.writer.batch, true))
    case CommitOk =>
      s.(writer := if s.writer.tail then Ended else Receiving([]),
         batches := s.batches + [s.writer.batch],
         commit := s.commit.(committed := s.commit.committed + |s.writer.batch|,
                             batchesCommitted := s.commit.batchesCommitted + 1))
    case CommitFails =>
      s.(writer := Broken(s.writer.batch),
         stop := true,
         commit := s.commit.(batchesFailed := s.commit.batchesFailed + 1))
  }

  // ---------- what the counters mean ----------

  datatype Kind = IsObserved | IsUnchanged | IsError | IsUploaded | IsExisting

  predicate Is(r: WorkerResult, k: Kind) {
    match k
    case IsObserved => r.Observed?
    case IsUnchanged => r.Unchanged?
    case IsError => r.Failed? || r.Panicked?
    case IsUploaded => (r.Observed? && r.blob == Uploaded) || (r.Unchanged? && r.blob == Uploaded)
    case IsExisting => (r.Observed? && r.blob == Existing) || (r.Unchanged? && r.blob == Existing)
  }

  /** How many joined results are of kind `k`. */
  ghost function Count(log: seq<Joined>, k: Kind): nat {
    if log == [] then 0
    else Count(log[..|log| - 1], k) + if Is(log[|log| - 1].result, k) then 1 else 0
  }

  /** The rows the joined results carry, in join order. */
  ghost function Rows(log: seq<Joined>): seq<Row> {
    if log == [] then []
    else
      var r := log[|log| - 1].result;
      Rows(log[..|log| - 1]) + if r.Observed? then [r.row] else []
  }

  /** The files whose workers failed or panicked, in join order. */
  ghost function FailedTasks(log: seq<Joined>): seq<nat> {
    if log == [] then []
    else
      var j := log[|log| - 1];
      FailedTasks(log[..|log| - 1]) + if Is(j.result, IsError) then [j.task] else []
  }

  /** Bytes of the rows that were both observed and uploaded. */
  ghost function TransferredBytes(log: seq<Joined>): nat {
    if log == [] then 0
    else
      var r := log[|log| - 1].result;
      TransferredBytes(log[..|log| - 1]) + if r.Observed? && r.blob == Uploaded then r.row.size else 0
  }

  lemma LogSnoc(log: seq<Joined>, j: Joined)
    ensures (log + [j])[..|log|] == log
    ensures forall k :: Count(log + [j], k) == Count(log, k) + if Is(j.result, k) then 1 else 0
    ensures Rows(log + [j]) == Rows(log) + if j.result.Observed? then [j.result.row] else []
    ensures FailedTasks(log + [j]) == FailedTasks(log) + if Is(j.result, IsError) then [j.task] else []
    ensures TransferredBytes(log + [j]) ==
            TransferredBytes(log) + if j.result.Observed? && j.result.blob == Uploaded then j.result.row.size else 0
  {
    assert (log + [j])[..|log|] == log;
  }

  /** The path axis and the blob axis each split the joined results. */
  lemma {:induction false} AxesPartitionTheLog(log: seq<Joined>)
    ensures Count(log, IsObserved) + Count(log, IsUnchanged) + Count(log, IsError) == |log|
    ensures Count(log, IsUploaded) + Count(log, IsExisting) == Count(log, IsObserved) + Count(log, IsUnchanged)
    ensures |Rows(log)| == Count(log, IsObserved)
    ensures |FailedTasks(log)| == Count(log, IsError)
  {
    if log != [] {
      AxesPartitionTheLog(log[..|log| - 1]);
    }
  }

  /** Exactly the files whose workers were joined as failed or panicked are named. */
  lemma {:induction false} FailedTasksAreTheErrors(log: seq<Joined>, t: nat)
    ensures t in FailedTasks(log) <==> exists k :: 0 <= k < |log| && log[k].task == t && Is(log[k].result, IsError)
  {
    if log != [] {
      var n := |log| - 1;
      FailedTasksAreTheErrors(log[..n], t);
      assert forall k :: 0 <= k < n ==> log[..n][k] == log[k];
    }
  }

  lemma {:induction false} FailedTasksTell(log: seq<Joined>)
    ensures FailedTasks(log) != [] <==> exists k :: 0 <= k < |log| && Is(log[k].result, IsError)
  {
    if log != [] {
      var n := |log| - 1;
      FailedTasksTell(log[..n]);
      assert forall k :: 0 <= k < n ==> log[..n][k] == log[k];
    }
  }

  lemma {:induction false} FailedTasksAreDistinct(log: seq<Joined>)
    requires forall j, k :: 0 <= j < k < |log| ==> log[j].task != log[k].task
    ensures forall i, j :: 0 <= i < j < |FailedTasks(log)| ==> FailedTasks(log)[i] != FailedTasks(log)[j]
  {
    if log != [] {
      var n := |log| - 1;
      FailedTasksAreDistinct(log[..n]);
      FailedTasksAreTheErrors(log[..n], log[n].task);
    }
  }

  /** The errors name each failed task once, and no other. */
  ghost predicate NamesTheFailures(s: State) {
    && (forall i, j :: 0 <= i < j < |s.errors| ==> s.errors[i] != s.errors[j])
    && (forall t :: t in s.errors ==> t < s.total)
    && (forall t :: t in s.errors <==>
          exists k :: 0 <= k < |s.log| && s.log[k].task == t && (s.log[k].result.Failed? || s.log[k].result.Panicked?))
  }

  lemma ErrorsNameTheFailures(cfg: Config, s: State)
    requires Inv(cfg, s)
    ensures NamesTheFailures(s)
  {
    FailedTasksAreDistinct(s.log);
    forall t
      ensures t in s.errors <==>
              exists k :: 0 <= k < |s.log| && s.log[k].task == t
                          && (s.log[k].result.Failed? || s.log[k].result.Panicked?)
    {
      FailedTasksAreTheErrors(s.log, t);
    }
  }

  // ---------- the invariant ----------

  function Held(s: State): seq<Row> {
    if s.producer.Sending? then [s.producer.row] else []
  }

  function Batch(w: Writer): seq<Row> {
    if w.Ended? then [] else w.batch
  }

  ghost predicate TasksOk(cfg: Config, s: State) {
    && s.next <= s.total
    && (forall t :: t in s.inflight ==> t < s.next)
    && |s.inflight| <= cfg.concurrency
    && (s.producer.Closed? ==> s.inflight == {} && (s.stop || s.next == s.total))
    && |s.log| + |s.inflight| == s.next
    && (forall k :: 0 <= k < |s.log| ==> s.log[k].task < s.next && s.log[k].task !in s.inflight)
    && (forall j, k :: 0 <= j < k < |s.log| ==> s.log[j].task != s.log[k].task)
    && (forall t :: 0 <= t < s.next ==> t in s.inflight || InLog(s.log, t))
  }

  ghost predicate InLog(log: seq<Joined>, t: nat) {
    exists k :: 0 <= k < |log| && log[k].task == t
  }

  ghost predicate CountsOk(s: State) {
    && s.counts == IngestCounts(
                     0,
                     Count(s.log, IsObserved),
                     Count(s.log, IsUnchanged),
                     Count(s.log, IsUploaded),
                     Count(s.log, IsExisting),
                     TransferredBytes(s.log),
                     if s.producer.Closed? then Pending(s) else 0)
    && s.errors == FailedTasks(s.log)
  }

  /** Where every observed row is, when rows are going to be committed. */
  ghost predicate RowsOk(cfg: Config, s: State) {
    && Rows(s.log) == s.sent + s.lost + Held(s)
    && s.sent == Flatten(s.batches) + Batch(s.writer) + s.channel
    && (s.lost != [] ==> s.writer.Broken?)
    && |s.channel| <= cfg.batchSize
    && |s.lost| + |Held(s)| + |s.inflight| <= cfg.concurrency
  }

  ghost predicate WriterOk(cfg: Config, s: State) {
    && (s.stop <==> s.writer.Broken?)
    && s.commit == CommitCounts(|Flatten(s.batches)|, |s.batches|, if s.writer.Broken? then 1 else 0)
    && (s.writer.Receiving? ==> |s.writer.batch| < cfg.batchSize)
    && (s.writer.Flushing? || s.writer.Broken? ==> 0 < |s.writer.batch| <= cfg.batchSize)
    && (s.writer.Flushing? ==>
          if s.writer.tail then s.producer.Closed? && s.channel == []
          else |s.writer.batch| == cfg.batchSize)
    && (s.writer.Broken? && |s.writer.batch| < cfg.batchSize ==> s.producer.Closed? && s.channel == [])
    && (s.writer.Ended? ==> s.channel == [] && (cfg.commits ==> s.producer.Closed?))
    && (forall i :: 0 <= i < |s.batches| ==> 0 < |s.batches[i]| <= cfg.batchSize)
    && (forall i :: 0 <= i < |s.batches| && |s.batches[i]| < cfg.batchSize ==> i == |s.batches| - 1 && s.writer.Ended?)
  }

  ghost predicate Inv(cfg: Config, s: State) {
    && TasksOk(cfg, s)
    && CountsOk(s)
    && WriterOk(cfg, s)
    && (if cfg.commits then RowsOk(cfg, s) else PreviewOk(s))
  }

  /** Without a committer there is no channel: rows are counted and dropped. */
  predicate PreviewOk(s: State) {
    !s.producer.Sending? && s.writer.Ended? && s.sent == [] && s.batches == []
  }

  lemma InitInv(cfg: Config, total: nat)
    requires ValidConfig(cfg)
    ensures Inv(cfg, Init(cfg, total))
  {}

  lemma SpawnTasks(cfg: Config, s: State)
    requires TasksOk(cfg, s) && CanSpawn(cfg, s)
    ensures TasksOk(cfg, Step(cfg, s, Spawn))
  {
    assert s.next !in s.inflight;
    assert |s.inflight + {s.next}| == |s.inflight| + 1;
  }

  lemma JoinTasks(cfg: Config, s: State, t: nat, r: WorkerResult)
    requires TasksOk(cfg, s) && Enabled(cfg, s, Join(t, r))
    ensures TasksOk(cfg, Step(cfg, s, Join(t, r)))
    ensures |s.inflight| == |s.inflight - {t}| + 1
  {
    var s' := Step(cfg, s, Join(t, r));
    assert s'.log == s.log + [Joined(t, r)];
    assert s'.log[|s.log|].task == t;
    forall u | 0 <= u < s'.next ensures u in s'.inflight || InLog(s'.log, u) {
      if u != t && u !in s.inflight {
        var k :| 0 <= k < |s.log| && s.log[k].task == u;
        assert s'.log[k].task == u;
      }
    }
  }

  lemma TasksStep(cfg: Config, s: State, e: Event)
    requires ValidConfig(cfg) && TasksOk(cfg, s) && WriterOk(cfg, s) && Enabled(cfg, s, e)
    ensures TasksOk(cfg, Step(cfg, s, e))
  {
    match e {
      case Spawn => SpawnTasks(cfg, s);
      case Join(t, r) => JoinTasks(cfg, s, t, r);
      case Close =>
      case Send =>
      case SendFails =>
      case Receive =>
      case Drain =>
      case CommitOk =>
      case CommitFails =>
    }
  }

  lemma JoinRows(cfg: Config, s: State, t: nat, r: WorkerResult)
    requires TasksOk(cfg, s) && RowsOk(cfg, s) && Enabled(cfg, s, Join(t, r)) && cfg.commits
    ensures RowsOk(cfg, Step(cfg, s, Join(t, r)))
  {
    LogSnoc(s.log, Joined(t, r));
    JoinTasks(cfg, s, t, r);
  }

  lemma ReceiveRows(cfg: Config, s: State)
    requires RowsOk(cfg, s) && Enabled(cfg, s, Receive)
    ensures RowsOk(cfg, Step(cfg, s, Receive))
  {
    var s' := Step(cfg, s, Receive);
    assert s.channel == [s.channel[0]] + s'.channel;
    assert Batch(s'.writer) == Batch(s.writer) + [s.channel[0]];
  }

  lemma CommitRows(cfg: Config, s: State)
    requires RowsOk(cfg, s) && Enabled(cfg, s, CommitOk)
    ensures RowsOk(cfg, Step(cfg, s, CommitOk))
  {
    FlattenSnoc(s.batches, s.writer.batch);
  }

  lemma SpawnRows(cfg: Config, s: State)
    requires TasksOk(cfg, s) && RowsOk(cfg, s) && WriterOk(cfg, s) && CanSpawn(cfg, s)
    ensures RowsOk(cfg, Step(cfg, s, Spawn))
  {
    assert |s.inflight + {s.next}| == |s.inflight| + 1;
  }

  lemma SendRows(cfg: Config, s: State, e: Event)
    requires WriterOk(cfg, s) && RowsOk(cfg, s) && Enabled(cfg, s, e) && (e.Send? || e.SendFails?)
    ensures RowsOk(cfg, Step(cfg, s, e))
  {}

  lemma OtherRows(cfg: Config, s: State, e: Event)
    requires WriterOk(cfg, s) && RowsOk(cfg, s) && Enabled(cfg, s, e) && (e.Close? || e.Drain? || e.CommitFails?)
    ensures RowsOk(cfg, Step(cfg, s, e))
  {}

  lemma RowsStep(cfg: Config, s: State, e: Event)
    requires TasksOk(cfg, s) && WriterOk(cfg, s) && RowsOk(cfg, s) && Enabled(cfg, s, e) && cfg.commits
    ensures RowsOk(cfg, Step(cfg, s, e))
  {
    if e.Spawn? {
      SpawnRows(cfg, s);
    } else if e.Join? {
      JoinRows(cfg, s, e.task, e.result);
    } else if e.Receive? {
      ReceiveRows(cfg, s);
    } else if e.CommitOk? {
      CommitRows(cfg, s);
    } else if e.Send? || e.SendFails? {
      SendRows(cfg, s, e);
    } else {
      OtherRows(cfg, s, e);
    }
  }

  lemma CommitOkWriter(cfg: Config, s: State)
    requires ValidConfig(cfg) && WriterOk(cfg, s) && Enabled(cfg, s, CommitOk)
    ensures WriterOk(cfg, Step(cfg, s, CommitOk))
  {
    FlattenSnoc(s.batches, s.writer.batch);
  }

  lemma CommitFailsWriter(cfg: Config, s: State)
    requires WriterOk(cfg, s) && Enabled(cfg, s, CommitFails)
    ensures WriterOk(cfg, Step(cfg, s, CommitFails))
  {}

  lemma ReceiveWriter(cfg: Config, s: State)
    requires ValidConfig(cfg) && WriterOk(cfg, s) && Enabled(cfg, s, Receive)
    ensures WriterOk(cfg, Step(cfg, s, Receive))
  {}

  lemma DrainWriter(cfg: Config, s: State)
    requires WriterOk(cfg, s) && Enabled(cfg, s, Drain)
    ensures WriterOk(cfg, Step(cfg, s, Drain))
  {}

  lemma ProducerKeepsWriter(cfg: Config, s: State, e: Event)
    requires WriterOk(cfg, s) && (if cfg.commits then RowsOk(cfg, s) else PreviewOk(s)) && Enabled(cfg, s, e)
    requires e.Spawn? || e.Join? || e.Close? || e.Send? || e.SendFails?
    ensures WriterOk(cfg, Step(cfg, s, e))
  {}

  lemma WriterStep(cfg: Config, s: State, e: Event)
    requires ValidConfig(cfg) && Inv(cfg, s) && Enabled(cfg, s, e)
    ensures WriterOk(cfg, Step(cfg, s, e))
  {
    if e.CommitOk? {
      CommitOkWriter(cfg, s);
    } else if e.CommitFails? {
      CommitFailsWriter(cfg, s);
    } else if e.Receive? {
      ReceiveWriter(cfg, s);
    } else if e.Drain? {
      DrainWriter(cfg, s);
    } else {
      ProducerKeepsWriter(cfg, s, e);
    }
  }

  function One(b: bool): nat {
    if b then 1 else 0
  }

  /** Folding one outcome adds it to the counters of its kinds. */
  lemma TallyAdds(c: IngestCounts, r: WorkerResult)
    ensures Tally(c, r) ==
            IngestCounts(
              c.candidates,
              c.observed + One(Is(r, IsObserved)), c.kept + One(Is(r, IsUnchanged)),
              c.uploaded + One(Is(r, IsUploaded)), c.alreadyExists + One(Is(r, IsExisting)),
              c.bytes + (if r.Observed? && r.blob == Uploaded then r.row.size else 0),
              c.skipped)
  {}

  lemma JoinCounts(cfg: Config, s: State, t: nat, r: WorkerResult)
    requires CountsOk(s) && Enabled(cfg, s, Join(t, r))
    ensures CountsOk(Step(cfg, s, Join(t, r)))
  {
    LogSnoc(s.log, Joined(t, r));
    TallyAdds(s.counts, r);
  }

  lemma CountsStep(cfg: Config, s: State, e: Event)
    requires CountsOk(s) && Enabled(cfg, s, e)
    ensures CountsOk(Step(cfg, s, e))
  {
    if e.Join? {
      JoinCounts(cfg, s, e.task, e.result);
    }
  }

  lemma PreviewStep(cfg: Config, s: State, e: Event)
    requires PreviewOk(s) && Enabled(cfg, s, e) && !cfg.commits
    ensures PreviewOk(Step(cfg, s, e))
  {}

  /** Every step of every interleaving keeps the invariant. */
  lemma StepInv(cfg: Config, s: State, e: Event)
    requires ValidConfig(cfg) && Inv(cfg, s) && Enabled(cfg, s, e)
    ensures Inv(cfg, Step(cfg, s, e))
  {
    TasksStep(cfg, s, e);
    CountsStep(cfg, s, e);
    WriterStep(cfg, s, e);
    if cfg.commits {
      RowsStep(cfg, s, e);
    } else {
      PreviewStep(cfg, s, e);
    }
  }

  // ---------- whole runs ----------

  ghost predicate ValidRun(cfg: Config, s: State, es: seq<Event>)
    decreases es
  {
    es == [] || (Enabled(cfg, s, es[0]) && ValidRun(cfg, Step(cfg, s, es[0]), es[1..]))
  }

  ghost function Exec(cfg: Config, s: State, es: seq<Event>): State
    requires ValidRun(cfg, s, es)
    decreases es
  {
    if es == [] then s else Exec(cfg, Step(cfg, s, es[0]), es[1..])
  }

  /**
   * How much work is left. A file loses weight each time it moves on: pending, in flight, held,
   * queued, batched, committed.
   */
  function Measure(s: State): nat {
    6 * Pending(s) + 5 * |s.inflight| + 4 * |Held(s)| + 3 * |s.channel| + 2 * |Batch(s.writer)|
    + (if s.producer.Closed? then 0 else 1)
    + (match s.writer case Receiving(_) => 2 case Flushing(_, _) => 1 case _ => 0)
  }

  lemma SpawnDecreases(cfg: Config, s: State)
    requires TasksOk(cfg, s) && CanSpawn(cfg, s)
    ensures Measure(Step(cfg, s, Spawn)) < Measure(s)
  {
    assert |s.inflight + {s.next}| == |s.inflight| + 1;
  }

  lemma JoinDecreases(cfg: Config, s: State, t: nat, r: WorkerResult)
    requires TasksOk(cfg, s) && Enabled(cfg, s, Join(t, r))
    ensures Measure(Step(cfg, s, Join(t, r))) < Measure(s)
  {
    JoinTasks(cfg, s, t, r);
  }

  lemma ProducerDecreases(cfg: Config, s: State, e: Event)
    requires Enabled(cfg, s, e) && (e.Close? || e.Send? || e.SendFails?)
    ensures Measure(Step(cfg, s, e)) < Measure(s)
  {}

  lemma ReceiveDecreases(cfg: Config, s: State)
    requires Enabled(cfg, s, Receive)
    ensures Measure(Step(cfg, s, Receive)) < Measure(s)
  {}

  lemma WriterDecreases(cfg: Config, s: State, e: Event)
    requires WriterOk(cfg, s) && Enabled(cfg, s, e) && (e.Drain? || e.CommitOk? || e.CommitFails?)
    ensures Measure(Step(cfg, s, e)) < Measure(s)
  {}

  /** Every step makes progress, so no run is infinite. */
  lemma StepDecreasesMeasure(cfg: Config, s: State, e: Event)
    requires ValidConfig(cfg) && Inv(cfg, s) && Enabled(cfg, s, e)
    ensures Measure(Step(cfg, s, e)) < Measure(s)
  {
    if e.Spawn? {
      SpawnDecreases(cfg, s);
    } else if e.Join? {
      JoinDecreases(cfg, s, e.task, e.result);
    } else if e.Receive? {
      ReceiveDecreases(cfg, s);
    } else if e.Drain? || e.CommitOk? || e.CommitFails? {
      WriterDecreases(cfg, s, e);
    } else {
      ProducerDecreases(cfg, s, e);
    }
  }

  /** A state that is not final has an enabled step, whatever the worker of a join returns. */
  lemma NoDeadlock(cfg: Config, s: State, r: WorkerResult)
    requires ValidConfig(cfg) && Inv(cfg, s) && !Final(s)
    ensures exists e :: Enabled(cfg, s, e) && (e.Join? ==> e.result == r)
  {
    if s.producer.Filling? {
      if CanSpawn(cfg, s) {
        assert Enabled(cfg, s, Spawn);
      } else if s.inflight == {} {
        assert Enabled(cfg, s, Close);
      } else {
        var t :| t in s.inflight;
        assert Enabled(cfg, s, Join(t, r));
      }
    } else if s.writer.Flushing? {
      assert Enabled(cfg, s, CommitOk);
    } else if s.producer.Closed? {
      assert Enabled(cfg, s, if s.channel == [] then Drain else Receive);
    } else if s.writer.Broken? {
      assert Enabled(cfg, s, SendFails);
    } else {
      assert s.writer.Receiving?;
      assert Enabled(cfg, s, if s.channel == [] then Send else Receive);
    }
  }

  /**
   * Nothing waits without need: a finished task is joined only when the pool is full or no file may
   * be started, and a send waits only when the channel holds a whole batch.
   */
  lemma WaitsOnlyWhenItMust(cfg: Config, s: State, t: nat, r: WorkerResult)
    requires Inv(cfg, s)
    ensures Enabled(cfg, s, Join(t, r)) ==> |s.inflight| == cfg.concurrency || s.writer.Broken? || s.next == s.total
    ensures s.producer.Sending? && !Enabled(cfg, s, Send) && !Enabled(cfg, s, SendFails) && cfg.commits ==>
              |s.channel| == cfg.batchSize
  {}

  /** Every run keeps the invariant and has at most `Measure` steps left. */
  lemma {:induction false} RunInv(cfg: Config, s: State, es: seq<Event>)
    requires ValidConfig(cfg) && Inv(cfg, s) && ValidRun(cfg, s, es)
    ensures Inv(cfg, Exec(cfg, s, es))
    ensures |es| + Measure(Exec(cfg, s, es)) <= Measure(s)
    decreases es
  {
    if es != [] {
      StepInv(cfg, s, es[0]);
      StepDecreasesMeasure(cfg, s, es[0]);
      RunInv(cfg, Step(cfg, s, es[0]), es[1..]);
    }
  }

  /**
   * Bounded memory and bounded loss: rows in flight, held, queued, batched or dropped never
   * exceed two batches plus the worker bound, in every state of every run.
   */
  lemma BoundedLoss(cfg: Config, s: State)
    requires ValidConfig(cfg) && Inv(cfg, s) && cfg.commits
    ensures s.counts.observed + |s.inflight| <= s.commit.committed + 2 * cfg.batchSize + cfg.concurrency
    ensures |s.inflight| + |Held(s)| + |s.channel| + |Batch(s.writer)| <= 2 * cfg.batchSize + cfg.concurrency
  {
    AxesPartitionTheLog(s.log);
  }

  /** After a failed commit no file starts, nothing is sent, and no commit follows. */
  lemma {:induction false} NothingAfterFailure(cfg: Config, s: State, es: seq<Event>)
    requires ValidConfig(cfg) && Inv(cfg, s) && s.writer.Broken? && ValidRun(cfg, s, es)
    ensures var s' := Exec(cfg, s, es);
            && s'.next == s.next && s'.writer == s.writer && s'.channel == s.channel && s'.stop
            && s'.sent == s.sent && s'.batches == s.batches && s'.commit == s.commit
    decreases es
  {
    if es != [] {
      StepInv(cfg, s, es[0]);
      NothingAfterFailure(cfg, Step(cfg, s, es[0]), es[1..]);
    }
  }

  /** Every candidate is observed, unchanged, failed or skipped; the two axes agree on the rest. */
  lemma Conservation(cfg: Config, s: State)
    requires Inv(cfg, s) && Final(s)
    ensures s.counts.observed + s.counts.kept + |s.errors| + s.counts.skipped == s.total
    ensures s.counts.uploaded + s.counts.alreadyExists == s.counts.observed + s.counts.kept
    ensures s.counts.bytes == TransferredBytes(s.log)
    ensures s.counts.skipped > 0 ==> s.writer.Broken?
    ensures !cfg.commits ==> s.commit == NO_COMMITS && s.counts.skipped == 0
  {
    AxesPartitionTheLog(s.log);
  }

  /** With no failed commit the batches are exactly the chunks of the observed rows. */
  lemma SuccessfulRunCommitsTheChunks(cfg: Config, s: State)
    requires ValidConfig(cfg) && Inv(cfg, s) && Final(s) && cfg.commits && !s.writer.Broken?
    ensures s.batches == Chunks(Rows(s.log), cfg.batchSize)
    ensures Flatten(s.batches) == Rows(s.log)
    ensures s.commit.committed == s.counts.observed && s.commit.batchesFailed == 0
    ensures s.counts.observed <= s.commit.batchesCommitted * cfg.batchSize < s.counts.observed + cfg.batchSize
  {
    AxesPartitionTheLog(s.log);
    assert s.sent == Flatten(s.batches);
    assert Rows(s.log) == s.sent;
    FullBatchesAreChunks(s.batches, cfg.batchSize);
    ChunkCount(Rows(s.log), cfg.batchSize);
  }

  /**
   * With a failed commit the acknowledged batches are the leading chunks of the sent rows, all
   * full, and the failed batch is the next chunk.
   */
  lemma FailedRunCommitsAPrefix(cfg: Config, s: State)
    requires ValidConfig(cfg) && Inv(cfg, s) && cfg.commits && s.writer.Broken?
    ensures s.commit.batchesFailed == 1
    ensures s.commit.committed == s.commit.batchesCommitted * cfg.batchSize
    ensures s.batches + [s.writer.batch] <= Chunks(s.sent, cfg.batchSize)
    ensures s.sent <= Rows(s.log)
  {
    FlattenFull(s.batches, cfg.batchSize);
    var tail := s.writer.batch + s.channel;
    assert s.sent == Flatten(s.batches) + tail;
    ChunksAfterFull(s.batches, tail, cfg.batchSize);
    assert Chunks(tail, cfg.batchSize)[0] == s.writer.batch by {
      if |s.writer.batch| == cfg.batchSize {
        assert tail[..cfg.batchSize] == s.writer.batch;
      }
    }
  }
}
