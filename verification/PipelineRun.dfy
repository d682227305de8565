/**
 * The pipeline as a program: the producer's and the writer's variables, joined on one task.
 * Which side runs next, which worker finishes, what it returns and whether a commit succeeds are
 * all left open, so the contract of `RunPipeline` holds for every schedule.
 */
module PipelineRun {
  import opened Domain
  import opened Pipeline

  class Run {
    const cfg: Config
    const total: nat

    // Producer.
    var next: nat
    var inflight: set<nat>
    var producer: Producer
    var counts: IngestCounts
    var errors: seq<nat>

    // Shared by both sides.
    var channel: seq<Row>
    var stop: bool

    // Writer.
    var writer: Writer
    var commit: CommitCounts

    // The abstract state, with its record of the past.
    ghost var s: State

    ghost predicate Valid()
      reads this
    {
      ValidConfig(cfg) && Inv(cfg, s) && Shows(s)
    }

    // The variables are what the abstract state says.
    ghost predicate Shows(s: State)
      reads this
    {
      s == State(total, next, inflight, producer, channel, writer, stop, counts, errors, commit,
                 s.log, s.sent, s.lost, s.batches)
    }

    constructor (cfg: Config, total: nat)
      requires ValidConfig(cfg)
      ensures Valid() && this.cfg == cfg && this.total == total && s == Init(cfg, total)
    {
      this.cfg, this.total := cfg, total;
      next, inflight, producer, counts, errors := 0, {}, Filling, NO_COUNTS, [];
      channel, stop := [], false;
      writer, commit := if cfg.commits then Receiving([]) else Ended, NO_COMMITS;
      s := Init(cfg, total);
      InitInv(cfg, total);
    }

    // The abstract state takes one step.
    ghost method Advance(e: Event)
      requires ValidConfig(cfg) && Inv(cfg, s) && Enabled(cfg, s, e)
      modifies `s
      ensures s == Step(cfg, old(s), e)
      ensures Inv(cfg, s) && Measure(s) < Measure(old(s))
    {
      StepInv(cfg, s, e);
      StepDecreasesMeasure(cfg, s, e);
      s := Step(cfg, s, e);
    }

    predicate MaySpawn()
      reads this
    {
      |inflight| < cfg.concurrency && !stop && next < total
    }

    // The pool is filled as long as it may be.
    method StartNext()
      requires Valid() && producer.Filling? && MaySpawn()
      modifies this
      ensures Valid() && s == Step(cfg, old(s), Spawn) && Measure(s) < Measure(old(s))
    {
      Advance(Spawn);
      inflight := inflight + {next};
      next := next + 1;
    }

    // A finished task is folded into the counts; its row, if any, waits to be sent.
    method Fold(task: nat, result: WorkerResult)
      requires Shows(s) && producer.Filling? && !MaySpawn() && task in inflight
      modifies `inflight, `counts, `errors, `producer
      ensures Enabled(cfg, s, Join(task, result)) && Shows(Step(cfg, s, Join(task, result)))
    {
      inflight := inflight - {task};
      counts := Tally(counts, result);
      if result.Failed? || result.Panicked? {
        errors := errors + [task];
      }
      if result.Observed? && cfg.commits {
        producer := Sending(result.row);
      }
    }

    method JoinNext(task: nat, result: WorkerResult)
      requires Valid() && producer.Filling? && !MaySpawn() && task in inflight
      modifies this
      ensures Valid() && s == Step(cfg, old(s), Join(task, result)) && Measure(s) < Measure(old(s))
    {
      Fold(task, result);
      Advance(Join(task, result));
    }

    // Nothing left to wait for: the channel is closed.
    method CloseChannel()
      requires Valid() && producer.Filling? && !MaySpawn() && inflight == {}
      modifies this
      ensures Valid() && s == Step(cfg, old(s), Close) && Measure(s) < Measure(old(s))
    {
      Advance(Close);
      counts := counts.(skipped := total - next);
      producer := Closed;
    }

    // A send completes when there is room, or fails once the receiver is gone.
    method FinishSend()
      requires Valid() && producer.Sending? && (writer.Broken? || |channel| < cfg.batchSize)
      modifies this
      ensures Valid() && s == Step(cfg, old(s), if old(writer).Broken? then SendFails else Send)
      ensures Measure(s) < Measure(old(s))
    {
      if writer.Broken? {
        Advance(SendFails);
      } else {
        Advance(Send);
        channel := channel + [producer.row];
      }
      producer := Filling;
    }

    method ReceiveRow()
      requires Valid() && writer.Receiving? && channel != []
      modifies this
      ensures Valid() && s == Step(cfg, old(s), Receive) && Measure(s) < Measure(old(s))
    {
      Advance(Receive);
      var batch := writer.batch + [channel[0]];
      channel := channel[1..];
      writer := if |batch| >= cfg.batchSize then Flushing(batch, false) else Receiving(batch);
    }

    // The channel is closed and empty: the tail is flushed, if there is one.
    method FlushTail()
      requires Valid() && writer.Receiving? && channel == [] && producer.Closed?
      modifies this
      ensures Valid() && s == Step(cfg, old(s), Drain) && Measure(s) < Measure(old(s))
    {
      Advance(Drain);
      writer := if writer.batch == [] then Ended else Flushing(writer.batch, true);
    }

    method CommitReturned()
      requires Valid() && writer.Flushing?
      modifies this
      ensures Valid() && s == Step(cfg, old(s), CommitOk) && Measure(s) < Measure(old(s))
    {
      Advance(CommitOk);
      commit := commit.(committed := commit.committed + |writer.batch|,
                        batchesCommitted := commit.batchesCommitted + 1);
      writer := if writer.tail then Ended else Receiving([]);
    }

    // A failed batch stops the run.
    method Break()
      requires Shows(s) && writer.Flushing?
      modifies `commit, `stop, `writer
      ensures Enabled(cfg, s, CommitFails) && Shows(Step(cfg, s, CommitFails))
    {
      commit := commit.(batchesFailed := commit.batchesFailed + 1);
      stop := true;
      writer := Broken(writer.batch);
    }

    method CommitRefused()
      requires Valid() && writer.Flushing?
      modifies this
      ensures Valid() && s == Step(cfg, old(s), CommitFails) && Measure(s) < Measure(old(s))
    {
      Break();
      Advance(CommitFails);
    }

    // The commit of a batch returns.
    method FinishFlush(ok: bool)
      requires Valid() && writer.Flushing?
      modifies this
      ensures Valid() && s == Step(cfg, old(s), if ok then CommitOk else CommitFails)
      ensures Measure(s) < Measure(old(s))
    {
      if ok {
        CommitReturned();
      } else {
        CommitRefused();
      }
    }
  }

  datatype Report = Report(counts: IngestCounts, commit: CommitCounts, errors: seq<nat>, commitFailed: bool)

  function ReportOf(s: State): Report {
    Report(s.counts, s.commit, s.errors, s.writer.Broken?)
  }

  /** What a caller may rely on in the report of a finished pipeline. */
  ghost predicate Accounted(cfg: Config, total: nat, r: Report) {
    && (forall i, j :: 0 <= i < j < |r.errors| ==> r.errors[i] != r.errors[j])
    && (forall t :: t in r.errors ==> t < total)
    && r.counts.observed + r.counts.kept + |r.errors| + r.counts.skipped == total
    && r.counts.uploaded + r.counts.alreadyExists == r.counts.observed + r.counts.kept
    && (cfg.commits ==> r.counts.observed <= r.commit.committed + 2 * cfg.batchSize + cfg.concurrency)
    && (r.commitFailed ==>
          && r.commit.batchesFailed == 1
          && r.commit.committed == r.commit.batchesCommitted * cfg.batchSize)
    && (!r.commitFailed ==> r.counts.skipped == 0 && r.commit.batchesFailed == 0)
    && (!r.commitFailed && cfg.commits ==>
          && r.commit.committed == r.counts.observed
          && r.counts.observed <= r.commit.batchesCommitted * cfg.batchSize < r.counts.observed + cfg.batchSize)
    && (!cfg.commits ==> r.commit == NO_COMMITS && !r.commitFailed)
  }

  lemma FinalReportIsAccounted(cfg: Config, s: State)
    requires ValidConfig(cfg) && Inv(cfg, s) && Final(s)
    ensures Accounted(cfg, s.total, ReportOf(s)) && NamesTheFailures(s)
  {
    Conservation(cfg, s);
    ErrorsNameTheFailures(cfg, s);
    if cfg.commits {
      BoundedLoss(cfg, s);
      if s.writer.Broken? {
        FailedRunCommitsAPrefix(cfg, s);
      } else {
        SuccessfulRunCommitsTheChunks(cfg, s);
      }
    }
  }

  method RunPipeline(cfg: Config, total: nat) returns (report: Report, ghost s: State)
    requires ValidConfig(cfg)
    ensures Inv(cfg, s) && Final(s) && s.total == total
    ensures report == ReportOf(s)
    ensures Accounted(cfg, total, report) && NamesTheFailures(s)
  {
    var run := new Run(cfg, total);
    while
      invariant run.Valid() && run.cfg == cfg && run.total == total
      decreases Measure(run.s)
    {
      case run.producer.Filling? && run.MaySpawn() =>
        run.StartNext();
      case run.producer.Filling? && !run.MaySpawn() && run.inflight != {} =>
        var task :| task in run.inflight;
        var result: WorkerResult := *;
        run.JoinNext(task, result);
      case run.producer.Filling? && !run.MaySpawn() && run.inflight == {} =>
        run.CloseChannel();
      case run.producer.Sending? && (run.writer.Broken? || |run.channel| < cfg.batchSize) =>
        run.FinishSend();
      case run.writer.Receiving? && run.channel != [] =>
        run.ReceiveRow();
      case run.writer.Receiving? && run.channel == [] && run.producer.Closed? =>
        run.FlushTail();
      case run.writer.Flushing? =>
        var ok: bool := *;
        run.FinishFlush(ok);
    }
    s := run.s;
    report := Report(run.counts, run.commit, run.errors, run.writer.Broken?);
    assert Final(s);
    FinalReportIsAccounted(cfg, s);
  }
}
