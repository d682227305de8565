/** The run's verdict: commit status, summary status, command result. */
module Output {
  import opened Domain
  import opened Seqs
  import opened Journal
  import opened World
  import P = Pipeline

  datatype CatalogCommitStatus = NotAttempted | Succeeded | CommitError

  datatype IngestStatus = Success | PartlyFailed | CommitStopped

  function StatusOf(c: CommitCounts): CatalogCommitStatus {
    if c.batchesFailed > 0 then CommitError else if c.batchesCommitted > 0 then Succeeded else NotAttempted
  }

  datatype Summary = Summary(
    mode: IngestMode,
    status: IngestStatus,
    counts: IngestCounts,
    failed: nat,
    catalogCommit: CatalogCommitStatus,
    commit: CommitCounts)

  function Build(mode: IngestMode, counts: IngestCounts, commit: CommitCounts, errors: nat): Summary {
    var status := if StatusOf(commit).CommitError? then CommitStopped else if errors > 0 then PartlyFailed else Success;
    Summary(mode, status, counts, errors, StatusOf(commit), commit)
  }

  /** Rows the run produced but did not see acknowledged. */
  function UncommittedRows(s: Summary): nat {
    if s.counts.observed >= s.commit.committed then s.counts.observed - s.commit.committed else 0
  }

  datatype CommandResult = Ok | CommitFailedError | IncompleteError | PreviewIncompleteError

  function OutcomeError(s: Summary, commitFailed: bool): CommandResult {
    if commitFailed then CommitFailedError
    else if s.failed > 0 then if Writes(s.mode) then IncompleteError else PreviewIncompleteError
    else Ok
  }

  /** The summary `run` builds from a finished pipeline; it fills in the number of candidates. */
  function SummaryOf(mode: IngestMode, s: P.State): Summary {
    Build(mode, s.counts.(candidates := s.total), s.commit, |s.errors|)
  }

  /**
   * Success is honest: journal, summary and exit status agree, and success means every candidate
   * was seen through and every observed row was acknowledged.
   */
  lemma SuccessIsHonest(cfg: P.Config, s: P.State)
    requires P.ValidConfig(cfg) && cfg.commits && P.Inv(cfg, s) && P.Final(s)
    ensures var summary := SummaryOf(Ingest, s);
            var result := OutcomeError(summary, s.writer.Broken?);
            && (TerminalOf(s) == Completed <==> summary.status == Success)
            && (summary.status == Success <==> result == Ok)
            && (TerminalOf(s).CommitFailed? <==> summary.status == CommitStopped)
            && (TerminalOf(s).Incomplete? <==> summary.status == PartlyFailed)
            && (result == Ok ==>
                  && s.counts.skipped == 0
                  && s.commit.committed == s.counts.observed
                  && s.counts.observed + s.counts.kept == s.total
                  && UncommittedRows(summary) == 0)
  {
    P.Conservation(cfg, s);
    if !s.writer.Broken? {
      P.SuccessfulRunCommitsTheChunks(cfg, s);
    }
  }

  /**
   * The summary reports what happened: the catalog commit succeeded exactly when something was
   * committed and nothing failed, was not attempted exactly when there was nothing to commit, and
   * the terminal entry counts the failed files.
   */
  lemma SummaryReportsTheCommits(cfg: P.Config, s: P.State)
    requires P.ValidConfig(cfg) && cfg.commits && P.Inv(cfg, s) && P.Final(s)
    ensures var summary := SummaryOf(Ingest, s);
            && (summary.catalogCommit.CommitError? <==> s.writer.Broken?)
            && (summary.catalogCommit.Succeeded? <==> !s.writer.Broken? && s.batches != [])
            && (summary.catalogCommit.NotAttempted? <==> !s.writer.Broken? && s.counts.observed == 0)
            && summary.counts.candidates == s.total
            && summary.failed == |s.errors| == P.Count(s.log, P.IsError)
            && (TerminalOf(s).Incomplete? ==> TerminalOf(s).failed == summary.failed > 0)
            && (TerminalOf(s).CommitFailed? ==> TerminalOf(s).batch == |s.batches| + 1)
  {
    P.AxesPartitionTheLog(s.log);
    if !s.writer.Broken? {
      P.SuccessfulRunCommitsTheChunks(cfg, s);
      NothingInNoBatches(s.batches);
    }
  }

  lemma NothingInNoBatches(batches: seq<seq<Row>>)
    requires forall i :: 0 <= i < |batches| ==> |batches[i]| > 0
    ensures Flatten(batches) == [] <==> batches == []
  {}

  /** A preview attempts no commit, and its result is an error exactly when some file failed. */
  lemma PreviewResultIsHonest(cfg: P.Config, s: P.State, mode: IngestMode)
    requires P.ValidConfig(cfg) && !cfg.commits && P.Inv(cfg, s) && P.Final(s) && mode != Ingest
    ensures var summary := SummaryOf(mode, s);
            var failed := exists k :: 0 <= k < |s.log| && P.Is(s.log[k].result, P.IsError);
            && !s.writer.Broken? && summary.catalogCommit.NotAttempted?
            && OutcomeError(summary, s.writer.Broken?) == (if failed then PreviewIncompleteError else Ok)
            && (summary.status.Success? <==> !failed) && (summary.status.PartlyFailed? <==> failed)
            && summary.counts.observed + summary.counts.kept + summary.failed == summary.counts.candidates
  {
    P.Conservation(cfg, s);
    P.FailedTasksTell(s.log);
  }

  /** The rows reported as possibly missing are at least those the run lost, and boundedly many. */
  lemma UncommittedRowsAreBounded(cfg: P.Config, s: P.State)
    requires P.ValidConfig(cfg) && cfg.commits && P.Inv(cfg, s) && P.Final(s)
    ensures var u := UncommittedRows(SummaryOf(Ingest, s));
            && s.commit.committed + u == s.counts.observed
            && u <= 2 * cfg.batchSize + cfg.concurrency
            && (u > 0 ==> s.writer.Broken?)
            && (s.writer.Broken? ==> u >= |s.writer.batch| > 0)
  {
    P.BoundedLoss(cfg, s);
    P.AxesPartitionTheLog(s.log);
    assert |P.Rows(s.log)| == s.counts.observed;
    if !s.writer.Broken? {
      P.SuccessfulRunCommitsTheChunks(cfg, s);
    }
  }
}
