/** Types shared by the whole ingest model. */
module Domain {

  newtype byte = x: int | 0 <= x < 256
  type Bytes = seq<byte>

  // Every string of the original is a UTF-8 byte string; its length is a byte count.
  type Text = seq<byte>

  // Microseconds: the resolution the catalog stores.
  type Time = int

  type RunId = nat

  datatype Option<+T> = None | Some(value: T)

  /** One `present` observation of one path, as it is appended to the catalog. */
  datatype Row = Row(
    id: Text,
    source: Text,
    path: Text,
    hash: Text,
    uri: Text,
    size: nat,
    run: RunId,
    at: Time)

  /** Previews write nothing; the offline one does not even read the catalog or the store. */
  datatype IngestMode = DryRunOffline | DryRun | Ingest

  predicate Writes(m: IngestMode) {
    m.Ingest?
  }

  /** Whether the content-addressed blob had to be stored. */
  datatype BlobState = Uploaded | Existing

  /** What one worker task hands back to the pipeline: an outcome, an error, or a panic. */
  datatype WorkerResult =
    | Observed(row: Row, blob: BlobState)
    | Unchanged(blob: BlobState)
    | Failed
    | Panicked

  /** Per-run tallies on two independent axes: paths and blobs. */
  datatype IngestCounts = IngestCounts(
    candidates: nat,
    observed: nat,
    kept: nat,  // paths whose content is unchanged
    uploaded: nat,
    alreadyExists: nat,
    bytes: nat,
    skipped: nat)

  const NO_COUNTS := IngestCounts(0, 0, 0, 0, 0, 0, 0)

  /** What the writer stage committed. */
  datatype CommitCounts = CommitCounts(committed: nat, batchesCommitted: nat, batchesFailed: nat)

  const NO_COMMITS := CommitCounts(0, 0, 0)

  /** No two inputs share a digest: the idealisation of SHA-256 used by every collision argument. */
  ghost predicate Injective(sha: Bytes -> Text) {
    forall a, b :: sha(a) == sha(b) ==> a == b
  }
}
