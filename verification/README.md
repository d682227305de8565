# Verification of the ingest engine and the profile scanner

A Dafny model of the two parts of the program that make promises across many steps: the ingest engine of
ADR-009 and the duplicate and top-N logic of the profile scanner.

## What is modelled

**Pipeline** (`Pipeline`, `PipelineRun`). A producer with at most `concurrency` tasks, a channel of capacity
`batch_size`, and a writer that commits full batches and raises `stop` on the first failed commit. `Pipeline.Step`
is the work between two await points; which side runs, which task finishes, what it returns and whether a commit
succeeds are all open. `PipelineRun` is the same as a program over mutable variables, proved to follow the machine.

**Upload and worker** (`Upload`, `Process`). The conditional streaming upload against a file that may change between
two reads, other writers that may act at every await and a store that may lose objects, under a rely/guarantee
condition: objects that hash to their key may be added, none may change. `Process` is the per-file loop with its one
rescan, in all three modes.

**Journal and reconciliation** (`Journal`, `Reconcile`). The journal queries, the grammar of what a run writes, the
writer, the journaled committer, the reconciling pass and the superseding pass.

**Engine** (`World` and the modules that prove things about it: `BlobSafety`, `RunFacts`, `Safety`, `JournalSafety`,
`JournalTruth`, `Deduplication`, `UploadedBytes`, `Recovery`, `Output`, `Runs`, `Progress`, `Restoration`,
`Supersession`, `Predecessors`, `Completion`, `Witness`). One state holds the blob store, the catalog, the persisted
journals and at most one live run. Its events are the run's own steps, a crash at any point, a save that fails or
lands without an acknowledgement, an append that fails or lands although the caller got an error, a store that loses
objects at any moment, and other sources using the same stores. `World.Step` contains the pipeline machine and the
worker machine, and `Reconcile` shows that the methods make exactly its steps. `used`, `facts` and `lost` record the
past for the statements; a step reads from them only the batch on its way to the catalog and whether a run identifier
is new.

**Identities and state** (`Identity`, `FileHash`, `CatalogState`). Length-prefixed names fed to a version 5 UUID
(section 5.5 of RFC 9562), catalog paths, hex digests, object keys, and the reduction to the latest row per path.

**Scanner** (`Largest`, `Duplicates`, `Scanner`). The pruned list of largest files against the stable sort of all
files, and the capped duplicate estimate.

## Assumptions, and where they stand

- One writer per source: `World` has at most one live run, and other sources append no rows of this source and write
  none of its journals (stated at `src/ingest/mod.rs:384`).
- An earlier writer has stopped, with all its requests, before the next run begins: an append lands before its run ends
  or crashes, or never.
- A run identifier is fresh (`World.Enabled`, event `Begin`).
- Clocks advance between runs and the tree is fixed: `Recovery.Faithful`, needed only by the recovery theorems.
  `CatalogState.AppendedRowWins` says exactly what a clock that does not advance costs.
- SHA-256 is collision free (`Domain.Injective`); so is the version 5 UUID where identifiers are compared
  (`Runs.InjectiveNames`). Only the bytes fed to them matter.
- Other writers record right digests with their objects: `Upload.Honest`, needed only where a run is shown to
  succeed.
- A catalog append is atomic; the conditional put of the object store is atomic and never overwrites. The store may
  lose objects but never holds wrong bytes under a key.

## Where the code and its documentation disagree

- `bytes` is documented as the bytes of the uploaded blobs (`src/ingest/output.rs:107-108`), but a blob restored for an
  unchanged path is counted in `uploaded` and not in `bytes`. `Witness.RestoredBlobIsNotCounted` reaches such a run,
  `UploadedBytes.BytesLeaveOutRestoredBlobs` gives the exact relation.
- `reclaimable_bytes` is documented as an upper bound (`src/domain/stats.rs:171-174`), but the quick hash takes
  whatever its single read returns. `Duplicates.ShortReadBreaksTheBound` is a counterexample with a short read,
  `Duplicates.UpperBoundExactlyWhen` the exact condition on the lengths of the first reads.
- A successful reconciling pass is meant to turn every unknown commit outcome of the source into a fact
  (`src/ingest/mod.rs:380-384`), but an open run whose journal object cannot be read is skipped with a warning
  (`src/ingest/journal.rs:247-268`) and stays open. `Reconcile.UnreadableJournalStaysOpen` is such a pass,
  `Reconcile.SuccessfulPassClosesWhatWasFound` says exactly which runs remain.
- ADR-009 names a retry that reuses the `run_id`; as its own status section says, the code starts a fresh run, and so
  does the model.

## Model

| member | source | states |
|---|---|---|
| Pipeline.StepInv | src/ingest/pipeline.rs:93-206 | Every step of every interleaving (spawn, join with any outcome, error or panic, send, failed send, receive, commit, close, flush tail) keeps the accounting: each started task is in flight or joined exactly once, the counters are the counts over the joined results, the errors are the failed tasks in join order, every observed row is committed, batched, queued, held or dropped, in order and never twice |
| Pipeline.BoundedLoss | src/ingest/pipeline.rs:10-19 | In every state at most `2*batch_size + concurrency` rows are produced or in the making but not committed; the same bound holds for `observed - committed` |
| Pipeline.NoDeadlock | src/ingest/pipeline.rs:100-147 | A state that is not final has an enabled step whatever the joined worker returns, in particular when the producer is blocked on a full channel and when the writer has failed and dropped the receiver |
| Pipeline.WaitsOnlyWhenItMust | src/ingest/pipeline.rs:101-124 | A finished task is awaited only when the pool is full or no file may be started, and a send waits only when the channel holds a whole batch |
| Pipeline.StepDecreasesMeasure | src/ingest/pipeline.rs:93-206 | Every step decreases a natural number, so every schedule ends |
| Pipeline.RunInv | src/ingest/pipeline.rs:147-155 | Over whole runs: the accounting holds at the end and the number of steps is bounded by the initial measure |
| Pipeline.NothingAfterFailure | src/ingest/pipeline.rs:15-19 | After a failed commit no new file starts, nothing more is sent and no commit follows, over every continuation |
| Pipeline.Conservation | src/ingest/pipeline.rs:100-177 | At the end observed + unchanged + errors + skipped = candidates, uploaded + already_exists = observed + unchanged, bytes is the size sum of rows both observed and uploaded, and files are skipped only after a failed commit |
| Pipeline.AxesPartitionTheLog | src/ingest/pipeline.rs:157-177 | The path axis and the blob axis each partition the joined outcomes |
| Pipeline.ErrorsNameTheFailures | src/ingest/pipeline.rs:111-130 | The errors name each task that was joined as failed or panicked, once, and no other |
| Pipeline.SuccessfulRunCommitsTheChunks | src/ingest/pipeline.rs:191-207 | Without a failed commit the batches are exactly the consecutive chunks of the observed rows, all full except possibly the last; committed = observed and the batch count is the quotient rounded up |
| Pipeline.FailedRunCommitsAPrefix | src/ingest/pipeline.rs:191-231 | With a failed commit exactly one batch failed, committed = batches_committed * batch_size, and acknowledged batches plus the failed one are the leading chunks of the sent rows |
| PipelineRun.RunPipeline | src/ingest/pipeline.rs:68-155 | For every schedule, worker outcome and commit result the pipeline terminates in a final state of the machine and its report is accounted for: conservation, bound on unacknowledged rows, batch arithmetic, nothing committed in preview; its errors name exactly the files that failed |
| PipelineRun.FinalReportIsAccounted | src/ingest/pipeline.rs:53-63 | What a caller may rely on in a report, success or failure |
| CatalogState.ReduceLatest | src/ingest/state.rs:69-84 | Per path the result is the first row among those with the greatest `observed_at`; exactly the paths that have a row are known |
| CatalogState.LatestIsFirstMaximum | src/ingest/state.rs:64-68 | The reduction is a maximum with ties to the first row seen |
| CatalogState.LatestConcat | src/ingest/state.rs:69-84 | Reducing a concatenation is merging the two reductions, the left one winning ties |
| CatalogState.LaterRowsOverride | src/ingest/state.rs:64-84 | Appending rows later than every row of the same path is a map override |
| CatalogState.AppendedRowWins | src/ingest/state.rs:65-68 | A new row becomes the known state of its path exactly when every earlier row of that path is older, or the known one records the same content at the same time: a clock that moves backwards hides the newer observation |
| CatalogState.OrderDoesNotMatter | src/ingest/state.rs:158-192 | With distinct timestamps per path the order in which the query returns rows does not matter |
| Identity.DecodeEncode | src/domain/observation.rs:52-65 | Length-prefixed fields are read back uniquely, for strings of any length below 2^64 |
| Identity.BuildObservationName | src/domain/observation.rs:46-66 | The loop builds exactly the encoding of the four fields |
| Identity.ObservationNameReadsBack | src/domain/observation.rs:52-66 | Read back field by field the name is source, path, hash (empty if missing) and status, in this order |
| Identity.BigEndianDigits | src/domain/observation.rs:63 | Lengths are written most significant byte first |
| Identity.ObservationNamesDoNotCollide | src/domain/observation.rs:52-66 | Two names are equal if and only if source, path, status and hash agree, a missing hash counting as an empty one |
| Identity.NormalizeRelativePath | src/domain/observation.rs:93-106 | Fails exactly when some normal component is not valid UTF-8; otherwise, split at the separators, the path is the names of the normal components in their order and nothing else |
| Identity.SpecialsDoNotMatter | src/domain/observation.rs:97-104 | A root, current or parent directory component anywhere changes nothing |
| Identity.SplitJoin | src/domain/observation.rs:96-106 | Joining parts without '/' is undone by splitting, empty parts included |
| Identity.PathsDoNotCollide | src/domain/observation.rs:69-74 | Two component lists share a catalog path if and only if they are equal |
| Identity.ObjectKeyInjective | src/domain/mod.rs:29-38 | Digests of any two lengths, the short form included, have equal keys if and only if they are equal |
| Identity.ObjectKeyReadsBack | src/domain/mod.rs:29-38 | Split at the separators a key is `sha256`, the first two characters, the next two and the whole digest; a digest shorter than four characters stands behind `sha256` alone |
| FileHash.ToLowerHex | src/file_hash.rs:7-16 | The loop emits two lower-case digits per byte, high half first |
| FileHash.LowerHexReadsBack | src/file_hash.rs:7-16 | Byte by byte the two digits read back as the byte, the higher one first |
| FileHash.LowerHexInjective | src/file_hash.rs:7-16 | Hex text determines the bytes |
| FileHash.HexDigestInjective | src/file_hash.rs:7-16 | Hex text inherits the collision freedom of the digest |
| FileHash.FullSha256 | src/file_hash.rs:18-33 | The digest of everything read up to end of file; an error exactly when opening or one of these reads fails |
| FileHash.ChunkingDoesNotMatter | src/file_hash.rs:24-30 | However the reads cut the content, the whole content is hashed |
| FileHash.FailedReadGivesNothing | src/file_hash.rs:25 | A read that fails before the end of the file leaves no digest |
| FileHash.QuickSha256 | src/file_hash.rs:35-46 | The digest of exactly the bytes one read returned, be they a whole block or not |
| Upload.UploadVerified | src/ingest/upload.rs:84-166 | Against a file that changes between reads, other writers at every await and a store that may lose objects: result and store effect are those of the specification on the store as it is when the upload ends, nothing but objects that hash to their key ever appears in the store, and a changed source or an aborted stream makes no write |
| Upload.UploadFollowsProtocol | src/ingest/upload.rs:3-6 | An upload never changes an existing object, adds at most the expected key, and what it adds hashes to its key |
| Upload.FailedUploadStoresNothing | src/ingest/upload.rs:92-165 | A changed source, a read or write error and `AlreadyExists` add nothing; `Uploaded` means this call created the object; an ambiguous close adds the object or nothing |
| Upload.UploadAnswers | src/ingest/upload.rs:92-166 | The five answers of an upload: a changed source exactly when the length or the streamed bytes are not those that were hashed, an abort when the file or the storage writer fails, and otherwise what the conditional write says |
| Upload.StreamedIsAccepted | src/ingest/upload.rs:121-139 | Streaming gives the accepted chunks up to the end of the file in order, and nothing if a read or a write fails before |
| Upload.NewBlobCarriesItsDigest | src/ingest/upload.rs:110-119 | A stored blob holds the streamed bytes and, where the store keeps metadata, their digest |
| Upload.SuccessfulUploadIsStored | src/ingest/upload.rs:16-18 | After `Uploaded` or `AlreadyExists` the stored bytes are exactly the streamed ones, with the expected digest and length |
| Upload.TrustedBlobIsStored | src/ingest/upload.rs:207-244 | A `Verified` or `Legacy` blob is the very content that was hashed; a size mismatch means the recorded length was never the length of that content |
| Upload.ContradictionIsAnError | src/ingest/upload.rs:207-244 | A blob is trusted exactly when it is there with the right length and no other recorded digest, and missing exactly when it is not there; every other one is an error |
| Upload.VouchedIsStored | src/ingest/upload.rs:3-6 | Once a blob has been stored, whatever is under its key later, lost and stored again or not, is the same content |
| Upload.BlobStore.PutIfAbsent | src/ingest/upload.rs:158-165 | The conditional write: created once, never overwritten, ambiguous on error |
| Process.ProcessFile | src/ingest/mod.rs:627-706 | In all three modes, against a store others use and that may lose objects. Ingest: the result follows from what the check and the upload of each attempt met (trusted, contradicting, missing, changed, refused), a file that changes under its upload is scanned and tried a second time, and it is the one the worker machine reaches on the same answers; an observed row carries path, hash, size and time of the scan it reports, and its blob is in the store on return or was lost during the call. Previews: no write is made, and the result is the preview's |
| Process.TryFile | src/ingest/mod.rs:640-704 | One turn of the loop: the result in terms of the stores the check and the upload met, or a rescan exactly if the file changed and a retry is left; the worker machine does the same |
| Process.ChangedFileIsRescanned | src/ingest/mod.rs:661-672 | A file that changes under its first upload is scanned again, and if it stays as it is then its content is reported, observed or unchanged |
| Process.ChangedTwiceFails | src/ingest/mod.rs:673-684 | A file that changes under both uploads is an error |
| Process.ObjectUriReadsBack | src/ingest/mod.rs:738-742 | Split at the separators the address is the scheme, the bucket and the key |
| Process.RowIdReadsBack | src/domain/observation.rs:46-66 | The row identifier is the UUID of a name that holds source, path, hash and `present` in this order |
| Process.PreviewPredictsIngest | src/ingest/mod.rs:627-657 | A connected preview reports what an ingest does on the same store with the same file, if the file stays as it is and the final write is answered |
| Process.PreviewResultEnds | src/ingest/mod.rs:633-657 | Offline every file that can be scanned is one to observe and to upload; connected, a missing blob is one to upload and a contradicting one an error |
| Process.EnsureBlob | src/ingest/mod.rs:654-686 | Check, then upload if missing: trusted, error, changed or stored, in terms of the stores met; the worker machine goes the same way |
| Process.WorkerStepOk | src/ingest/mod.rs:639-705 | Each step of a worker keeps the store content-addressed and the worker's promise, and the blob of a row is in the store at the moment the row leaves the worker |
| Process.WorkerIsStable | src/ingest/mod.rs:639-705 | Nothing that happens to the store, losses included, invalidates what a worker has established |
| Process.WorkerMakesProgress | src/ingest/mod.rs:623-668 | A changed file is rescanned at most once, so a worker finishes |
| World.SpawnStartsTheWorker | src/ingest/mod.rs:639 | A task of the engine starts as the program for one file does, with its retry left |
| Journal.ClosedForGood | src/ingest/journal.rs:145-169 | A journal has a closure entry if and only if no further pushes can make it open again |
| Journal.OutcomeOfScript | src/ingest/journal.rs:145-165 | The outcome of every history a run can leave, with any closure entries behind it: open exactly without closure and with no terminal entry or a failed commit, completed and incomplete exactly for those terminal entries |
| Journal.ClosureOnlyCloses | src/ingest/journal.rs:135-187 | A closure entry closes the journal and changes neither the last own entry nor the recorded rows and batches |
| Journal.OwnIsTransparent | src/ingest/journal.rs:135-187 | Last own entry, rows and batches depend only on the entries the run wrote itself |
| Journal.ScriptReadsBack | src/ingest/mod.rs:361-378 | Entry by entry a history is the start, for batch k `committing` k and then `batch_committed` k with its rows, at most one open commit with the next number, and at most one terminal entry |
| Journal.ScriptTotals | src/ingest/journal.rs:171-187 | A history of the grammar records exactly its acknowledged batches and rows |
| Journal.PrefixOfScript | src/ingest/journal.rs:214-228 | A shortened history is again of the grammar, with fewer acknowledged batches, and is terminal only if it is complete |
| Journal.JournalWriter.Record | src/ingest/journal.rs:217-227 | The in-memory history grows by the entry whether or not the save lands; what is stored stays a prefix of it |
| Journal.Start | src/ingest/journal.rs:201-212 | Fails closed: a writer exists exactly when the first save was acknowledged |
| Reconcile.JournaledCommitter.Commit | src/ingest/mod.rs:361-378 | `committing` is recorded before the append and `batch_committed` after it and only on success, with the batch number and its row count; the whole new state of counter, journal, bucket and catalog, and what was in the bucket when the append was called |
| Reconcile.CommitIsTheMachines | src/ingest/mod.rs:361-378 | What the committer does to catalog, bucket and journal is what the engine's steps of one commit do |
| Reconcile.OpenRunsFor | src/ingest/journal.rs:247-281 | Exactly the open runs of the source whose journal can be read, in listing order; unreadable objects are skipped |
| Reconcile.Catalog.CountRowsForRun | src/ingest/state.rs:118-142 | The number of catalog rows of one run of one source |
| Reconcile.ReportOpenRuns | src/ingest/mod.rs:385-438 | A failed listing and a report without `reconcile` store nothing; otherwise the bucket is what the pass specification says on the open runs that could be read, and they are returned exactly when the whole pass succeeded |
| Reconcile.PassClosesAPrefix | src/ingest/mod.rs:395-436 | A pass closes a prefix of the listed runs with exact row counts; the run it stops at is closed or as it was; the rest and all other journals are untouched |
| Reconcile.PassSucceedsExactlyWhen | src/ingest/mod.rs:416-427 | A pass succeeds if and only if every count came back and every save was acknowledged |
| Reconcile.SuccessfulPassClosesWhatWasFound | src/ingest/mod.rs:392-437 | After a successful pass the open runs of the source are exactly the open ones the listing did not give it: none is open if and only if every open journal could be read; no other journal changed |
| Reconcile.UnreadableJournalStaysOpen | src/ingest/journal.rs:247-271 | When the one open journal is not readable, the listing of the readable ones is empty, the pass succeeds and the run is still open |
| Reconcile.PassIsTheMachines | src/ingest/mod.rs:385-438 | The pass is what the engine's steps do |
| Reconcile.SupersedeOpenRuns | src/ingest/mod.rs:440-448 | Every predecessor is tried; a failed save does not stop the loop |
| Reconcile.SupersedingOnlyMarks | src/ingest/mod.rs:440-448 | Superseding adds at most the one entry to each listed journal and touches no other |
| Reconcile.SupersedingIsTheMachines | src/ingest/mod.rs:440-448 | The superseding pass is what the engine's steps do before it finishes |
| Safety.SafeStep | src/ingest/mod.rs:166-316 | Every event of the engine (own steps, crash, lost acknowledgements, lost objects, other sources) keeps the safety invariant |
| Safety.BlobsBeforeRows | src/ingest/mod.rs:639-751 | In every state of every run, crashes included: a row that is held, queued, batched or in the catalog has an object under its key with its digest and length unless the store has lost it, never another object, and its identifier and address derive from that digest |
| Safety.BlobsBeforeRowsWithoutLoss | src/ingest/mod.rs:639-751 | Over any run in which the store loses nothing, every such row is backed outright |
| JournalSafety.JournalsStep | src/ingest/journal.rs:7-14 | Every event keeps every stored journal of the source truthful |
| JournalTruth.JournalUnderReports | src/ingest/journal.rs:214-227 | Whichever saves failed: own entries are a prefix of what the run remembers, recorded rows never exceed the catalog's, they are equal once completed or incomplete is stored, and after a stored commit failure the catalog holds the recorded rows or those plus exactly the failed batch; reconciliation counts are exact |
| JournalTruth.NoRowWithoutStarted | src/ingest/mod.rs:214-230 | No catalog row exists for a run whose `started` entry is not stored, whatever became of the run: not even for one that never got as far as its first save |
| JournalTruth.OpenMeansNothingSettled | src/ingest/journal.rs:158-165 | In the engine: a stored journal of the source is open if and only if no entry in it settles the rows of its run, neither a completion, nor an end with failed files, nor a closure |
| JournalTruth.FailsClosed | src/ingest/mod.rs:214-230 | A run whose reconciling save or whose start is not acknowledged ends there and has changed neither catalog nor store |
| JournalTruth.CountersAgree | src/ingest/mod.rs:302-378 | The history follows the grammar, and the committer's counter, the writer's commit counts and the journal entries agree, as does the batch named by a terminal commit failure |
| JournalTruth.ReconciledMeansFoundAreClosed | src/ingest/mod.rs:380-438 | In the engine: once the pass is done every listed journal is closed, and the journals of the source that are still open are exactly those the listing could not read |
| JournalTruth.ClosedStaysClosed | src/ingest/mod.rs:417-447 | A closed journal stays closed and keeps exactly what the run itself recorded |
| JournalTruth.OtherSourcesUntouched | src/ingest/journal.rs:274-281 | Runs of one source never touch a journal of another |
| Deduplication.DedupStep | src/ingest/mod.rs:654-686 | No two workers of a run report the upload of one key, even when both saw it missing, unless the store lost the object in between |
| Deduplication.UploadedCountsNewKeys | src/ingest/pipeline.rs:172-175 | `uploaded` is the number of workers that reported an upload. If nothing they stored was lost during the run it is the number of distinct keys, which is the number of keys the run added when no close was ambiguous, and at most that otherwise; ambiguous closes and losses account for every difference |
| UploadedBytes.BytesLeaveOutRestoredBlobs | src/ingest/pipeline.rs:158-177 | `bytes` plus the bytes of restored blobs is the bytes the run's uploads stored; `bytes` alone is, exactly when no restored blob has any bytes |
| Witness.RestoredBlobIsNotCounted | src/ingest/mod.rs:688-696 | A reachable run that has restored a lost blob of one byte: one upload, one byte stored, `bytes` zero |
| Restoration.CompletedCandidateIsBacked | src/ingest/mod.rs:654-696 | When a run completes, the blob of every candidate's content, as the run saw it, is in the store, unless it was lost since the run started working |
| Restoration.CompletedRunRestoresTheTree | docs/adr/ADR-009-file-observation-and-ingest-state-model.md:190-191 | For a fixed tree: when a run completes, every candidate's catalog state is the tree's and the store holds the file's bytes again, whatever had been lost before, unless they were lost since the run started working |
| Restoration.UnchangedPathGetsNoRow | docs/adr/ADR-009-file-observation-and-ingest-state-model.md:190-191 | A path found unchanged, its blob restored or not, gets no row from that run, in the catalog or on the way there |
| Recovery.RecoveryConverges | src/ingest/state.rs:3-7 | From any safe state between two runs, for any tree that then stays fixed and advancing clocks, over any sequence of runs however each ends: at most one new row per path, only where the state differed from the tree, with the tree's content; other paths keep their state, and every candidate of a run that completed meanwhile matches the tree at the end |
| Recovery.LaterRunsAppendNothing | docs/adr/ADR-009-file-observation-and-ingest-state-model.md:181-191 | Once every file of the tree matches, further runs append nothing |
| Recovery.RecoveryStep | src/ingest/mod.rs:639-705 | Each event keeps the recovery invariant, including a landing batch whose acknowledgement was lost |
| Recovery.CompletionSettles | src/ingest/mod.rs:297-316 | When a run ends as completed, the catalog state of every candidate matches the tree: it was unchanged, or its row has landed |
| Runs.SoundRun | src/ingest/mod.rs:100-323 | All invariants hold along every sequence of events |
| Runs.EveryReachableState | src/ingest/mod.rs:100-323 | In every state reachable from nothing: every row has its blob or the store has lost it, the store is content-addressed, no run whatever has rows without a stored start, no journal records more rows than the catalog holds, and none names a successor that did not complete |
| Runs.ClosedForever | src/ingest/journal.rs:145-169 | Over every continuation a closed journal is never open again, keeps its own entries, and its reconciled row counts stay exact |
| Progress.LiveRunCanStep | src/ingest/mod.rs:100-323 | Whatever the outside answers to a save, an append, a scan, a blob check or an upload, a live run has a step of its own in which it gets that answer; no worker has to panic and no commit to be refused |
| Progress.OwnStepBringsCloser | src/ingest/mod.rs:100-323 | Every step of its own decreases a natural number that bounds what the run has left to do |
| Progress.RunCanEnd | src/ingest/mod.rs:100-323 | Whatever the outside keeps answering, a run can go on with these answers until it has ended |
| Progress.RunsEnd | src/ingest/mod.rs:100-323 | So a run takes no more steps than that number, on any schedule |
| Supersession.SupersededMeansCompleted | src/ingest/journal.rs:50-53 | In every stored journal of the source a `superseded_by` entry names another run, one that ended as completed with every batch in the catalog, and stands behind a `reconciled` entry with the exact row count |
| Supersession.SupersessionStep | src/ingest/mod.rs:297-316 | Every event keeps that, for the stored journals and for what the live run is about to write |
| Predecessors.CompletedRunSupersedes | src/ingest/mod.rs:309-315 | When a run has ended as completed with the saves of its marks acknowledged, the last entry in the stored journal of every run it had found open is its mark |
| Predecessors.OnlyCompletionSupersedes | src/ingest/mod.rs:297-315 | A run that ends in any other way, killed or not, leaves the journals of its predecessors as they were |
| Completion.DueRun | src/ingest/mod.rs:166-316 | Conservation over runs in which nothing fails: the candidates settled by completed runs and those still due are exactly the candidates offered |
| Completion.FaultFreeRunsSettle | src/ingest/mod.rs:166-316 | If no save the run depends on, no append, scan, blob check or upload fails, no worker panics and the run is not killed, then whatever else happens (objects lost, later saves failing, other sources) it completes: every candidate is settled and its catalog state is the tree's |
| Completion.OneRunIsEnough | docs/adr/ADR-009-file-observation-and-ingest-state-model.md:175-180 | From every safe state between two runs the next run can go through with good answers, and then the catalog state of every file is the tree's and every open run it was given is marked as superseded |
| Completion.GoodRunSettles | docs/adr/ADR-009-file-observation-and-ingest-state-model.md:175-180 | Every run of own steps that gets good answers to its end settles the whole tree and, unless there are no files, marks every open run it was given as superseded, however the steps are scheduled |
| Runs.RowIdsIdentify | src/domain/observation.rs:40-45 | Two catalog rows of a source have the same identifier exactly when they record the same content at the same path, and the same address exactly when they record the same content |
| Runs.SettledForGood | src/ingest/mod.rs:688-704 | From every reachable state between two runs: a path settled by a run that then completes gets no further row while the tree stays as it is |
| Runs.SettledTreeIsQuiet | docs/adr/ADR-009-file-observation-and-ingest-state-model.md:175-180 | From every reachable state between two runs: once completed runs have settled the whole tree, later runs append nothing |
| Output.SuccessIsHonest | src/ingest/output.rs:159-190 | Journal state `Completed`, summary status `Success` and an Ok result coincide, and then nothing was skipped, committed = observed and observed + unchanged = candidates; the two failure states coincide likewise |
| Output.SummaryReportsTheCommits | src/ingest/output.rs:128-160 | The catalog commit is reported as succeeded exactly when something was committed and nothing failed, as not attempted exactly when there was nothing to commit; the terminal entry counts the failed files and numbers the failed batch |
| Output.PreviewResultIsHonest | src/ingest/output.rs:159-190 | A preview attempts no commit and its result is an error exactly when some file failed |
| Output.UncommittedRowsAreBounded | src/ingest/output.rs:192-195 | The rows reported as possibly missing are exactly observed minus committed, at least the failed batch, at most `2*batch_size + concurrency`, and zero without a failure |
| Largest.StableSortIsTheOnlyOne | src/profile/scanner.rs:220 | The specification of the sort is the only list that is descending and keeps the walk order of equal sizes |
| Largest.StableSortIsStable | src/profile/scanner.rs:237 | Sorted, a permutation, stable |
| Largest.TakeInsert | src/profile/scanner.rs:219-222 | What pruning cuts off cannot come back: only the first n matter for the first n |
| Largest.SameTopPrune | src/profile/scanner.rs:219-222 | Pruning keeps the top |
| Largest.TopIsSettled | src/domain/stats.rs:227-230 | Sorting and cutting a second time changes nothing |
| Largest.TopIsTheOnlyOne | src/profile/scanner.rs:236-239 | A list has exactly one top n, described by order, size-by-size agreement and completion with the files left out; sorting and cutting yields it |
| Largest.TopHoldsTheLargest | src/profile/scanner.rs:236-239 | No file that was cut off is larger than one that is shown |
| Scanner.TrackFile | src/profile/scanner.rs:217-232 | After each file the pruned list has the top of all files so far and stays within twice its limit, and the size groups hold the paths of every non-zero size in walk order |
| Scanner.Scan | src/profile/scanner.rs:112-337 | The counters are the numbers of entries of each kind, the largest files are the top 15 of all files with ties in walk order, and the duplicate section satisfies its promises |
| Scanner.Walk | src/profile/scanner.rs:128-234 | One pass counts every entry of the walk and tracks every file |
| Scanner.EveryEntryIsCounted | src/profile/scanner.rs:128-184 | Every walk entry is counted exactly once: file, error, directory, link or other |
| Scanner.ProfileResult.CountEntry | src/profile/scanner.rs:150-184 | One entry changes exactly its own counters |
| Scanner.ProfileResult.Finalize | src/domain/stats.rs:216-231 | The list becomes its own top 15: descending, ties in order, and completed by what was cut off to all of its files |
| Scanner.GroupStats.Add | src/domain/stats.rs:29-41 | Count, sum, minimum and maximum are those of all files added; the largest path is the first of the largest size, and empty files never become it |
| Scanner.GroupStats.Finalize | src/domain/stats.rs:77-82 | A group without files reports zero, any other group is unchanged |
| Duplicates.EstimateDuplicates | src/profile/scanner.rs:241-331 | hashed + errors + not examined = candidates (the files whose non-zero size is shared), hashed <= cap, something not examined only at the cap, and the reclaimable bytes are those of the quick-hash classes of the files looked at and at most the total |
| Duplicates.SizeCandidates | src/profile/scanner.rs:249-255 | The groups of more than one path hold exactly the candidates, in whatever order the map iterates |
| Duplicates.CandidatesShareTheirSize | src/profile/scanner.rs:249-255 | A file is a candidate if and only if it is not empty and another file of the walk has its size |
| Duplicates.QuickHash | src/profile/scanner.rs:257-285 | The capped double loop looks at a prefix of the candidates and stops early only at the cap |
| Duplicates.Reclaimable | src/profile/scanner.rs:299-320 | The sum over groups in any order equals the bytes that go when one file per class is kept |
| Duplicates.SumIsRedundant | src/profile/scanner.rs:317-320 | Summing `(n - 1) * size` over classes in any order gives that number |
| Duplicates.EstimateIsAnUpperBound | src/domain/stats.rs:171-174 | When first reads fill the block: truly reclaimable bytes of the hashed files <= estimate <= total bytes |
| Duplicates.EstimateIsExactWhen | src/profile/scanner.rs:398-401 | The estimate is exact if and only if no two hashed files of one size agree on the first 64 KiB and differ behind it |
| Duplicates.UpperBoundExactlyWhen | src/file_hash.rs:35-46 | Among the files of a scan the estimate never understates if and only if equal non-empty files get first reads of equal length |
| Duplicates.ShortReadBreaksTheBound | src/file_hash.rs:35-46 | The quick hash takes whatever one read returns: with a short read on one of two equal files the estimate is below the truth |
| Duplicates.CoarserIsMore | src/profile/scanner.rs:299-320 | Classes that merge more files can only report more bytes |

## Left out

- Pipeline.Step: a task that panics is one outcome among others, and is named like a failed one although the program's
  message for it names no file; task cancellation and real parallelism inside a
  worker are not modelled.
- Process.ProcessFile: the scan of a file is one answer with a size, the hashed bytes and a time; the small-file
  shortcut, MIME type and metadata enrichment are not separated.
- Scanner.Scan: the statistics per extension, category and MIME type, name patterns, examples without extension, the
  top duplicate groups and the progress display are not modelled. `GroupStats` is, one group at a time.
- Scanner.Scan: sums are unbounded integers; `u64` overflow of the byte totals is not modelled. Every reported sum is
  at most `total_bytes`, so it overflows only where that one does.
- Scanner.GroupStats.Add: percentiles and the average are floating point and not modelled.
- Duplicates.QuickHash: the reply for a path is a function of the path, since the walk yields each path once; a lossy
  rendering of two non-UTF-8 names to one string is not modelled.
- Reconcile.OpenRunsFor: the listing order is arbitrary; sorting newest first is not modelled, nor are the times of the
  transitions and objects in the journal prefix that are not journals.
- PipelineRun.RunPipeline: the producer's and the writer's loops appear as one loop over the pieces of work between two
  await points, since both run on one task.
- Runs.SoundRun: loading the catalog state and listing the open runs is one event; the program does one after the other
  with nothing of its own in between.
- Reconcile.SupersedeOpenRuns: warnings and printed reports are not modelled.
- CatalogState.ReduceLatest: the conversion of Arrow batches, with its skipped nulls and its column errors, is not
  modelled; rows arrive as a sequence.
- Upload.UploadVerified: buffer sizes, multipart parts and a failing abort are not modelled; an aborted stream leaves
  no object under any key.
- FileHash.FullSha256: the 8 KiB buffer is not modelled; reads of any length are allowed.
- Output.SuccessIsHonest: printing, JSON and the wording of errors are not modelled.
- Identity.NormalizeRelativePath: parsing a path into components is the platform's; components arrive as a sequence.
- Walking and filtering candidates, CLI parsing, connectivity and schema checks, the query engine, the table format and
  the object storage client: wrappers or foreign code.
- Deletions, renames and leases: not implemented in the program.
