/** One file from scan to outcome: hash, decide, check the blob, upload, and rescan once if it changed. */
module Process {
  import opened Domain
  import opened Identity
  import opened Upload
  import opened CatalogState

  /** What is fixed for the life of the source: digests, identifiers, the bucket and the source name. */
  datatype Setup = Setup(sha: Bytes -> Text, uuid5: Bytes -> Text, bucket: Text, source: Text)

  // "s3://"
  const S3: Text := [115, 51, 58, 47, 47]

  // "s3:"
  const SCHEME: Text := [115, 51, 58]

  const SOURCE_CHANGED_RETRIES: nat := 1

  /**
   * What one scan saw. The size comes from the metadata and the bytes from the hashing pass, so
   * they need not agree when the file changes in between.
   */
  datatype Snapshot = Snapshot(size: nat, bytes: Bytes, now: Time)

  function ObjectUri(setup: Setup, hash: Text): Text {
    S3 + setup.bucket + [SLASH] + ObjectKey(hash)
  }

  function RowId(setup: Setup, path: Text, hash: Text): Text {
    setup.uuid5(ObservationName(setup.source, path, Some(hash), Present))
  }

  function Prepare(setup: Setup, run: RunId, path: Text, snap: Snapshot): Row {
    var hash := setup.sha(snap.bytes);
    Row(RowId(setup, path, hash), setup.source, path, hash, ObjectUri(setup, hash), snap.size, run, snap.now)
  }

  /** The row of a scan: the path, what was hashed and how long it was, and when it was seen. */
  ghost predicate RowOfScan(setup: Setup, run: RunId, path: Text, snap: Snapshot, row: Row) {
    && row.source == setup.source && row.path == path && row.run == run
    && row.hash == setup.sha(snap.bytes) && row.size == snap.size && row.at == snap.now
    && Derived(setup, row)
  }

  /** The address is the key in the bucket, behind the scheme. */
  lemma ObjectUriReadsBack(setup: Setup, hash: Text)
    requires SLASH !in setup.bucket
    ensures Split(ObjectUri(setup, hash)) == [SCHEME, [], setup.bucket] + Split(ObjectKey(hash))
  {
    BehindTheScheme(setup.bucket, ObjectKey(hash));
    assert ObjectUri(setup, hash) == SCHEME + [SLASH] + ([SLASH] + (setup.bucket + [SLASH] + ObjectKey(hash)));
  }

  lemma BehindTheScheme(bucket: Text, key: Text)
    requires SLASH !in bucket
    ensures Split(SCHEME + [SLASH] + ([SLASH] + (bucket + [SLASH] + key))) == [SCHEME, [], bucket] + Split(key)
  {
    var tail := bucket + [SLASH] + key;
    SplitFirst(bucket, key);
    SplitFirst([], tail);
    assert [] + [SLASH] + tail == [SLASH] + tail;
    SplitFirst(SCHEME, [SLASH] + tail);
  }

  /** The identifier is the UUID of a name that holds source, path, hash and status in this order. */
  lemma RowIdReadsBack(setup: Setup, path: Text, hash: Text) returns (name: Bytes)
    requires Measurable(setup.source) && Measurable(path) && Measurable(hash)
    ensures RowId(setup, path, hash) == setup.uuid5(name)
    ensures Decode(name, 4) == Some([setup.source, path, hash, PRESENT])
  {
    name := ObservationName(setup.source, path, Some(hash), Present);
    ObservationNameReadsBack(setup.source, path, Some(hash), Present);
  }

  datatype Worker =
    | Scanning(attempts: nat)
    | Checking(info: Row, attempts: nat)
    | Uploading(info: Row, attempts: nat)
    | Finished(result: WorkerResult)

  /** What the outside answers at one await point of a worker; a missing snapshot is a scan error. */
  datatype WorkerEvent =
    | Scan(snap: Option<Snapshot>)
    | Check(statFails: bool)
    | Transfer(io: UploadIO)
    | Panic

  predicate WorkerEnabled(wk: Worker, e: WorkerEvent) {
    match e
    case Scan(_) => wk.Scanning?
    case Check(_) => wk.Checking?
    case Transfer(_) => wk.Uploading?
    case Panic => !wk.Finished?
  }

  function OutcomeOf(loaded: CurrentState, info: Row, blob: BlobState): Worker {
    Finished(match Decide(loaded, info.path, info.hash)
             case Observe => Observed(info, blob)
             case Unchanged => WorkerResult.Unchanged(blob))
  }

  function WorkerStep(
      setup: Setup, run: RunId, path: Text, loaded: CurrentState, blobs: Blobs, wk: Worker, e: WorkerEvent)
    : (Worker, Blobs)
    requires WorkerEnabled(wk, e)
  {
    match e
    case Panic => (Finished(Panicked), blobs)
    case Scan(None) => (Finished(Failed), blobs)
    case Scan(Some(snap)) => (Checking(Prepare(setup, run, path, snap), wk.attempts), blobs)
    case Check(statFails) =>
      (match VerifyExisting(blobs, wk.info.hash, wk.info.size, statFails)
       case Verified => OutcomeOf(loaded, wk.info, Existing)
       case Legacy => OutcomeOf(loaded, wk.info, Existing)
       case Missing => Uploading(wk.info, wk.attempts)
       case _ => Finished(Failed),
       blobs)
    case Transfer(io) =>
      var (r, blobs') := UploadEffect(setup.sha, blobs, wk.info.hash, wk.info.size, io);
      (match r
       case Uploaded(_) => OutcomeOf(loaded, wk.info, BlobState.Uploaded)
       case AlreadyExists => OutcomeOf(loaded, wk.info, Existing)
       case SourceChanged(_, _) => if wk.attempts > 0 then Scanning(wk.attempts - 1) else Finished(Failed)
       case _ => Finished(Failed),
       blobs')
  }

  // ---------- what a worker guarantees ----------

  /** The row's identifier and object address both derive from its own content hash. */
  ghost predicate Derived(setup: Setup, row: Row) {
    row.id == RowId(setup, row.path, row.hash) && row.uri == ObjectUri(setup, row.hash)
  }

  ghost predicate Identified(setup: Setup, run: RunId, path: Text, row: Row) {
    row.source == setup.source && row.path == path && row.run == run && Derived(setup, row)
  }

  ghost predicate Backed(setup: Setup, blobs: Blobs, row: Row) {
    Stored(setup.sha, blobs, row.hash, row.size)
  }

  /**
   * A result may leave the worker: its blob was stored, and its decision follows from its hash.
   * `seen` are the keys that are in the store or have been lost from it.
   */
  ghost predicate ResultOk(
      setup: Setup, run: RunId, path: Text, loaded: CurrentState, seen: set<Text>, r: WorkerResult)
  {
    match r
    case Observed(row, _) =>
      && Identified(setup, run, path, row)
      && Vouched(setup.sha, seen, row.hash, row.size)
      && Decide(loaded, path, row.hash) == Observe
    case Unchanged(_) => path in loaded && ObjectKey(loaded[path].hash) in seen
    case _ => true
  }

  ghost predicate WorkerOk(setup: Setup, run: RunId, path: Text, loaded: CurrentState, seen: set<Text>, wk: Worker) {
    match wk
    case Scanning(a) => a <= SOURCE_CHANGED_RETRIES
    case Checking(info, a) => a <= SOURCE_CHANGED_RETRIES && Identified(setup, run, path, info)
    case Uploading(info, a) => a <= SOURCE_CHANGED_RETRIES && Identified(setup, run, path, info)
    case Finished(r) => ResultOk(setup, run, path, loaded, seen, r)
  }

  lemma StoredOutcomeOk(
      setup: Setup, run: RunId, path: Text, loaded: CurrentState, blobs: Blobs, seen: set<Text>,
      info: Row, blob: BlobState)
    requires Injective(setup.sha) && Identified(setup, run, path, info)
    requires Backed(setup, blobs, info) && blobs.Keys <= seen
    ensures WorkerOk(setup, run, path, loaded, seen, OutcomeOf(loaded, info, blob))
  {
    StoredIsVouched(setup.sha, blobs, seen, info.hash, info.size);
  }

  lemma CheckOk(
      setup: Setup, run: RunId, path: Text, loaded: CurrentState, blobs: Blobs, seen: set<Text>,
      wk: Worker, statFails: bool)
    requires Injective(setup.sha) && Cas(setup.sha, blobs)
    requires wk.Checking? && WorkerOk(setup, run, path, loaded, seen, wk)
    ensures var wk' := WorkerStep(setup, run, path, loaded, blobs, wk, Check(statFails)).0;
            && WorkerOk(setup, run, path, loaded, seen + blobs.Keys, wk')
            && (wk'.Finished? && wk'.result.Observed? ==> Backed(setup, blobs, wk'.result.row))
  {
    TrustedBlobIsStored(setup.sha, blobs, wk.info.hash, wk.info.size, statFails);
    if Backed(setup, blobs, wk.info) {
      StoredOutcomeOk(setup, run, path, loaded, blobs, seen + blobs.Keys, wk.info, Existing);
    }
  }

  lemma TransferOk(
      setup: Setup, run: RunId, path: Text, loaded: CurrentState, blobs: Blobs, seen: set<Text>,
      wk: Worker, io: UploadIO)
    requires Injective(setup.sha) && Cas(setup.sha, blobs)
    requires wk.Uploading? && WorkerOk(setup, run, path, loaded, seen, wk)
    ensures var (wk', blobs') := WorkerStep(setup, run, path, loaded, blobs, wk, Transfer(io));
            && Protocol(setup.sha, blobs, blobs')
            && WorkerOk(setup, run, path, loaded, seen + blobs'.Keys, wk')
            && (wk'.Finished? && wk'.result.Observed? ==> Backed(setup, blobs', wk'.result.row))
  {
    var blobs' := WorkerStep(setup, run, path, loaded, blobs, wk, Transfer(io)).1;
    UploadFollowsProtocol(setup.sha, blobs, wk.info.hash, wk.info.size, io);
    SuccessfulUploadIsStored(setup.sha, blobs, wk.info.hash, wk.info.size, io);
    if Backed(setup, blobs', wk.info) {
      StoredOutcomeOk(setup, run, path, loaded, blobs', seen + blobs'.Keys, wk.info, BlobState.Uploaded);
      StoredOutcomeOk(setup, run, path, loaded, blobs', seen + blobs'.Keys, wk.info, Existing);
    }
  }

  /**
   * A worker step keeps the store content-addressed and the worker's own promise, and the blob of
   * a row is in the store at the moment the row leaves the worker.
   */
  lemma WorkerStepOk(
      setup: Setup, run: RunId, path: Text, loaded: CurrentState, blobs: Blobs, seen: set<Text>,
      wk: Worker, e: WorkerEvent)
    requires Injective(setup.sha) && Cas(setup.sha, blobs)
    requires WorkerEnabled(wk, e) && WorkerOk(setup, run, path, loaded, seen, wk)
    ensures var (wk', blobs') := WorkerStep(setup, run, path, loaded, blobs, wk, e);
            && Cas(setup.sha, blobs') && Protocol(setup.sha, blobs, blobs')
            && WorkerOk(setup, run, path, loaded, seen + blobs'.Keys, wk')
            && (wk'.Finished? && wk'.result.Observed? ==> Backed(setup, blobs', wk'.result.row))
  {
    if e.Check? {
      CheckOk(setup, run, path, loaded, blobs, seen, wk, e.statFails);
    } else if e.Transfer? {
      TransferOk(setup, run, path, loaded, blobs, seen, wk, e.io);
      ProtocolKeepsCas(setup.sha, blobs, WorkerStep(setup, run, path, loaded, blobs, wk, e).1);
    }
  }

  /** Nothing others do to the store, losing objects included, breaks a worker's promise. */
  lemma WorkerIsStable(
      setup: Setup, run: RunId, path: Text, loaded: CurrentState, before: set<Text>, after: set<Text>, wk: Worker)
    requires WorkerOk(setup, run, path, loaded, before, wk) && before <= after
    ensures WorkerOk(setup, run, path, loaded, after, wk)
  {}

  function WorkerMeasure(wk: Worker): nat {
    match wk
    case Scanning(a) => 3 * a + 3
    case Checking(_, a) => 3 * a + 2
    case Uploading(_, a) => 3 * a + 1
    case Finished(_) => 0
  }

  /** A worker finishes: it retries a changed file at most once. */
  lemma WorkerMakesProgress(
      setup: Setup, run: RunId, path: Text, loaded: CurrentState, blobs: Blobs, wk: Worker, e: WorkerEvent)
    requires WorkerEnabled(wk, e)
    ensures WorkerMeasure(WorkerStep(setup, run, path, loaded, blobs, wk, e).0) < WorkerMeasure(wk)
  {}

  // ---------- the worker as a program ----------

  /** What the outside answers to one attempt at a file. */
  datatype Attempt = Attempt(snap: Option<Snapshot>, statFails: bool, io: UploadIO)

  predicate Answered(attempts: seq<Attempt>, wk: Worker) {
    |attempts| == SOURCE_CHANGED_RETRIES + 1 && !wk.Finished? && wk.attempts <= SOURCE_CHANGED_RETRIES
  }

  /** The answer that meets a worker in state `wk`. */
  function AnswerTo(attempts: seq<Attempt>, wk: Worker): WorkerEvent
    requires Answered(attempts, wk)
  {
    var a := attempts[SOURCE_CHANGED_RETRIES - wk.attempts];
    match wk
    case Scanning(_) => Scan(a.snap)
    case Checking(_, _) => Check(a.statFails)
    case Uploading(_, _) => Transfer(a.io)
  }

  /** The worker after as many steps as there are stores, each step meeting the store listed for it. */
  ghost function WorkerRun(
      setup: Setup, run: RunId, path: Text, loaded: CurrentState, attempts: seq<Attempt>, stores: seq<Blobs>): Worker
  {
    if stores == [] then Scanning(SOURCE_CHANGED_RETRIES)
    else
      var n := |stores| - 1;
      var wk := WorkerRun(setup, run, path, loaded, attempts, stores[..n]);
      if Answered(attempts, wk) then WorkerStep(setup, run, path, loaded, stores[n], wk, AnswerTo(attempts, wk)).0
      else wk
  }

  lemma WorkerRunSnoc(
      setup: Setup, run: RunId, path: Text, loaded: CurrentState, attempts: seq<Attempt>, stores: seq<Blobs>, b: Blobs)
    requires Answered(attempts, WorkerRun(setup, run, path, loaded, attempts, stores))
    ensures var wk := WorkerRun(setup, run, path, loaded, attempts, stores);
            WorkerRun(setup, run, path, loaded, attempts, stores + [b])
            == WorkerStep(setup, run, path, loaded, b, wk, AnswerTo(attempts, wk)).0
  {
    assert (stores + [b])[..|stores|] == stores;
  }

  lemma RunOn(
      setup: Setup, run: RunId, path: Text, loaded: CurrentState, attempts: seq<Attempt>, stores: seq<Blobs>, b: Blobs,
      wk: Worker, e: WorkerEvent)
    requires WorkerRun(setup, run, path, loaded, attempts, stores) == wk
    requires Answered(attempts, wk) && AnswerTo(attempts, wk) == e
    ensures WorkerRun(setup, run, path, loaded, attempts, stores + [b])
         == WorkerStep(setup, run, path, loaded, b, wk, e).0
  {
    WorkerRunSnoc(setup, run, path, loaded, attempts, stores, b);
  }

  lemma FinishedRunStays(
      setup: Setup, run: RunId, path: Text, loaded: CurrentState, attempts: seq<Attempt>, stores: seq<Blobs>, b: Blobs)
    requires WorkerRun(setup, run, path, loaded, attempts, stores).Finished?
    ensures WorkerRun(setup, run, path, loaded, attempts, stores + [b])
         == WorkerRun(setup, run, path, loaded, attempts, stores)
  {
    assert (stores + [b])[..|stores|] == stores;
  }

  datatype BlobCheck = Have(blob: BlobState) | Changed | Bad

  /**
   * What verifying and, if needed, uploading a blob comes to, in terms of the store the check met
   * and the store the upload met.
   */
  ghost predicate CheckEnds(
      sha: Bytes -> Text, hash: Text, size: nat, a: Attempt, atCheck: Blobs, atUpload: Blobs, r: BlobCheck)
  {
    if a.statFails then r.Bad?
    else if Trustworthy(atCheck, hash, size) then r == Have(Existing)
    else if ObjectKey(hash) in atCheck then r.Bad?
    else UploadEnds(sha, hash, size, a.io, atUpload, r)
  }

  ghost predicate UploadEnds(
      sha: Bytes -> Text, hash: Text, size: nat, io: UploadIO, atUpload: Blobs, r: BlobCheck)
  {
    if SeesChange(sha, hash, size, io) then r.Changed?
    else if SeesSame(sha, hash, size, io) && io.close.Acknowledged? then
      r == Have(if ObjectKey(hash) in atUpload then Existing else BlobState.Uploaded)
    else r.Bad?
  }

  function AfterCheck(loaded: CurrentState, info: Row, left: nat, r: BlobCheck): Worker {
    match r
    case Have(blob) => OutcomeOf(loaded, info, blob)
    case Changed => if left > 0 then Scanning(left - 1) else Finished(Failed)
    case Bad => Finished(Failed)
  }

  /** Upload a blob that was missing; `earlier` is what the store had lost before. */
  method StoreMissing(
      store: BlobStore, setup: Setup, run: RunId, path: Text, loaded: CurrentState, info: Row, left: nat, io: UploadIO,
      ghost earlier: set<Text>)
    returns (r: BlobCheck, ghost atUpload: Blobs, ghost lost: set<Text>)
    requires Injective(setup.sha) && store.sha == setup.sha && Cas(setup.sha, store.objects)
    requires Identified(setup, run, path, info) && left <= SOURCE_CHANGED_RETRIES
    modifies store
    ensures Moved(setup.sha, old(store.objects), store.objects, lost)
    ensures AfterCheck(loaded, info, left, r)
         == WorkerStep(setup, run, path, loaded, atUpload, Uploading(info, left), Transfer(io)).0
    ensures WorkerOk(setup, run, path, loaded, earlier + lost + store.objects.Keys, AfterCheck(loaded, info, left, r))
    ensures UploadEnds(setup.sha, info.hash, info.size, io, atUpload, r)
  {
    var u;
    u, atUpload, lost := UploadVerified(store, info.hash, info.size, io);
    UploadAnswers(setup.sha, atUpload, info.hash, info.size, io);
    RelyKeepsCas(setup.sha, old(store.objects), atUpload);
    TransferOk(setup, run, path, loaded, atUpload, earlier + lost, Uploading(info, left), io);
    ProtocolKeepsCas(setup.sha, atUpload, store.objects);
    r := match u
         case Uploaded(_) => Have(BlobState.Uploaded)
         case AlreadyExists => Have(Existing)
         case SourceChanged(_, _) => Changed
         case _ => Bad;
  }

  /** Verify the blob of one scanned file, uploading it if it is missing and the mode writes. */
  method EnsureBlob(
      store: BlobStore, setup: Setup, mode: IngestMode, run: RunId, path: Text, loaded: CurrentState, info: Row,
      left: nat, a: Attempt)
    returns (r: BlobCheck, ghost atCheck: Blobs, ghost atUpload: Blobs, ghost lost: set<Text>)
    requires Injective(setup.sha) && store.sha == setup.sha && Cas(setup.sha, store.objects)
    requires Identified(setup, run, path, info) && left <= SOURCE_CHANGED_RETRIES
    modifies store
    ensures Moved(setup.sha, old(store.objects), store.objects, lost)
    ensures Writes(mode) ==>
              WorkerOk(setup, run, path, loaded, store.objects.Keys + lost, AfterCheck(loaded, info, left, r))
    ensures Writes(mode) ==>
              var wk := WorkerStep(setup, run, path, loaded, atCheck, Checking(info, left), Check(a.statFails)).0;
              AfterCheck(loaded, info, left, r)
              == if wk.Uploading? then WorkerStep(setup, run, path, loaded, atUpload, wk, Transfer(a.io)).0 else wk
    ensures Writes(mode) ==> CheckEnds(setup.sha, info.hash, info.size, a, atCheck, atUpload, r)
    ensures !Writes(mode) ==>
              && r == PreviewCheck(atCheck, info, a.statFails)
              && store.objects == atCheck && store.writes == old(store.writes)
  {
    lost := store.Interfere();
    RelyKeepsCas(setup.sha, old(store.objects), store.objects);
    atCheck, atUpload := store.objects, store.objects;
    var verdict := VerifyExisting(store.objects, info.hash, info.size, a.statFails);
    ContradictionIsAnError(atCheck, info.hash, info.size, a.statFails);
    CheckOk(setup, run, path, loaded, atCheck, lost, Checking(info, left), a.statFails);
    assert lost + store.objects.Keys == store.objects.Keys + lost;
    if !verdict.Missing? {
      r := if verdict.Verified? || verdict.Legacy? then Have(Existing) else Bad;
      return;
    }
    if !Writes(mode) {
      r := Have(BlobState.Uploaded);
      return;
    }
    ghost var gone;
    r, atUpload, gone := StoreMissing(store, setup, run, path, loaded, info, left, a.io, lost);
    lost := lost + gone;
    assert lost + store.objects.Keys == store.objects.Keys + lost;
  }

  // ---------- previews ----------

  /** A preview reports a missing blob as one that would be uploaded. */
  function PreviewCheck(blobs: Blobs, info: Row, statFails: bool): BlobCheck {
    match VerifyExisting(blobs, info.hash, info.size, statFails)
    case Verified => Have(Existing)
    case Legacy => Have(Existing)
    case Missing => Have(BlobState.Uploaded)
    case _ => Bad
  }

  function PreviewResult(
      setup: Setup, mode: IngestMode, run: RunId, path: Text, loaded: CurrentState, blobs: Blobs, a: Attempt)
    : WorkerResult
  {
    match a.snap
    case None => Failed
    case Some(snap) =>
      var info := Prepare(setup, run, path, snap);
      if mode.DryRunOffline? then Observed(info, BlobState.Uploaded)
      else
        match PreviewCheck(blobs, info, a.statFails)
        case Have(blob) => OutcomeOf(loaded, info, blob).result
        case _ => Failed
  }

  /**
   * What a preview reports: offline every file it can scan is one to observe and to upload, whatever
   * is stored; connected, a missing blob is one to upload, and a contradicting one is an error.
   */
  ghost predicate PreviewEnds(
      setup: Setup, mode: IngestMode, run: RunId, path: Text, loaded: CurrentState, blobs: Blobs, a: Attempt,
      r: WorkerResult)
  {
    match a.snap
    case None => r == Failed
    case Some(snap) =>
      var hash := setup.sha(snap.bytes);
      if mode.DryRunOffline? then r.Observed? && r.blob.Uploaded? && RowOfScan(setup, run, path, snap, r.row)
      else if a.statFails then r == Failed
      else if Trustworthy(blobs, hash, snap.size) then Reports(setup, run, path, loaded, snap, Existing, r)
      else if ObjectKey(hash) in blobs then r == Failed
      else Reports(setup, run, path, loaded, snap, BlobState.Uploaded, r)
  }

  lemma PreviewResultEnds(
      setup: Setup, mode: IngestMode, run: RunId, path: Text, loaded: CurrentState, blobs: Blobs, a: Attempt)
    ensures PreviewEnds(setup, mode, run, path, loaded, blobs, a,
                        PreviewResult(setup, mode, run, path, loaded, blobs, a))
  {
    if a.snap.Some? {
      ContradictionIsAnError(blobs, setup.sha(a.snap.value.bytes), a.snap.value.size, a.statFails);
    }
  }

  /** The file does not change under the upload, and the final write is answered. */
  predicate QuietUpload(snap: Snapshot, io: UploadIO) {
    && snap.size == |snap.bytes| && io.statLen == Some(snap.size) && io.opens
    && Streamed([], io.input) == Some(snap.bytes) && io.close.Acknowledged?
  }

  /** A connected preview reports what an ingest of the same file on the same store would do. */
  lemma PreviewPredictsIngest(
      setup: Setup, run: RunId, path: Text, loaded: CurrentState, blobs: Blobs, attempts: seq<Attempt>, snap: Snapshot)
    requires |attempts| == SOURCE_CHANGED_RETRIES + 1
    requires attempts[0].snap == Some(snap) && QuietUpload(snap, attempts[0].io)
    ensures WorkerRun(setup, run, path, loaded, attempts, [blobs, blobs, blobs])
            == Finished(PreviewResult(setup, DryRun, run, path, loaded, blobs, attempts[0]))
  {
    var info := Prepare(setup, run, path, snap);
    var none: seq<Blobs> := [];
    var once, twice := none + [blobs], none + [blobs] + [blobs];
    RunOn(setup, run, path, loaded, attempts, none, blobs, Scanning(1), Scan(Some(snap)));
    RunOn(setup, run, path, loaded, attempts, once, blobs, Checking(info, 1), Check(attempts[0].statFails));
    QuietEnd(setup, run, path, loaded, blobs, attempts, twice, snap);
    assert twice + [blobs] == [blobs, blobs, blobs];
  }

  /** From the check on: the blob is there, or the upload puts it there. */
  lemma QuietEnd(
      setup: Setup, run: RunId, path: Text, loaded: CurrentState, blobs: Blobs, attempts: seq<Attempt>,
      stores: seq<Blobs>, snap: Snapshot)
    requires |attempts| == SOURCE_CHANGED_RETRIES + 1
    requires attempts[0].snap == Some(snap) && QuietUpload(snap, attempts[0].io)
    requires WorkerRun(setup, run, path, loaded, attempts, stores)
          == WorkerStep(setup, run, path, loaded, blobs, Checking(Prepare(setup, run, path, snap), 1),
                        Check(attempts[0].statFails)).0
    ensures WorkerRun(setup, run, path, loaded, attempts, stores + [blobs])
         == Finished(PreviewResult(setup, DryRun, run, path, loaded, blobs, attempts[0]))
  {
    var info := Prepare(setup, run, path, snap);
    QuietCheck(setup, run, path, loaded, blobs, info, attempts[0]);
    if WorkerRun(setup, run, path, loaded, attempts, stores).Finished? {
      FinishedRunStays(setup, run, path, loaded, attempts, stores, blobs);
    } else {
      QuietTransfer(setup, run, path, loaded, blobs, info, snap, attempts[0].io);
      RunOn(setup, run, path, loaded, attempts, stores, blobs, Uploading(info, 1), Transfer(attempts[0].io));
    }
  }

  /** The check of an ingest and of a preview agree, but for what a missing blob leads to. */
  lemma QuietCheck(
      setup: Setup, run: RunId, path: Text, loaded: CurrentState, blobs: Blobs, info: Row, a: Attempt)
    ensures var wk := WorkerStep(setup, run, path, loaded, blobs, Checking(info, SOURCE_CHANGED_RETRIES),
                                 Check(a.statFails)).0;
            if wk.Uploading? then
              && wk == Uploading(info, SOURCE_CHANGED_RETRIES) && ObjectKey(info.hash) !in blobs
              && PreviewCheck(blobs, info, a.statFails) == Have(BlobState.Uploaded)
            else
              wk == match PreviewCheck(blobs, info, a.statFails)
                    case Have(blob) => OutcomeOf(loaded, info, blob)
                    case _ => Finished(Failed)
  {}

  lemma QuietTransfer(
      setup: Setup, run: RunId, path: Text, loaded: CurrentState, blobs: Blobs, info: Row, snap: Snapshot, io: UploadIO)
    requires QuietUpload(snap, io) && info.hash == setup.sha(snap.bytes) && info.size == snap.size
    requires ObjectKey(info.hash) !in blobs
    ensures WorkerStep(setup, run, path, loaded, blobs, Uploading(info, SOURCE_CHANGED_RETRIES), Transfer(io)).0
         == OutcomeOf(loaded, info, BlobState.Uploaded)
  {}

  function AfterScan(setup: Setup, run: RunId, path: Text, snap: Option<Snapshot>, left: nat): Worker {
    match snap
    case None => Finished(Failed)
    case Some(sn) => Checking(Prepare(setup, run, path, sn), left)
  }

  lemma ScannedRun(
      setup: Setup, run: RunId, path: Text, loaded: CurrentState, attempts: seq<Attempt>, stores: seq<Blobs>,
      left: nat, b: Blobs)
    requires |attempts| == SOURCE_CHANGED_RETRIES + 1 && left <= SOURCE_CHANGED_RETRIES
    requires WorkerRun(setup, run, path, loaded, attempts, stores) == Scanning(left)
    ensures WorkerRun(setup, run, path, loaded, attempts, stores + [b])
            == AfterScan(setup, run, path, attempts[SOURCE_CHANGED_RETRIES - left].snap, left)
  {
    var snap := attempts[SOURCE_CHANGED_RETRIES - left].snap;
    RunOn(setup, run, path, loaded, attempts, stores, b, Scanning(left), Scan(snap));
  }

  lemma CheckedRun(
      setup: Setup, run: RunId, path: Text, loaded: CurrentState, attempts: seq<Attempt>, stores: seq<Blobs>,
      info: Row, left: nat, r: BlobCheck, atCheck: Blobs, atUpload: Blobs)
    returns (stores': seq<Blobs>)
    requires |attempts| == SOURCE_CHANGED_RETRIES + 1 && left <= SOURCE_CHANGED_RETRIES
    requires WorkerRun(setup, run, path, loaded, attempts, stores) == Checking(info, left)
    requires var a := attempts[SOURCE_CHANGED_RETRIES - left];
             var wk := WorkerStep(setup, run, path, loaded, atCheck, Checking(info, left), Check(a.statFails)).0;
             AfterCheck(loaded, info, left, r)
             == if wk.Uploading? then WorkerStep(setup, run, path, loaded, atUpload, wk, Transfer(a.io)).0 else wk
    ensures WorkerRun(setup, run, path, loaded, attempts, stores') == AfterCheck(loaded, info, left, r)
  {
    var a := attempts[SOURCE_CHANGED_RETRIES - left];
    var wk := WorkerStep(setup, run, path, loaded, atCheck, Checking(info, left), Check(a.statFails)).0;
    RunOn(setup, run, path, loaded, attempts, stores, atCheck, Checking(info, left), Check(a.statFails));
    stores' := stores + [atCheck];
    if wk.Uploading? {
      RunOn(setup, run, path, loaded, attempts, stores', atUpload, Uploading(info, left), Transfer(a.io));
      stores' := stores' + [atUpload];
    }
  }

  /** The worker when one attempt at a scanned file is over: finished, or about to rescan. */
  function AfterAttempt(done: Option<WorkerResult>, left: nat): Worker {
    match done
    case Some(result) => Finished(result)
    case None => if left > 0 then Scanning(left - 1) else Finished(Failed)
  }

  /** What is reported once the blob is there: the path is unchanged exactly if its content is the known one. */
  ghost predicate Reports(
      setup: Setup, run: RunId, path: Text, loaded: CurrentState, snap: Snapshot, blob: BlobState, r: WorkerResult)
  {
    if path in loaded && loaded[path].hash == setup.sha(snap.bytes) then r == WorkerResult.Unchanged(blob)
    else r.Observed? && r.blob == blob && RowOfScan(setup, run, path, snap, r.row)
  }

  /** How an attempt at a scanned file ends; without a result the file is scanned again. */
  ghost predicate AttemptEnds(
      setup: Setup, run: RunId, path: Text, loaded: CurrentState, a: Attempt, snap: Snapshot, left: nat,
      atCheck: Blobs, atUpload: Blobs, done: Option<WorkerResult>)
  {
    exists r :: CheckEnds(setup.sha, setup.sha(snap.bytes), snap.size, a, atCheck, atUpload, r)
                && EndsWith(setup, run, path, loaded, snap, left, r, done)
  }

  ghost predicate EndsWith(
      setup: Setup, run: RunId, path: Text, loaded: CurrentState, snap: Snapshot, left: nat, r: BlobCheck,
      done: Option<WorkerResult>)
  {
    match r
    case Have(blob) => done.Some? && Reports(setup, run, path, loaded, snap, blob, done.value)
    case Changed => done == if left == 0 then Some(Failed) else None
    case Bad => done == Some(Failed)
  }

  /** The stores the check and the upload of one attempt met. */
  datatype Met = Met(atCheck: Blobs, atUpload: Blobs)

  /**
   * How the ingest of one file ends: a file that cannot be scanned fails; one that changed under its
   * upload is scanned a second time, and the second attempt is the last.
   */
  ghost predicate FileEnds(
      setup: Setup, run: RunId, path: Text, loaded: CurrentState, attempts: seq<Attempt>, met: seq<Met>,
      result: WorkerResult)
    requires |attempts| == 2
  {
    match attempts[0].snap
    case None => result == Failed
    case Some(first) =>
      && |met| >= 1
      && (AttemptEnds(setup, run, path, loaded, attempts[0], first, 1, met[0].atCheck, met[0].atUpload, Some(result))
          || (AttemptEnds(setup, run, path, loaded, attempts[0], first, 1, met[0].atCheck, met[0].atUpload, None)
              && SecondEnds(setup, run, path, loaded, attempts[1], met, result)))
  }

  ghost predicate SecondEnds(
      setup: Setup, run: RunId, path: Text, loaded: CurrentState, a: Attempt, met: seq<Met>, result: WorkerResult)
  {
    match a.snap
    case None => result == Failed
    case Some(second) =>
      && |met| == 2
      && AttemptEnds(setup, run, path, loaded, a, second, 0, met[1].atCheck, met[1].atUpload, Some(result))
  }

  /** Every attempt before this one ended with a changed file. */
  ghost predicate ChangedSoFar(
      setup: Setup, run: RunId, path: Text, loaded: CurrentState, attempts: seq<Attempt>, met: seq<Met>, left: nat)
    requires |attempts| == 2
  {
    && left <= 1 && |met| == 1 - left
    && (left == 0 ==>
          && attempts[0].snap.Some?
          && AttemptEnds(setup, run, path, loaded, attempts[0], attempts[0].snap.value, 1,
                         met[0].atCheck, met[0].atUpload, None))
  }

  lemma LastAttempt(
      setup: Setup, run: RunId, path: Text, loaded: CurrentState, attempts: seq<Attempt>, met: seq<Met>, at: Met,
      left: nat, result: WorkerResult)
    requires |attempts| == 2 && ChangedSoFar(setup, run, path, loaded, attempts, met, left)
    requires attempts[1 - left].snap.Some?
    requires AttemptEnds(setup, run, path, loaded, attempts[1 - left], attempts[1 - left].snap.value, left,
                         at.atCheck, at.atUpload, Some(result))
    ensures FileEnds(setup, run, path, loaded, attempts, met + [at], result)
  {}

  lemma OneMoreAttempt(
      setup: Setup, run: RunId, path: Text, loaded: CurrentState, attempts: seq<Attempt>, met: seq<Met>, at: Met,
      left: nat)
    requires |attempts| == 2 && ChangedSoFar(setup, run, path, loaded, attempts, met, left) && left > 0
    requires attempts[0].snap.Some?
    requires AttemptEnds(setup, run, path, loaded, attempts[0], attempts[0].snap.value, left,
                         at.atCheck, at.atUpload, None)
    ensures ChangedSoFar(setup, run, path, loaded, attempts, met + [at], left - 1)
  {}

  lemma NotScanned(
      setup: Setup, run: RunId, path: Text, loaded: CurrentState, attempts: seq<Attempt>, met: seq<Met>, left: nat)
    requires |attempts| == 2 && ChangedSoFar(setup, run, path, loaded, attempts, met, left)
    requires attempts[1 - left].snap.None?
    ensures FileEnds(setup, run, path, loaded, attempts, met, Failed)
  {}

  /** The first attempt finds the blob missing, and its upload sees a changed file. */
  ghost predicate ChangesUnderUpload(setup: Setup, a: Attempt, atCheck: Blobs) {
    && a.snap.Some? && !a.statFails && ObjectKey(setup.sha(a.snap.value.bytes)) !in atCheck
    && SeesChange(setup.sha, setup.sha(a.snap.value.bytes), a.snap.value.size, a.io)
  }

  /**
   * A file that changes once is not lost: the second scan is taken, and if the file stays as it is
   * then, its content is reported, as observed or as unchanged.
   */
  lemma ChangedFileIsRescanned(
      setup: Setup, run: RunId, path: Text, loaded: CurrentState, attempts: seq<Attempt>, met: seq<Met>,
      result: WorkerResult, second: Snapshot)
    requires |attempts| == 2 && FileEnds(setup, run, path, loaded, attempts, met, result)
    requires |met| >= 1 && ChangesUnderUpload(setup, attempts[0], met[0].atCheck)
    requires attempts[1].snap == Some(second) && !attempts[1].statFails && QuietUpload(second, attempts[1].io)
    ensures |met| == 2
    ensures Injective(setup.sha) && Cas(setup.sha, met[1].atCheck) && Honest(setup.sha, met[1].atCheck) ==>
              exists blob :: Reports(setup, run, path, loaded, second, blob, result)
  {
    if Injective(setup.sha) && Cas(setup.sha, met[1].atCheck) && Honest(setup.sha, met[1].atCheck) {
      HonestCheck(setup.sha, met[1].atCheck, second.bytes);
      ContradictionIsAnError(met[1].atCheck, setup.sha(second.bytes), |second.bytes|, false);
    }
  }

  /** A file that changes under both uploads is an error. */
  lemma ChangedTwiceFails(
      setup: Setup, run: RunId, path: Text, loaded: CurrentState, attempts: seq<Attempt>, met: seq<Met>,
      result: WorkerResult)
    requires |attempts| == 2 && FileEnds(setup, run, path, loaded, attempts, met, result)
    requires |met| >= 1 && ChangesUnderUpload(setup, attempts[0], met[0].atCheck)
    requires |met| == 2 ==> ChangesUnderUpload(setup, attempts[1], met[1].atCheck)
    ensures result == Failed
  {}

  /** One turn of the loop: decide, ensure the blob, and give up on a file that changed too often. */
  method TryFile(
      store: BlobStore, setup: Setup, mode: IngestMode, run: RunId, path: Text, loaded: CurrentState, snap: Snapshot,
      left: nat, attempts: seq<Attempt>, ghost before: seq<Blobs>)
    returns (done: Option<WorkerResult>, ghost stores: seq<Blobs>, ghost lost: set<Text>, ghost met: Met)
    requires Injective(setup.sha) && store.sha == setup.sha && Cas(setup.sha, store.objects)
    requires |attempts| == SOURCE_CHANGED_RETRIES + 1 && left <= SOURCE_CHANGED_RETRIES
    requires Writes(mode) ==>
               WorkerRun(setup, run, path, loaded, attempts, before)
               == Checking(Prepare(setup, run, path, snap), left)
    modifies store
    ensures Moved(setup.sha, old(store.objects), store.objects, lost)
    ensures done.None? ==> left > 0 && Writes(mode)
    ensures Writes(mode) ==>
              AttemptEnds(setup, run, path, loaded, attempts[SOURCE_CHANGED_RETRIES - left], snap, left,
                          met.atCheck, met.atUpload, done)
    ensures Writes(mode) ==> WorkerRun(setup, run, path, loaded, attempts, stores) == AfterAttempt(done, left)
    ensures Writes(mode) && done.Some? ==>
              ResultOk(setup, run, path, loaded, store.objects.Keys + lost, done.value)
    ensures !Writes(mode) ==>
              var info, a := Prepare(setup, run, path, snap), attempts[SOURCE_CHANGED_RETRIES - left];
              done == Some(match PreviewCheck(store.objects, info, a.statFails)
                           case Have(blob) => OutcomeOf(loaded, info, blob).result
                           case _ => Failed)
    ensures !Writes(mode) ==> store.writes == old(store.writes)
  {
    var info := Prepare(setup, run, path, snap);
    var decision := Decide(loaded, info.path, info.hash);
    var r, atCheck, atUpload, gone :=
      EnsureBlob(store, setup, mode, run, path, loaded, info, left, attempts[SOURCE_CHANGED_RETRIES - left]);
    lost, stores, met := gone, before, Met(atCheck, atUpload);
    if Writes(mode) {
      stores := CheckedRun(setup, run, path, loaded, attempts, before, info, left, r, atCheck, atUpload);
    }
    match r {
      case Have(blob) =>
        done := Some(match decision
                     case Unchanged => WorkerResult.Unchanged(blob)
                     case Observe => Observed(info, blob));
      case Bad =>
        done := Some(Failed);
      case Changed =>
        done := if left == 0 then Some(Failed) else None;
    }
    assert EndsWith(setup, run, path, loaded, snap, left, r, done);
  }

  /**
   * Process one file against a store that other writers use at the same time and that may lose
   * objects. An ingest reaches the result the worker machine reaches on the same answers, and the
   * result is still true on return, unless its blob was lost meanwhile. A preview changes nothing.
   */
  method ProcessFile(
      store: BlobStore, setup: Setup, mode: IngestMode, run: RunId, path: Text, loaded: CurrentState,
      attempts: seq<Attempt>)
    returns (result: WorkerResult, ghost stores: seq<Blobs>, ghost lost: set<Text>, ghost met: seq<Met>)
    requires Injective(setup.sha) && store.sha == setup.sha && Cas(setup.sha, store.objects)
    requires |attempts| == SOURCE_CHANGED_RETRIES + 1
    modifies store
    ensures Moved(setup.sha, old(store.objects), store.objects, lost)
    ensures Writes(mode) ==>
              && ResultOk(setup, run, path, loaded, store.objects.Keys + lost, result)
              && WorkerRun(setup, run, path, loaded, attempts, stores) == Finished(result)
    ensures mode == Ingest ==> FileEnds(setup, run, path, loaded, attempts, met, result)
    ensures mode != Ingest ==>
              && result == PreviewResult(setup, mode, run, path, loaded, store.objects, attempts[0])
              && PreviewEnds(setup, mode, run, path, loaded, store.objects, attempts[0], result)
              && store.writes == old(store.writes)
  {
    var left: nat := SOURCE_CHANGED_RETRIES;
    lost, met := {}, [];
    ScannedRun(setup, run, path, loaded, attempts, [], left, store.objects);
    stores := [store.objects];
    assert [] + stores == stores;
    var snap := attempts[0].snap;
    PreviewResultEnds(setup, mode, run, path, loaded, store.objects, attempts[0]);
    if snap.Some? && mode.DryRunOffline? {
      result := Observed(Prepare(setup, run, path, snap.value), BlobState.Uploaded);
      return;
    }
    while snap.Some?
      invariant left <= SOURCE_CHANGED_RETRIES
      invariant Writes(mode) ==>
                  WorkerRun(setup, run, path, loaded, attempts, stores) == AfterScan(setup, run, path, snap, left)
      invariant !Writes(mode) ==> snap == attempts[0].snap && left == SOURCE_CHANGED_RETRIES
      invariant snap == attempts[SOURCE_CHANGED_RETRIES - left].snap
      invariant Writes(mode) ==> ChangedSoFar(setup, run, path, loaded, attempts, met, left)
      invariant Moved(setup.sha, old(store.objects), store.objects, lost)
      invariant !Writes(mode) ==> store.writes == old(store.writes)
      decreases left
    {
      ghost var before := store.objects;
      var done, after, gone, at := TryFile(store, setup, mode, run, path, loaded, snap.value, left, attempts, stores);
      MovedTwice(setup.sha, old(store.objects), before, store.objects, lost, gone);
      stores := after;
      PreviewResultEnds(setup, mode, run, path, loaded, store.objects, attempts[0]);
      if done.Some? {
        if Writes(mode) {
          LastAttempt(setup, run, path, loaded, attempts, met, at, left, done.value);
        }
        met := met + [at];
        WorkerIsStable(setup, run, path, loaded, store.objects.Keys + gone, store.objects.Keys + (lost + gone),
                       if Writes(mode) then Finished(done.value) else Finished(Failed));
        result, lost := done.value, lost + gone;
        return;
      }
      OneMoreAttempt(setup, run, path, loaded, attempts, met, at, left);
      lost, met := lost + gone, met + [at];
      left := left - 1;
      ScannedRun(setup, run, path, loaded, attempts, stores, left, store.objects);
      stores := stores + [store.objects];
      snap := attempts[SOURCE_CHANGED_RETRIES - left].snap;
    }
    if Writes(mode) {
      NotScanned(setup, run, path, loaded, attempts, met, left);
    }
    result := Failed;
  }
}
