/** What the byte count of a run says about the blobs the run stored. */
module UploadedBytes {
  import opened Domain
  import opened Identity
  import opened Upload
  import opened CatalogState
  import opened Journal
  import opened Process
  import opened World
  import opened BlobSafety
  import P = Pipeline

  /** What is recorded for a worker that observed and uploaded is the key and the size of its row. */
  ghost predicate KeyFits(l: Live, t: nat, r: WorkerResult)
    requires l.Working?
  {
    r.Observed? && r.blob == BlobState.Uploaded ==>
      && t in l.uploads && l.uploads[t] == ObjectKey(r.row.hash)
      && t in l.stored && l.stored[t] == r.row.size
  }

  ghost predicate LiveKeysOk(l: Live)
    requires l.Working?
  {
    && (forall t :: t in l.workers && l.workers[t].Finished? ==> KeyFits(l, t, l.workers[t].result))
    && (forall k :: 0 <= k < |l.pipe.log| ==> KeyFits(l, l.pipe.log[k].task, l.pipe.log[k].result))
  }

  ghost predicate KeysOk(w: World) {
    w.live.Some? && w.live.value.Working? ==> LiveKeysOk(w.live.value)
  }

  lemma WorkKeepsKeys(g: Engine, w: World, t: nat, we: WorkerEvent)
    requires PoolOk(g, w) && KeysOk(w) && MayWork(w, t, we)
    ensures KeysOk(StepWork(g, w, t, we))
  {
    var l := w.live.value;
    var l' := StepWork(g, w, t, we).live.value;
    assert forall k :: 0 <= k < |l.pipe.log| ==> l.pipe.log[k].task != t;
    ReportsOwnKey(g.setup, l.run, l.files[t], l.loaded, w.blobs, l.workers[t], we);
    ReplacedWorkerKeepsKeys(l, l', t, l'.workers[t]);
  }

  /** A reported upload put the scanned number of bytes under the key of the scanned hash. */
  lemma ReportsOwnKey(
      setup: Setup, run: RunId, path: Text, loaded: CurrentState, blobs: Blobs, wk: Worker, e: WorkerEvent)
    requires WorkerEnabled(wk, e)
    ensures var (wk', blobs') := WorkerStep(setup, run, path, loaded, blobs, wk, e);
            ReportsUpload(wk') ==>
              && wk.Uploading? && BytesUnder(blobs', wk.info.hash) == wk.info.size
              && (wk'.result.Observed? ==> wk'.result.row == wk.info)
  {}

  lemma ReplacedWorkerKeepsKeys(l: Live, l': Live, t: nat, wk: Worker)
    requires l.Working? && l'.Working? && LiveKeysOk(l) && l'.pipe == l.pipe && l'.workers == l.workers[t := wk]
    requires forall k :: 0 <= k < |l.pipe.log| ==> l.pipe.log[k].task != t
    requires forall u :: u != t && u in l.uploads ==> u in l'.uploads && l'.uploads[u] == l.uploads[u]
    requires forall u :: u != t && u in l.stored ==> u in l'.stored && l'.stored[u] == l.stored[u]
    requires wk.Finished? ==> KeyFits(l', t, wk.result)
    ensures LiveKeysOk(l')
  {}

  lemma PipeKeepsKeys(g: Engine, w: World, p: P.Event)
    requires KeysOk(w) && MayPipe(g, w, p)
    ensures KeysOk(StepPipeline(g, w, p))
  {
    LogKeepsKeys(g, w.live.value, p);
  }

  lemma LogKeepsKeys(g: Engine, l: Live, p: P.Event)
    requires l.Working? && LiveKeysOk(l) && PipeEnabled(g, l, p)
    ensures LiveKeysOk(StepPipe(g, l, p))
  {}

  lemma StartKeepsKeys(g: Engine, w: World, files: seq<Text>, reply: SaveReply)
    requires MayStart(w, files)
    ensures KeysOk(StepStart(g, w, files, reply))
  {}

  lemma SameWorkSameKeys(w: World, w': World)
    requires KeysOk(w) && SameWork(w, w')
    ensures KeysOk(w')
  {}

  lemma KeysStep(g: Engine, w: World, e: Event)
    requires PoolOk(g, w) && KeysOk(w) && Enabled(g, w, e)
    ensures KeysOk(Step(g, w, e))
  {
    if e.Work? {
      WorkKeepsKeys(g, w, e.task, e.w);
    } else if e.Pipe? {
      PipeKeepsKeys(g, w, e.p);
    } else if e.Start? {
      StartKeepsKeys(g, w, e.files, e.reply);
    } else {
      OthersKeepWork(g, w, e);
      SameWorkSameKeys(w, Step(g, w, e));
    }
  }

  // ---------- adding up ----------

  ghost function StoredBy(stored: map<nat, nat>, t: nat): nat {
    if t in stored then stored[t] else 0
  }

  /** Bytes of the blobs whose upload some joined worker reported. */
  ghost function UploadBytes(log: seq<P.Joined>, stored: map<nat, nat>): nat {
    if log == [] then 0
    else
      var j := log[|log| - 1];
      UploadBytes(log[..|log| - 1], stored) + if P.Is(j.result, P.IsUploaded) then StoredBy(stored, j.task) else 0
  }

  /** A blob that was missing for an unchanged path and has been stored again. */
  predicate Restores(r: WorkerResult) {
    r == WorkerResult.Unchanged(BlobState.Uploaded)
  }

  ghost function RestoredBytes(log: seq<P.Joined>, stored: map<nat, nat>): nat {
    if log == [] then 0
    else
      var j := log[|log| - 1];
      RestoredBytes(log[..|log| - 1], stored) + if Restores(j.result) then StoredBy(stored, j.task) else 0
  }

  lemma {:induction false} BytesAddUp(l: Live, log: seq<P.Joined>)
    requires l.Working? && forall k :: 0 <= k < |log| ==> KeyFits(l, log[k].task, log[k].result)
    ensures UploadBytes(log, l.stored) == P.TransferredBytes(log) + RestoredBytes(log, l.stored)
  {
    if log != [] {
      var n := |log| - 1;
      BytesAddUp(l, log[..n]);
      assert KeyFits(l, log[n].task, log[n].result);
    }
  }

  /**
   * `bytes` is documented as the bytes of the uploaded blobs, but restored blobs are left out: the
   * two agree exactly when no restored blob has any bytes.
   */
  lemma BytesLeaveOutRestoredBlobs(g: Engine, w: World)
    requires PoolOk(g, w) && KeysOk(w) && w.live.Some? && w.live.value.Working?
    ensures var l := w.live.value;
            var uploaded, restored := UploadBytes(l.pipe.log, l.stored), RestoredBytes(l.pipe.log, l.stored);
            && l.pipe.counts.bytes + restored == uploaded
            && (l.pipe.counts.bytes == uploaded <==>
                  forall k :: 0 <= k < |l.pipe.log| && Restores(l.pipe.log[k].result) ==>
                    StoredBy(l.stored, l.pipe.log[k].task) == 0)
  {
    var l := w.live.value;
    BytesAddUp(l, l.pipe.log);
    NothingRestored(l.pipe.log, l.stored);
  }

  lemma {:induction false} NothingRestored(log: seq<P.Joined>, stored: map<nat, nat>)
    ensures RestoredBytes(log, stored) == 0 <==>
            forall k :: 0 <= k < |log| && Restores(log[k].result) ==> StoredBy(stored, log[k].task) == 0
  {
    if log != [] {
      var n := |log| - 1;
      NothingRestored(log[..n], stored);
      assert forall k :: 0 <= k < n ==> log[..n][k] == log[k];
    }
  }
}
