/** Concurrent workers never both report the upload of one blob, unless the store lost it in between. */
module Deduplication {
  import opened Domain
  import opened Identity
  import opened Upload
  import opened CatalogState
  import opened Process
  import opened World
  import opened BlobSafety
  import P = Pipeline

  ghost predicate UploadLogged(log: seq<P.Joined>, t: nat) {
    exists k :: 0 <= k < |log| && log[k].task == t && P.Is(log[k].result, P.IsUploaded)
  }

  /**
   * One key per worker that reported an upload; a key occurs twice only if the store lost it. The
   * keys the run added are those plus the ones whose final write ended in an ambiguous error.
   */
  ghost predicate UploadsOk(w: World, l: Live)
    requires l.Working?
  {
    && (forall t :: t in l.uploads <==>
                    (t in l.workers && ReportsUpload(l.workers[t])) || UploadLogged(l.pipe.log, t))
    && OnceUnlessLost(l.uploads, l.gone)
    && l.added == l.uploads.Values + l.ambiguous
    && l.uploads.Values * l.ambiguous <= l.gone
    && l.added <= RunSeen(w, l)
  }

  ghost predicate OnceUnlessLost(uploads: map<nat, Text>, gone: set<Text>) {
    forall t, u :: t in uploads && u in uploads && t != u && uploads[t] == uploads[u] ==> uploads[t] in gone
  }

  ghost predicate DedupOk(w: World) {
    w.live.Some? && w.live.value.Working? ==> UploadsOk(w, w.live.value)
  }

  /** A worker reports an upload exactly when its own conditional write created the object. */
  lemma ReportMeansCreated(
      setup: Setup, run: RunId, path: Text, loaded: CurrentState, blobs: Blobs, wk: Worker, e: WorkerEvent)
    requires WorkerEnabled(wk, e)
    ensures var (wk', blobs') := WorkerStep(setup, run, path, loaded, blobs, wk, e);
            && (ReportsUpload(wk') ==>
                  wk.Uploading? && ObjectKey(wk.info.hash) !in blobs
                  && blobs'.Keys == blobs.Keys + {ObjectKey(wk.info.hash)})
            && blobs.Keys <= blobs'.Keys
  {
    if e.Transfer? {
      FailedUploadStoresNothing(setup.sha, blobs, wk.info.hash, wk.info.size, e.io);
      UploadFollowsProtocol(setup.sha, blobs, wk.info.hash, wk.info.size, e.io);
    }
  }

  /** A worker that has not finished has reported nothing. */
  lemma UnfinishedIsSilent(g: Engine, w: World, t: nat)
    requires PoolOk(g, w) && DedupOk(w) && w.live.Some? && w.live.value.Working?
    requires t in w.live.value.workers && !w.live.value.workers[t].Finished?
    ensures t !in w.live.value.uploads
  {
    assert !UploadLogged(w.live.value.pipe.log, t);
  }

  lemma WorkKeepsDedup(g: Engine, w: World, t: nat, we: WorkerEvent)
    requires PoolOk(g, w) && DedupOk(w) && MayWork(w, t, we)
    ensures DedupOk(StepWork(g, w, t, we))
  {
    var l := w.live.value;
    var w' := StepWork(g, w, t, we);
    ReportMeansCreated(g.setup, l.run, l.files[t], l.loaded, w.blobs, l.workers[t], we);
    UnfinishedIsSilent(g, w, t);
    if ReportsUpload(w'.live.value.workers[t]) {
      var key := ObjectKey(l.workers[t].info.hash);
      assert w'.blobs.Keys - w.blobs.Keys == {key};
      ReportKeepsUploads(w, w', l, w'.live.value, t, key);
    } else {
      SilentKeepsUploads(w, w', l, w'.live.value, t);
    }
  }

  /** A new report of a key that was not in the store. */
  lemma ReportKeepsUploads(w: World, w': World, l: Live, l': Live, t: nat, key: Text)
    requires l.Working? && l'.Working? && UploadsOk(w, l) && t in l.workers && t !in l.uploads && key !in w.blobs
    requires w'.blobs.Keys == w.blobs.Keys + {key}
    requires l'.workers.Keys == l.workers.Keys && ReportsUpload(l'.workers[t]) && l'.pipe == l.pipe
    requires forall u :: u in l.workers && u != t ==> l'.workers[u] == l.workers[u]
    requires l'.uploads == l.uploads[t := key] && l'.added == l.added + {key}
    requires l'.ambiguous == l.ambiguous && l'.gone == l.gone
    ensures UploadsOk(w', l')
  {
    AddedValue(l.uploads, t, key);
    assert key in l.added ==> key in l.gone;
    forall u
      ensures u in l'.uploads <==> (u in l'.workers && ReportsUpload(l'.workers[u])) || UploadLogged(l'.pipe.log, u)
    {}
    forall u | u in l.uploads && l.uploads[u] == key
      ensures key in l.gone
    {
      assert l.uploads[u] in l.uploads.Values;
    }
  }

  /** A step that reports nothing may have added keys whose final write was ambiguous. */
  lemma SilentKeepsUploads(w: World, w': World, l: Live, l': Live, t: nat)
    requires l.Working? && l'.Working? && UploadsOk(w, l) && t in l.workers && t !in l.uploads
    requires w.blobs.Keys <= w'.blobs.Keys
    requires l'.workers.Keys == l.workers.Keys && !ReportsUpload(l'.workers[t]) && l'.pipe == l.pipe
    requires forall u :: u in l.workers && u != t ==> l'.workers[u] == l.workers[u]
    requires l'.uploads == l.uploads && l'.gone == l.gone
    requires l'.added == l.added + (w'.blobs.Keys - w.blobs.Keys)
    requires l'.ambiguous == l.ambiguous + (w'.blobs.Keys - w.blobs.Keys)
    ensures UploadsOk(w', l')
  {
    forall u
      ensures u in l'.uploads <==> (u in l'.workers && ReportsUpload(l'.workers[u])) || UploadLogged(l'.pipe.log, u)
    {}
  }

  lemma AddedValue(m: map<nat, Text>, t: nat, key: Text)
    requires t !in m
    ensures m[t := key].Values == m.Values + {key}
  {
    var m' := m[t := key];
    assert m'[t] == key;
    forall v | v in m.Values
      ensures v in m'.Values
    {
      var u :| u in m && m[u] == v;
      assert m'[u] == v;
    }
  }

  lemma UploadLoggedSnoc(log: seq<P.Joined>, t: nat, r: WorkerResult)
    ensures forall u :: UploadLogged(log + [P.Joined(t, r)], u) <==>
                        UploadLogged(log, u) || (u == t && P.Is(r, P.IsUploaded))
  {
    var log' := log + [P.Joined(t, r)];
    assert log'[|log|] == P.Joined(t, r);
    forall u
      ensures UploadLogged(log', u) <==> UploadLogged(log, u) || (u == t && P.Is(r, P.IsUploaded))
    {
      if UploadLogged(log, u) {
        var k :| 0 <= k < |log| && log[k].task == u && P.Is(log[k].result, P.IsUploaded);
        assert log'[k].task == u;
      }
    }
  }

  lemma JoinKeepsDedup(g: Engine, w: World, t: nat, r: WorkerResult)
    requires PoolOk(g, w) && DedupOk(w) && MayPipe(g, w, P.Join(t, r))
    ensures DedupOk(StepPipeline(g, w, P.Join(t, r)))
  {
    var l := w.live.value;
    var l' := StepPipe(g, l, P.Join(t, r));
    assert l'.workers == l.workers - {t} && l'.pipe.log == l.pipe.log + [P.Joined(t, r)];
    JoinedKeepsUploads(w, l, l', t, r);
    SameStores(w, StepPipeline(g, w, P.Join(t, r)), l');
  }

  /** A report moves from the worker to the log. */
  lemma JoinedKeepsUploads(w: World, l: Live, l': Live, t: nat, r: WorkerResult)
    requires l.Working? && l'.Working? && UploadsOk(w, l) && t in l.workers && l.workers[t] == Finished(r)
    requires l'.workers == l.workers - {t} && l'.pipe.log == l.pipe.log + [P.Joined(t, r)]
    requires l'.uploads == l.uploads && l'.ambiguous == l.ambiguous && l'.added == l.added && l'.gone == l.gone
    ensures UploadsOk(w, l')
  {
    UploadLoggedSnoc(l.pipe.log, t, r);
    assert ReportsUpload(l.workers[t]) <==> P.Is(r, P.IsUploaded);
  }

  lemma SameStores(w: World, w': World, l: Live)
    requires l.Working? && UploadsOk(w, l) && w'.blobs == w.blobs
    ensures UploadsOk(w', l)
  {}

  /** A step that touches neither reports nor keys keeps them, even if the store loses objects. */
  lemma UploadsFrame(w: World, w': World, l: Live, l': Live)
    requires l.Working? && l'.Working? && UploadsOk(w, l)
    requires l'.uploads == l.uploads && l'.ambiguous == l.ambiguous && l'.added == l.added
    requires l'.pipe.log == l.pipe.log && l.gone <= l'.gone && RunSeen(w, l) <= RunSeen(w', l')
    requires forall t :: (t in l'.workers && ReportsUpload(l'.workers[t]))
                         <==> (t in l.workers && ReportsUpload(l.workers[t]))
    ensures UploadsOk(w', l')
  {}

  lemma OtherPipeKeepsDedup(g: Engine, w: World, p: P.Event)
    requires PoolOk(g, w) && DedupOk(w) && MayPipe(g, w, p) && !p.Join?
    ensures DedupOk(StepPipeline(g, w, p))
  {
    var l := w.live.value;
    var l' := StepPipe(g, l, p);
    assert p.Spawn? ==> l.pipe.next !in l.workers;
    UploadsFrame(w, StepPipeline(g, w, p), l, l');
  }

  lemma LoseKeepsDedup(g: Engine, w: World, keys: set<Text>)
    requires DedupOk(w)
    ensures DedupOk(LoseBlobs(w, keys))
  {
    var w' := LoseBlobs(w, keys);
    if w.live.Some? && w.live.value.Working? {
      assert RunSeen(w, w.live.value) <= RunSeen(w', w'.live.value);
      UploadsFrame(w, w', w.live.value, w'.live.value);
    }
  }

  lemma OthersKeepDedup(g: Engine, w: World, e: Event)
    requires DedupOk(w) && Enabled(g, w, e) && !e.Work? && !e.Pipe? && !e.Lose? && !e.Start?
    ensures DedupOk(Step(g, w, e))
  {
    var w' := Step(g, w, e);
    assert w.blobs.Keys <= w'.blobs.Keys;
    if w'.live.Some? && w'.live.value.Working? {
      UploadsFrame(w, w', w.live.value, w'.live.value);
    }
  }

  lemma StartKeepsDedup(g: Engine, w: World, e: Event)
    requires Enabled(g, w, e) && e.Start?
    ensures DedupOk(Step(g, w, e))
  {}

  lemma DedupStep(g: Engine, w: World, e: Event)
    requires PoolOk(g, w) && DedupOk(w) && Enabled(g, w, e)
    ensures DedupOk(Step(g, w, e))
  {
    if e.Work? {
      WorkKeepsDedup(g, w, e.task, e.w);
    } else if e.Pipe? {
      if e.p.Join? {
        JoinKeepsDedup(g, w, e.p.task, e.p.result);
      } else {
        OtherPipeKeepsDedup(g, w, e.p);
      }
    } else if e.Lose? {
      LoseKeepsDedup(g, w, e.keys);
    } else if e.Start? {
      StartKeepsDedup(g, w, e);
    } else {
      OthersKeepDedup(g, w, e);
    }
  }

  // ---------- counting ----------

  ghost function UploadTasks(log: seq<P.Joined>): set<nat> {
    if log == [] then {}
    else
      var j := log[|log| - 1];
      UploadTasks(log[..|log| - 1]) + if P.Is(j.result, P.IsUploaded) then {j.task} else {}
  }

  lemma {:induction false} UploadTasksAreLogged(log: seq<P.Joined>, t: nat)
    ensures t in UploadTasks(log) <==> UploadLogged(log, t)
  {
    if log != [] {
      var n := |log| - 1;
      UploadTasksAreLogged(log[..n], t);
      if UploadLogged(log[..n], t) {
        var k :| 0 <= k < n && log[..n][k].task == t && P.Is(log[..n][k].result, P.IsUploaded);
        assert log[k].task == t;
      }
      if UploadLogged(log, t) && !(log[n].task == t && P.Is(log[n].result, P.IsUploaded)) {
        var k :| 0 <= k < |log| && log[k].task == t && P.Is(log[k].result, P.IsUploaded);
        assert log[..n][k].task == t;
      }
    }
  }

  ghost predicate JoinedOnce(log: seq<P.Joined>) {
    forall j, k :: 0 <= j < k < |log| ==> log[j].task != log[k].task
  }

  lemma {:induction false} UploadTasksCount(log: seq<P.Joined>)
    requires JoinedOnce(log)
    ensures |UploadTasks(log)| == P.Count(log, P.IsUploaded)
  {
    if log != [] {
      var n := |log| - 1;
      EarlierJoinsDiffer(log);
      UploadTasksCount(log[..n]);
      OneMore(UploadTasks(log[..n]), log[n].task);
    }
  }

  /** What was joined last is not among what was joined before. */
  lemma EarlierJoinsDiffer(log: seq<P.Joined>)
    requires log != [] && JoinedOnce(log)
    ensures JoinedOnce(log[..|log| - 1])
    ensures log[|log| - 1].task !in UploadTasks(log[..|log| - 1])
  {
    var n := |log| - 1;
    UploadTasksAreLogged(log[..n], log[n].task);
  }

  ghost predicate NoValueTwice(m: map<nat, Text>) {
    forall t, u :: t in m && u in m && m[t] == m[u] ==> t == u
  }

  /** Fewer values than keys means that some value occurs twice. */
  lemma {:induction false} ValuesOf(m: map<nat, Text>)
    ensures |m.Values| <= |m|
    ensures |m.Values| == |m| <==> NoValueTwice(m)
    decreases |m|
  {
    if m != map[] {
      var t :| t in m;
      var rest := m - {t};
      assert m.Keys == rest.Keys + {t} && |m| == |m.Keys| && |rest| == |rest.Keys|;
      ValuesOf(rest);
      WithoutKey(m, t);
      OneMore(rest.Values, m[t]);
      NoValueTwiceWithout(m, t);
    }
  }

  lemma OneMore<T>(s: set<T>, v: T)
    ensures |s + {v}| == |s| + if v in s then 0 else 1
  {
    assert v in s ==> s + {v} == s;
  }

  lemma NoValueTwiceWithout(m: map<nat, Text>, t: nat)
    requires t in m
    ensures NoValueTwice(m) <==> NoValueTwice(m - {t}) && m[t] !in (m - {t}).Values
  {
    var rest := m - {t};
    WithoutKey(m, t);
    if NoValueTwice(rest) && m[t] !in rest.Values {
      forall u, v | u in m && v in m && m[u] == m[v]
        ensures u == v
      {
        assert u != t && v != t ==> u in rest && v in rest;
      }
    }
    if NoValueTwice(m) {
      assert forall u :: u in rest ==> u in m && rest[u] == m[u];
    }
  }

  lemma WithoutKey(m: map<nat, Text>, t: nat)
    requires t in m
    ensures m.Values == (m - {t}).Values + {m[t]}
    ensures forall v :: v in (m - {t}).Values <==> exists u :: u in m && u != t && m[u] == v
  {
    var rest := m - {t};
    forall v | v in m.Values
      ensures v in rest.Values || v == m[t]
    {
      var u :| u in m && m[u] == v;
      assert u == t || (u in rest && rest[u] == v);
    }
    forall v | v in rest.Values
      ensures v in m.Values && exists u :: u in m && u != t && m[u] == v
    {
      var u :| u in rest && rest[u] == v;
      assert m[u] == v;
    }
    forall v, u | u in m && u != t && m[u] == v
      ensures v in rest.Values
    {
      assert rest[u] == v;
    }
  }

  /**
   * When the pipeline of a run is done, `uploaded` counts the workers that reported an upload. Two
   * of them have the same key only if the store lost it in between. So if nothing they stored was
   * lost, it is the number of distinct keys reported, which is the number of keys the run added
   * unless a final write was ambiguous.
   */
  lemma UploadedCountsNewKeys(g: Engine, w: World)
    requires PoolOk(g, w) && DedupOk(w) && w.live.Some? && w.live.value.Working? && P.Final(w.live.value.pipe)
    ensures var l := w.live.value;
            && l.pipe.counts.uploaded == |l.uploads|
            && OnceUnlessLost(l.uploads, l.gone)
            && l.uploads.Values <= l.added <= RunSeen(w, l)
            && |l.added| <= l.pipe.counts.uploaded + |l.ambiguous|
            && (l.uploads.Values !! l.gone ==>
                  && l.pipe.counts.uploaded == |l.uploads.Values| <= |l.added|
                  && (l.ambiguous == {} ==> l.pipe.counts.uploaded == |l.added|))
  {
    var l := w.live.value;
    assert l.workers.Keys == {};
    forall t
      ensures t in l.uploads.Keys <==> t in UploadTasks(l.pipe.log)
    {
      UploadTasksAreLogged(l.pipe.log, t);
    }
    assert l.uploads.Keys == UploadTasks(l.pipe.log);
    UploadTasksCount(l.pipe.log);
    ValuesOf(l.uploads);
    assert |l.uploads| == |l.uploads.Keys|;
    AddedCount(l.uploads.Values, l.ambiguous, l.added);
    if l.uploads.Values !! l.gone {
      assert forall t :: t in l.uploads ==> l.uploads[t] in l.uploads.Values;
    }
  }

  lemma AddedCount(a: set<Text>, b: set<Text>, all: set<Text>)
    requires all == a + b
    ensures |a| <= |all| <= |a| + |b|
  {
    assert all == a + (b - a) && |all| == |a| + |b - a|;
    assert b == (b - a) + (b * a) && |b| == |b - a| + |b * a|;
  }
}
