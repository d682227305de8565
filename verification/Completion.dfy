/**
 * When nothing fails, a run completes and settles its candidates; and from every state between two
 * runs such a run is possible, so one of them settles the tree.
 */
module Completion {
  import opened Domain
  import opened Seqs
  import opened Upload
  import opened CatalogState
  import opened Journal
  import opened Process
  import opened World
  import opened BlobSafety
  import opened Safety
  import opened JournalSafety
  import opened Supersession
  import opened Predecessors
  import opened Recovery
  import opened Progress
  import P = Pipeline

  // ---------- what it means that nothing fails ----------

  /** The file is read as the tree has it, the store can be asked, and the upload goes through. */
  ghost predicate WorksWell(tree: Tree, path: Text, we: WorkerEvent) {
    path in tree &&
    match we
    case Scan(snap) => snap.Some? && snap.value.bytes == tree[path] && snap.value.size == |tree[path]|
    case Check(statFails) => !statFails
    case Transfer(io) => QuietUpload(Snapshot(|tree[path]|, tree[path], 0), io)
    case Panic => false
  }

  /**
   * Nothing fails that a run depends on. Saves after the first may fail, objects may be lost, and
   * others may use the stores, as long as they record digests honestly.
   */
  ghost predicate FaultFree(g: Engine, tree: Tree, w: World, e: Event)
    requires Enabled(g, w, e)
  {
    match e
    case Reconcile(reply) => reply.Saved?
    case Start(_, reply) => reply.Saved?
    case Work(t, we) => WorksWell(tree, w.live.value.files[t], we)
    case Answer(ok) => ok
    case Crash => false
    case ForeignBlobs(blobs) => Honest(g.setup.sha, blobs)
    case _ => true
  }

  ghost predicate FaultFreeRun(g: Engine, tree: Tree, w: World, es: seq<Event>)
    requires ValidRun(g, w, es)
    decreases es
  {
    es == [] || (FaultFree(g, tree, w, es[0]) && FaultFreeRun(g, tree, Step(g, w, es[0]), es[1..]))
  }

  /** The candidates that runs were started on. */
  function Offers(e: Event): set<Text> {
    if e.Start? then FileSet(e.files) else {}
  }

  function Offered(es: seq<Event>): set<Text>
    decreases es
  {
    if es == [] then {} else Offers(es[0]) + Offered(es[1..])
  }

  // ---------- nothing has failed so far ----------

  ghost predicate InfoHolds(g: Engine, tree: Tree, path: Text, info: Row) {
    path in tree && info.hash == g.setup.sha(tree[path]) && info.size == |tree[path]|
  }

  ghost predicate WorkerWell(g: Engine, tree: Tree, path: Text, wk: Worker) {
    match wk
    case Scanning(_) => true
    case Checking(info, _) => InfoHolds(g, tree, path, info)
    case Uploading(info, _) => InfoHolds(g, tree, path, info)
    case Finished(r) => !P.Is(r, P.IsError)
  }

  ghost predicate WorkWell(g: Engine, tree: Tree, l: Live)
    requires l.Working?
  {
    && (forall t :: t in l.workers ==> t < |l.files| && WorkerWell(g, tree, l.files[t], l.workers[t]))
    && (forall k :: 0 <= k < |l.pipe.log| ==> !P.Is(l.pipe.log[k].result, P.IsError))
    && !l.pipe.writer.Broken?
  }

  ghost predicate NothingFailed(g: Engine, tree: Tree, w: World) {
    && Honest(g.setup.sha, w.blobs)
    && (w.live.Some? && w.live.value.Working? ==>
          WorkWell(g, tree, w.live.value) && !w.live.value.phase.Refused?)
  }

  lemma WorkerStaysWell(
      g: Engine, tree: Tree, run: RunId, path: Text, loaded: CurrentState, blobs: Blobs, wk: Worker, we: WorkerEvent)
    requires Injective(g.setup.sha) && Cas(g.setup.sha, blobs) && Honest(g.setup.sha, blobs)
    requires WorkerEnabled(wk, we) && WorkerWell(g, tree, path, wk) && WorksWell(tree, path, we)
    ensures var (wk', blobs') := WorkerStep(g.setup, run, path, loaded, blobs, wk, we);
            WorkerWell(g, tree, path, wk') && Honest(g.setup.sha, blobs')
  {
    if we.Check? {
      HonestCheck(g.setup.sha, blobs, tree[path]);
    }
  }

  lemma WorkStaysWell(g: Engine, tree: Tree, w: World, t: nat, we: WorkerEvent)
    requires Injective(g.setup.sha) && BlobsOk(g, w) && NothingFailed(g, tree, w)
    requires MayWork(w, t, we) && WorksWell(tree, w.live.value.files[t], we)
    ensures NothingFailed(g, tree, StepWork(g, w, t, we))
  {
    var l := w.live.value;
    WorkerStaysWell(g, tree, l.run, l.files[t], l.loaded, w.blobs, l.workers[t], we);
    var w' := StepWork(g, w, t, we);
    assert w'.live.value.workers == l.workers[t := w'.live.value.workers[t]];
  }

  lemma PipeStaysWell(g: Engine, tree: Tree, l: Live, p: P.Event)
    requires l.Working? && l.pipe.total == |l.files| && WorkWell(g, tree, l) && !l.phase.Refused?
    requires PipeEnabled(g, l, p)
    ensures WorkWell(g, tree, StepPipe(g, l, p)) && !StepPipe(g, l, p).phase.Refused?
  {}

  lemma StartIsWell(g: Engine, tree: Tree, w: World, files: seq<Text>, reply: SaveReply)
    requires ValidEngine(g) && NothingFailed(g, tree, w) && MayStart(w, files)
    ensures NothingFailed(g, tree, StepStart(g, w, files, reply))
  {}

  /** The stores and the work are as well as before, and no append has been refused. */
  lemma WellFrame(g: Engine, tree: Tree, w: World, w': World)
    requires NothingFailed(g, tree, w) && SameWork(w, w') && Honest(g.setup.sha, w'.blobs)
    requires w'.live.Some? && w'.live.value.Working? ==> !w'.live.value.phase.Refused?
    ensures NothingFailed(g, tree, w')
  {}

  lemma NoRefusal(g: Engine, w: World, e: Event)
    requires Enabled(g, w, e) && !e.Start? && !e.Work? && !e.Pipe? && (e.Answer? ==> e.ok)
    requires w.live.Some? && w.live.value.Working? ==> !w.live.value.phase.Refused?
    ensures Step(g, w, e).live.Some? && Step(g, w, e).live.value.Working? ==> !Step(g, w, e).live.value.phase.Refused?
  {}

  lemma LossStaysHonest(g: Engine, w: World, keys: set<Text>)
    requires Honest(g.setup.sha, w.blobs)
    ensures Honest(g.setup.sha, LoseBlobs(w, keys).blobs)
  {}

  lemma OthersKeepObjects(g: Engine, w: World, e: Event)
    requires Enabled(g, w, e) && !e.Work? && !e.Lose? && !e.ForeignBlobs?
    ensures Step(g, w, e).blobs == w.blobs
  {}

  lemma StaysHonest(g: Engine, tree: Tree, w: World, e: Event)
    requires Enabled(g, w, e) && FaultFree(g, tree, w, e) && Honest(g.setup.sha, w.blobs) && !e.Work?
    ensures Honest(g.setup.sha, Step(g, w, e).blobs)
  {
    if e.Lose? {
      LossStaysHonest(g, w, e.keys);
    } else if !e.ForeignBlobs? {
      OthersKeepObjects(g, w, e);
    }
  }

  lemma OthersStayWell(g: Engine, tree: Tree, w: World, e: Event)
    requires NothingFailed(g, tree, w) && Enabled(g, w, e) && FaultFree(g, tree, w, e)
    requires !e.Start? && !e.Pipe? && !e.Work?
    ensures NothingFailed(g, tree, Step(g, w, e))
  {
    OthersKeepWork(g, w, e);
    NoRefusal(g, w, e);
    StaysHonest(g, tree, w, e);
    WellFrame(g, tree, w, Step(g, w, e));
  }

  lemma WellStep(g: Engine, tree: Tree, w: World, e: Event)
    requires ValidEngine(g) && Injective(g.setup.sha) && PoolOk(g, w) && BlobsOk(g, w)
    requires NothingFailed(g, tree, w) && Enabled(g, w, e) && FaultFree(g, tree, w, e)
    ensures NothingFailed(g, tree, Step(g, w, e))
  {
    if e.Work? {
      WorkStaysWell(g, tree, w, e.task, e.w);
    } else if e.Pipe? {
      PipeStaysWell(g, tree, w.live.value, e.p);
    } else if e.Start? {
      StartIsWell(g, tree, w, e.files, e.reply);
    } else {
      OthersStayWell(g, tree, w, e);
    }
  }

  // ---------- every candidate is settled ----------

  /** What the live run still has to settle. */
  ghost function Due(w: World): set<Text> {
    if w.live.Some? && w.live.value.Working? then FileSet(w.live.value.files) else {}
  }

  /** When nothing has failed, the end is a completion. */
  lemma EndsCompleted(g: Engine, tree: Tree, l: Live)
    requires l.Working? && P.Inv(g.pool, l.pipe) && WorkWell(g, tree, l)
    ensures TerminalOf(l.pipe).Completed?
  {
    P.FailedTasksTell(l.pipe.log);
  }

  /** Candidates are settled or due: a step makes them neither more nor less, but for those it offers. */
  ghost predicate Balanced(g: Engine, w: World, e: Event)
    requires Enabled(g, w, e)
  {
    SettledNow(w, e) + Due(Step(g, w, e)) == Due(w) + Offers(e)
  }

  lemma StartIsDue(g: Engine, w: World, files: seq<Text>)
    requires MayStart(w, files)
    ensures Due(w) == {} && Due(StepStart(g, w, files, Saved)) == FileSet(files)
  {}

  lemma StartIsBalanced(g: Engine, w: World, e: Event)
    requires Enabled(g, w, e) && e.Start? && e.reply.Saved?
    ensures Balanced(g, w, e)
  {
    StartIsDue(g, w, e.files);
  }

  lemma CompletionIsDue(g: Engine, tree: Tree, w: World, reply: SaveReply)
    requires PoolOk(g, w) && NothingFailed(g, tree, w) && MayTerminate(w)
    ensures SettledNow(w, Terminate(reply)) == Due(w) && Due(StepTerminate(g, w, reply)) == {}
  {
    EndsCompleted(g, tree, w.live.value);
  }

  lemma CompletionIsBalanced(g: Engine, tree: Tree, w: World, e: Event)
    requires PoolOk(g, w) && NothingFailed(g, tree, w) && Enabled(g, w, e) && e.Terminate?
    ensures Balanced(g, w, e)
  {
    CompletionIsDue(g, tree, w, e.reply);
  }

  lemma PassesAreBalanced(g: Engine, w: World, e: Event)
    requires Enabled(g, w, e) && (e.Begin? || e.Reconcile? || e.Supersede? || e.Finish?)
    ensures Balanced(g, w, e)
  {
    NoWorkOutside(g, w, e);
    assert Due(w) == {} && Due(Step(g, w, e)) == {};
  }

  lemma WorkStaysDue(g: Engine, w: World, e: Event)
    requires Enabled(g, w, e) && (e.Work? || e.Pipe? || e.Record? || e.Land? || e.Answer? || e.Note?)
    ensures Due(Step(g, w, e)) == Due(w)
  {}

  lemma SurroundingsStayDue(g: Engine, w: World, e: Event)
    requires Enabled(g, w, e) && (e.Lose? || e.ForeignBlobs? || e.ForeignRows? || e.ForeignJournals?)
    ensures Due(Step(g, w, e)) == Due(w)
  {}

  lemma DueStep(g: Engine, tree: Tree, w: World, e: Event)
    requires PoolOk(g, w) && NothingFailed(g, tree, w) && Enabled(g, w, e) && FaultFree(g, tree, w, e)
    ensures Balanced(g, w, e)
  {
    if e.Start? {
      StartIsBalanced(g, w, e);
    } else if e.Terminate? {
      CompletionIsBalanced(g, tree, w, e);
    } else if e.Begin? || e.Reconcile? || e.Supersede? || e.Finish? {
      PassesAreBalanced(g, w, e);
    } else if e.Lose? || e.ForeignBlobs? || e.ForeignRows? || e.ForeignJournals? {
      SurroundingsStayDue(g, w, e);
    } else {
      WorkStaysDue(g, w, e);
    }
  }

  lemma FaultFreeStep(g: Engine, tree: Tree, w: World, e: Event)
    requires ValidEngine(g) && Injective(g.setup.sha) && Safe(g, w) && NothingFailed(g, tree, w)
    requires Enabled(g, w, e) && FaultFree(g, tree, w, e)
    ensures Safe(g, Step(g, w, e)) && NothingFailed(g, tree, Step(g, w, e)) && Balanced(g, w, e)
  {
    SafeStep(g, w, e);
    WellStep(g, tree, w, e);
    DueStep(g, tree, w, e);
  }

  lemma {:induction false} DueRun(g: Engine, tree: Tree, w: World, es: seq<Event>)
    requires ValidEngine(g) && Injective(g.setup.sha) && Safe(g, w) && NothingFailed(g, tree, w)
    requires ValidRun(g, w, es) && FaultFreeRun(g, tree, w, es)
    ensures SettledBy(g, w, es) + Due(Exec(g, w, es)) == Due(w) + Offered(es)
    decreases es
  {
    if es != [] {
      var w1 := Step(g, w, es[0]);
      FaultFreeStep(g, tree, w, es[0]);
      DueRun(g, tree, w1, es[1..]);
      AddUp(SettledNow(w, es[0]), SettledBy(g, w1, es[1..]), Due(w), Due(w1), Due(Exec(g, w1, es[1..])),
            Offers(es[0]), Offered(es[1..]));
    }
  }

  lemma AddUp(
      now: set<Text>, later: set<Text>, due: set<Text>, mid: set<Text>, end: set<Text>,
      offers: set<Text>, offered: set<Text>)
    requires now + mid == due + offers && later + end == mid + offered
    ensures now + later + end == due + (offers + offered)
  {
    assert now + later + end == now + (later + end);
    assert now + (mid + offered) == (now + mid) + offered;
  }

  /**
   * Runs in which nothing fails settle every candidate they were started on, and leave the catalog
   * state of these paths equal to the tree.
   */
  lemma FaultFreeRunsSettle(g: Engine, tree: Tree, w: World, es: seq<Event>)
    requires ValidEngine(g) && Injective(g.setup.sha) && Safe(g, w) && w.live.None? && Honest(g.setup.sha, w.blobs)
    requires ValidRun(g, w, es) && FaithfulRun(g, tree, w, es) && FaultFreeRun(g, tree, w, es)
    requires Exec(g, w, es).live.None?
    ensures SettledBy(g, w, es) == Offered(es)
    ensures forall p :: p in Offered(es) ==>
              Matches(g, tree, Latest(SourceRows(g.setup.source, Exec(g, w, es).catalog)), p)
  {
    DueRun(g, tree, w, es);
    var news := RecoveryConverges(g, tree, w, es);
  }

  // ---------- and such a run is always possible ----------

  /** The upload of a file that stays as it is. */
  function Delivery(bytes: Bytes): UploadIO {
    UploadIO(Some(|bytes|), true, [Chunk(bytes, true)], Acknowledged, true)
  }

  lemma DeliveryIsQuiet(bytes: Bytes)
    ensures QuietUpload(Snapshot(|bytes|, bytes, 0), Delivery(bytes))
  {
    var input := Delivery(bytes).input;
    assert input[0] == Chunk(bytes, true) && input[1..] == [] && [] + bytes == bytes;
  }

  function ContentAt(tree: Tree, files: seq<Text>, t: nat): Bytes {
    if t < |files| && files[t] in tree then tree[files[t]] else []
  }

  /** Every file is read as the tree has it, at one time, and every other answer is good. */
  function GoodAnswers(tree: Tree, files: seq<Text>, now: Time): Answers {
    Answers(
      Saved, true,
      (t: nat) => Some(Snapshot(|ContentAt(tree, files, t)|, ContentAt(tree, files, t), now)),
      (t: nat) => false,
      (t: nat) => Delivery(ContentAt(tree, files, t)),
      files)
  }

  /** Every row the run has loaded is earlier than `now`. */
  ghost predicate LoadedBefore(g: Engine, w: World, known: nat, now: Time) {
    var rows := SourceRows(g.setup.source, w.catalog);
    known <= |rows| && forall i :: 0 <= i < known ==> rows[i].at < now
  }

  /** The live run is given these files, all of the tree, and loaded nothing from the future. */
  ghost predicate OnTrack(g: Engine, tree: Tree, files: seq<Text>, now: Time, w: World) {
    && (forall i :: 0 <= i < |files| ==> files[i] in tree)
    && (w.live.Some? && !w.live.value.Closing? ==> LoadedBefore(g, w, w.live.value.known, now))
    && (w.live.Some? && w.live.value.Working? ==> w.live.value.files == files)
  }

  lemma GoodAnswersAreFaultFree(g: Engine, tree: Tree, files: seq<Text>, now: Time, w: World, e: Event)
    requires OnTrack(g, tree, files, now, w) && Enabled(g, w, e) && Agrees(e, GoodAnswers(tree, files, now))
    ensures FaultFree(g, tree, w, e) && Faithful(g, tree, w, e)
  {
    if e.Work? {
      DeliveryIsQuiet(tree[files[e.task]]);
    }
  }

  /** An own step stays on the files and on what was loaded. */
  lemma KeepsLoaded(g: Engine, w: World, e: Event, files: seq<Text>)
    requires Enabled(g, w, e) && IsOwnStep(e) && (e.Start? ==> e.files == files)
    requires w.live.Some? && (w.live.value.Working? ==> w.live.value.files == files)
    ensures var w' := Step(g, w, e);
            && (w'.live.Some? && !w'.live.value.Closing? ==>
                  !w.live.value.Closing? && w'.live.value.known == w.live.value.known)
            && (w'.live.Some? && w'.live.value.Working? ==> w'.live.value.files == files)
  {
    if !e.Start? && !e.Pipe? && !e.Work? {
      OthersKeepWork(g, w, e);
    }
  }

  lemma OnTrackStep(g: Engine, tree: Tree, files: seq<Text>, now: Time, w: World, e: Event)
    requires OnTrack(g, tree, files, now, w) && w.live.Some? && Enabled(g, w, e)
    requires Agrees(e, GoodAnswers(tree, files, now))
    ensures OnTrack(g, tree, files, now, Step(g, w, e))
  {
    KeepsLoaded(g, w, e, files);
    CatalogGrows(g, w, e);
  }

  /** What a run that has not started working is going to be offered. */
  ghost function ToOffer(w: World, files: seq<Text>): set<Text> {
    if w.live.Some? && w.live.value.Opening? then FileSet(files) else {}
  }

  lemma OfferStep(g: Engine, tree: Tree, files: seq<Text>, now: Time, w: World, e: Event)
    requires w.live.Some? && Enabled(g, w, e) && Agrees(e, GoodAnswers(tree, files, now))
    ensures Offers(e) + ToOffer(Step(g, w, e), files) == ToOffer(w, files)
  {}

  /** So far nothing has failed, and nothing stands in the way. */
  ghost predicate Going(g: Engine, tree: Tree, files: seq<Text>, now: Time, w: World) {
    Safe(g, w) && NothingFailed(g, tree, w) && OnTrack(g, tree, files, now, w)
  }

  lemma GoingOn(g: Engine, tree: Tree, files: seq<Text>, now: Time, w: World, e: Event)
    requires ValidEngine(g) && Injective(g.setup.sha) && Going(g, tree, files, now, w) && w.live.Some?
    requires Enabled(g, w, e) && Agrees(e, GoodAnswers(tree, files, now))
    ensures FaultFree(g, tree, w, e) && Faithful(g, tree, w, e)
    ensures Going(g, tree, files, now, Step(g, w, e))
  {
    GoodAnswersAreFaultFree(g, tree, files, now, w, e);
    FaultFreeStep(g, tree, w, e);
    OnTrackStep(g, tree, files, now, w, e);
  }

  /** With good answers nothing fails, and the run is offered the files. */
  lemma {:induction false} GoodRunIsFaultFree(
      g: Engine, tree: Tree, files: seq<Text>, now: Time, w: World, es: seq<Event>)
    requires ValidEngine(g) && Injective(g.setup.sha) && Going(g, tree, files, now, w)
    requires Plays(g, w, es, GoodAnswers(tree, files, now)) && ValidRun(g, w, es)
    ensures FaithfulRun(g, tree, w, es) && FaultFreeRun(g, tree, w, es)
    decreases es
  {
    if es != [] {
      OwnStepIsLive(g, w, es[0]);
      GoingOn(g, tree, files, now, w, es[0]);
      GoodRunIsFaultFree(g, tree, files, now, Step(g, w, es[0]), es[1..]);
    }
  }

  lemma OwnStepIsLive(g: Engine, w: World, e: Event)
    requires Enabled(g, w, e) && IsOwnStep(e)
    ensures w.live.Some?
  {}

  lemma {:induction false} GoodRunIsOffered(
      g: Engine, tree: Tree, files: seq<Text>, now: Time, w: World, es: seq<Event>)
    requires Plays(g, w, es, GoodAnswers(tree, files, now)) && ValidRun(g, w, es)
    ensures Offered(es) + ToOffer(Exec(g, w, es), files) == ToOffer(w, files)
    decreases es
  {
    if es != [] {
      OwnStepIsLive(g, w, es[0]);
      OfferStep(g, tree, files, now, w, es[0]);
      GoodRunIsOffered(g, tree, files, now, Step(g, w, es[0]), es[1..]);
    }
  }

  /** Every file of the tree, in some order. */
  ghost predicate Enumerates(files: seq<Text>, tree: Tree) {
    Distinct(files) && FileSet(files) == tree.Keys
  }

  lemma BeginIsOnTrack(
      g: Engine, tree: Tree, files: seq<Text>, now: Time, w: World, run: RunId, order: seq<RunId>)
    requires MayBegin(g, w, run, order) && Honest(g.setup.sha, w.blobs)
    requires Enumerates(files, tree) && forall row :: row in SourceRows(g.setup.source, w.catalog) ==> row.at < now
    ensures var w' := StepBegin(g, w, run, order);
            NothingFailed(g, tree, w') && OnTrack(g, tree, files, now, w') && ToOffer(w', files) == tree.Keys
  {
    assert forall i :: 0 <= i < |files| ==> files[i] in FileSet(files);
  }

  lemma BeginsWell(
      g: Engine, tree: Tree, files: seq<Text>, now: Time, w: World, run: RunId, order: seq<RunId>)
    requires ValidEngine(g) && Injective(g.setup.sha) && Safe(g, w) && JournalsOk(g, w)
    requires Honest(g.setup.sha, w.blobs) && MayBegin(g, w, run, order)
    requires Enumerates(files, tree) && forall row :: row in SourceRows(g.setup.source, w.catalog) ==> row.at < now
    ensures Going(g, tree, files, now, Step(g, w, Begin(run, order)))
    ensures JournalsOk(g, Step(g, w, Begin(run, order)))
    ensures ToOffer(Step(g, w, Begin(run, order)), files) == tree.Keys
  {
    BeginIsOnTrack(g, tree, files, now, w, run, order);
    SafeStep(g, w, Begin(run, order));
    BeginKeepsJournals(g, w, run, order);
  }

  /** A fault-free run from its beginning. */
  lemma FirstToLast(g: Engine, tree: Tree, w: World, first: Event, rest: seq<Event>)
    requires Enabled(g, w, first) && first.Begin? && ValidRun(g, Step(g, w, first), rest)
    requires FaithfulRun(g, tree, Step(g, w, first), rest) && FaultFreeRun(g, tree, Step(g, w, first), rest)
    ensures var es := [first] + rest;
            && ValidRun(g, w, es) && FaithfulRun(g, tree, w, es) && FaultFreeRun(g, tree, w, es)
            && Exec(g, w, es) == Exec(g, Step(g, w, first), rest) && Offered(es) == Offered(rest)
  {
    var es := [first] + rest;
    assert es[0] == first && es[1..] == rest;
  }

  /** The run is on its way, or has ended as completed, unless there was nothing to do. */
  ghost predicate CompletesWith(files: seq<Text>, run: RunId, w: World) {
    match w.live
    case None => files == [] || HasCompleted(w.facts, run)
    case Some(Closing(r, _, _, _)) => r == run && HasCompleted(w.facts, run)
    case Some(l) => l.run == run
  }

  lemma CompletesWithStep(
      g: Engine, tree: Tree, files: seq<Text>, now: Time, w: World, e: Event, run: RunId)
    requires PoolOk(g, w) && NothingFailed(g, tree, w) && Enabled(g, w, e) && CompletesWith(files, run, w)
    requires Agrees(e, GoodAnswers(tree, files, now))
    ensures CompletesWith(files, run, Step(g, w, e))
  {
    OwnStepIsLive(g, w, e);
    if e.Terminate? {
      EndsCompleted(g, tree, w.live.value);
      TerminateCompletes(g, w, e.reply);
    } else if w.live.value.Working? {
      WorkGoesOn(g, w, e);
      WorkNeverStops(g, w, e);
    } else if w.live.value.Closing? {
      ClosingGoesOn(g, w, e);
    } else {
      PassGoesOn(g, tree, files, now, w, e);
    }
  }

  lemma TerminateCompletes(g: Engine, w: World, reply: SaveReply)
    requires MayTerminate(w) && TerminalOf(w.live.value.pipe).Completed?
    ensures var w' := StepTerminate(g, w, reply);
            && w'.live.Some? && w'.live.value.Closing? && w'.live.value.run == w.live.value.run
            && HasCompleted(w'.facts, w.live.value.run)
  {}

  lemma WorkNeverStops(g: Engine, w: World, e: Event)
    requires Enabled(g, w, e) && w.live.Some? && w.live.value.Working? && IsOwnStep(e) && !e.Terminate?
    ensures Step(g, w, e).live.Some?
  {}

  lemma PassGoesOn(g: Engine, tree: Tree, files: seq<Text>, now: Time, w: World, e: Event)
    requires Enabled(g, w, e) && w.live.Some? && w.live.value.Opening?
    requires Agrees(e, GoodAnswers(tree, files, now))
    ensures var w' := Step(g, w, e);
            if w'.live.None? then files == [] else !w'.live.value.Closing? && w'.live.value.run == w.live.value.run
  {}

  lemma {:induction false} GoodRunCompletes(
      g: Engine, tree: Tree, files: seq<Text>, now: Time, w: World, es: seq<Event>, run: RunId)
    requires ValidEngine(g) && Injective(g.setup.sha) && Going(g, tree, files, now, w)
    requires Plays(g, w, es, GoodAnswers(tree, files, now)) && ValidRun(g, w, es) && CompletesWith(files, run, w)
    ensures CompletesWith(files, run, Exec(g, w, es))
    decreases es
  {
    if es != [] {
      OwnStepIsLive(g, w, es[0]);
      CompletesWithStep(g, tree, files, now, w, es[0], run);
      GoingOn(g, tree, files, now, w, es[0]);
      GoodRunCompletes(g, tree, files, now, Step(g, w, es[0]), es[1..], run);
    }
  }

  lemma GoodAnswersDoNotDisturb(e: Event, tree: Tree, files: seq<Text>, now: Time)
    requires Agrees(e, GoodAnswers(tree, files, now))
    ensures Undisturbed(e)
  {}

  /** A run with good answers that had something to do marks every open run it was given. */
  lemma GoodRunMarks(
      g: Engine, tree: Tree, files: seq<Text>, now: Time, w: World, es: seq<Event>, runs: seq<RunId>)
    requires ValidEngine(g) && Injective(g.setup.sha) && JournalsOk(g, w) && Going(g, tree, files, now, w)
    requires w.live.Some? && w.live.value.Opening? && RunsOf(w.live.value.earlier) == runs && files != []
    requires Plays(g, w, es, GoodAnswers(tree, files, now)) && ValidRun(g, w, es) && Exec(g, w, es).live.None?
    ensures MarkedBy(Exec(g, w, es), w.live.value.run, runs, |runs|)
  {
    PlaysIsValid(g, w, es, GoodAnswers(tree, files, now));
    forall i | 0 <= i < |es|
      ensures Undisturbed(es[i])
    {
      GoodAnswersDoNotDisturb(es[i], tree, files, now);
    }
    GoodRunCompletes(g, tree, files, now, w, es, w.live.value.run);
    CompletedRunSupersedes(g, w, es);
  }

  /**
   * One run is enough. Between two runs, whatever has been lost, interrupted or edited before, the
   * next run can go through with good answers; and when it has, no answer but good ones having been
   * given, the catalog state of every file is the tree's.
   */
  lemma OneRunIsEnough(
      g: Engine, tree: Tree, files: seq<Text>, now: Time, w: World, run: RunId, order: seq<RunId>)
    returns (rest: seq<Event>)
    requires ValidEngine(g) && Injective(g.setup.sha) && Safe(g, w) && JournalsOk(g, w)
    requires Honest(g.setup.sha, w.blobs) && MayBegin(g, w, run, order)
    requires Enumerates(files, tree) && forall row :: row in SourceRows(g.setup.source, w.catalog) ==> row.at < now
    ensures Plays(g, Step(g, w, Begin(run, order)), rest, GoodAnswers(tree, files, now))
    ensures ValidRun(g, w, [Begin(run, order)] + rest) && Exec(g, w, [Begin(run, order)] + rest).live.None?
    ensures var w' := Exec(g, w, [Begin(run, order)] + rest);
            && (forall p :: p in tree ==> Matches(g, tree, Latest(SourceRows(g.setup.source, w'.catalog)), p))
            && (files != [] ==> MarkedBy(w', run, order, |order|))
  {
    BeginsWell(g, tree, files, now, w, run, order);
    rest := RunCanEnd(g, Step(g, w, Begin(run, order)), GoodAnswers(tree, files, now));
    GoodRunSettles(g, tree, files, now, w, run, order, rest);
  }

  lemma GoodRunIsWhole(g: Engine, tree: Tree, files: seq<Text>, now: Time, w: World, es: seq<Event>)
    requires ValidEngine(g) && Injective(g.setup.sha) && Going(g, tree, files, now, w)
    requires Plays(g, w, es, GoodAnswers(tree, files, now)) && ValidRun(g, w, es) && Exec(g, w, es).live.None?
    ensures FaithfulRun(g, tree, w, es) && FaultFreeRun(g, tree, w, es) && Offered(es) == ToOffer(w, files)
  {
    GoodRunIsFaultFree(g, tree, files, now, w, es);
    GoodRunIsOffered(g, tree, files, now, w, es);
  }

  lemma BeginListsTheRuns(g: Engine, w: World, run: RunId, order: seq<RunId>)
    requires MayBegin(g, w, run, order)
    ensures var l := StepBegin(g, w, run, order).live.value;
            l.Opening? && l.run == run && RunsOf(l.earlier) == order
  {}

  lemma GoodRunMarksTheListed(
      g: Engine, tree: Tree, files: seq<Text>, now: Time, w: World, run: RunId, order: seq<RunId>, rest: seq<Event>)
    requires ValidEngine(g) && Injective(g.setup.sha) && MayBegin(g, w, run, order)
    requires JournalsOk(g, Step(g, w, Begin(run, order))) && Going(g, tree, files, now, Step(g, w, Begin(run, order)))
    requires Plays(g, Step(g, w, Begin(run, order)), rest, GoodAnswers(tree, files, now))
    requires ValidRun(g, Step(g, w, Begin(run, order)), rest)
    requires Exec(g, Step(g, w, Begin(run, order)), rest).live.None?
    ensures files != [] ==> MarkedBy(Exec(g, Step(g, w, Begin(run, order)), rest), run, order, |order|)
  {
    if files != [] {
      BeginListsTheRuns(g, w, run, order);
      GoodRunMarks(g, tree, files, now, Step(g, w, Begin(run, order)), rest, order);
    }
  }

  /**
   * Every run that gets good answers to its end settles the whole tree, and marks every open run it
   * was given, unless there are no files at all.
   */
  lemma GoodRunSettles(
      g: Engine, tree: Tree, files: seq<Text>, now: Time, w: World, run: RunId, order: seq<RunId>, rest: seq<Event>)
    requires ValidEngine(g) && Injective(g.setup.sha) && Safe(g, w) && JournalsOk(g, w)
    requires Honest(g.setup.sha, w.blobs) && MayBegin(g, w, run, order)
    requires Enumerates(files, tree) && forall row :: row in SourceRows(g.setup.source, w.catalog) ==> row.at < now
    requires Plays(g, Step(g, w, Begin(run, order)), rest, GoodAnswers(tree, files, now))
    requires ValidRun(g, Step(g, w, Begin(run, order)), rest)
    requires Exec(g, Step(g, w, Begin(run, order)), rest).live.None?
    ensures ValidRun(g, w, [Begin(run, order)] + rest)
    ensures Exec(g, w, [Begin(run, order)] + rest) == Exec(g, Step(g, w, Begin(run, order)), rest)
    ensures var w' := Exec(g, w, [Begin(run, order)] + rest);
            && (forall p :: p in tree ==> Matches(g, tree, Latest(SourceRows(g.setup.source, w'.catalog)), p))
            && (files != [] ==> MarkedBy(w', run, order, |order|))
  {
    BeginsWell(g, tree, files, now, w, run, order);
    GoodRunMarksTheListed(g, tree, files, now, w, run, order, rest);
    GoodRunIsWhole(g, tree, files, now, Step(g, w, Begin(run, order)), rest);
    FirstToLast(g, tree, w, Begin(run, order), rest);
    FaultFreeRunsSettle(g, tree, w, [Begin(run, order)] + rest);
  }
}
