/** A live run never gets stuck, and it ends. */
module Progress {
  import opened Domain
  import opened Seqs
  import opened Journal
  import opened Process
  import Upload
  import opened World
  import opened BlobSafety
  import opened RunFacts
  import opened Safety
  import opened JournalSafety
  import opened JournalTruth
  import P = Pipeline

  // ---------- progress ----------

  /** A step the live run takes by itself. */
  predicate IsOwnStep(e: Event) {
    !e.Begin? && !e.Crash? && !e.Lose? && !e.ForeignBlobs? && !e.ForeignRows? && !e.ForeignJournals?
  }

  /** What the outside answers, whatever the run asks next and whichever task does. */
  datatype Answers = Answers(
    save: SaveReply,
    commit: bool,
    scan: nat -> Option<Snapshot>,
    statFails: nat -> bool,
    upload: nat -> Upload.UploadIO,
    files: seq<Text>)

  /** A step of the run in which the outside gives these answers, and no worker panics. */
  predicate Agrees(e: Event, a: Answers) {
    IsOwnStep(e) &&
    match e
    case Reconcile(reply) => reply == a.save
    case Start(files, reply) => files == a.files && reply == a.save
    case Work(t, we) => AgreesWork(t, we, a)
    case Record(reply) => reply == a.save
    case Answer(ok) => ok == a.commit
    case Note(reply) => reply == a.save
    case Terminate(reply) => reply == a.save
    case Supersede(reply) => reply == a.save
    case _ => true
  }

  predicate AgreesWork(t: nat, we: WorkerEvent, a: Answers) {
    match we
    case Scan(snap) => snap == a.scan(t)
    case Check(statFails) => statFails == a.statFails(t)
    case Transfer(io) => io == a.upload(t)
    case Panic => false
  }

  /** A worker that has not finished takes whatever answer it is given. */
  lemma WorkerCanStep(g: Engine, w: World, t: nat, a: Answers)
    requires w.live.Some? && w.live.value.Working? && t in w.live.value.workers && t < |w.live.value.files|
    requires !w.live.value.workers[t].Finished?
    ensures exists e :: Enabled(g, w, e) && Agrees(e, a)
  {
    var we := match w.live.value.workers[t]
              case Scanning(_) => Scan(a.scan(t))
              case Checking(_, _) => Check(a.statFails(t))
              case _ => Transfer(a.upload(t));
    assert Enabled(g, w, Work(t, we));
  }

  /** A commit goes on whatever the catalog answers; a yes needs the append to have landed first. */
  lemma CommitCanStep(g: Engine, w: World, a: Answers)
    requires w.live.Some? && w.live.value.Working? && HasFacts(w) && w.live.value.pipe.writer.Flushing?
    requires w.facts[w.live.value.run].applied <= |w.facts[w.live.value.run].attempted|
    ensures exists e :: Enabled(g, w, e) && Agrees(e, a)
  {
    var f := w.facts[w.live.value.run];
    var e := match w.live.value.phase
             case Idle => Record(a.save)
             case Recorded => if a.commit && f.applied < |f.attempted| then Land else Answer(a.commit)
             case Accepted => Note(a.save)
             case Noted => Pipe(P.CommitOk)
             case Refused => Pipe(P.CommitFails);
    assert Enabled(g, w, e);
  }

  /** A step of the pipeline other than a commit is a step of the engine, once the worker is done. */
  lemma PipeCanStep(g: Engine, w: World, p: P.Event, a: Answers)
    requires w.live.Some? && w.live.value.Working? && P.Enabled(g.pool, w.live.value.pipe, p)
    requires !w.live.value.pipe.writer.Flushing?
    requires p.Join? ==> p.task in w.live.value.workers && p.task < |w.live.value.files|
    ensures exists e :: Enabled(g, w, e) && Agrees(e, a)
  {
    var l := w.live.value;
    if !p.Join? {
      assert Enabled(g, w, Pipe(p));
    } else if l.workers[p.task].Finished? {
      assert Enabled(g, w, Pipe(P.Join(p.task, l.workers[p.task].result)));
    } else {
      WorkerCanStep(g, w, p.task, a);
    }
  }

  lemma PoolCanStep(g: Engine, w: World, a: Answers)
    requires ValidEngine(g) && PoolOk(g, w) && w.live.Some? && w.live.value.Working?
    requires !P.Final(w.live.value.pipe) && !w.live.value.pipe.writer.Flushing?
    ensures exists e :: Enabled(g, w, e) && Agrees(e, a)
  {
    P.NoDeadlock(g.pool, w.live.value.pipe, Failed);
    var p :| P.Enabled(g.pool, w.live.value.pipe, p) && (p.Join? ==> p.result == Failed);
    PipeCanStep(g, w, p, a);
  }

  lemma WorkCanStep(g: Engine, w: World, a: Answers)
    requires ValidEngine(g) && PoolOk(g, w) && CountersOk(w) && w.live.Some? && w.live.value.Working?
    ensures exists e :: Enabled(g, w, e) && Agrees(e, a)
  {
    var l := w.live.value;
    if P.Final(l.pipe) {
      assert Enabled(g, w, Terminate(a.save));
    } else if l.pipe.writer.Flushing? {
      CommitCanStep(g, w, a);
    } else {
      PoolCanStep(g, w, a);
    }
  }

  lemma PassCanStep(g: Engine, w: World, a: Answers)
    requires w.live.Some? && !w.live.value.Working? && w.live.value.done <= |w.live.value.earlier|
    requires Distinct(a.files)
    ensures exists e :: Enabled(g, w, e) && Agrees(e, a)
  {
    var l := w.live.value;
    var e := if l.Opening? then if l.done < |l.earlier| then Event.Reconcile(a.save) else Start(a.files, a.save)
             else if l.done < |l.earlier| then Supersede(a.save) else Finish;
    assert Enabled(g, w, e);
  }

  /**
   * The whole engine never gets stuck: whatever the outside answers, a live run has a step of its
   * own in which it gets that answer.
   */
  lemma LiveRunCanStep(g: Engine, w: World, a: Answers)
    requires ValidEngine(g) && PoolOk(g, w) && CountersOk(w) && JournalsOk(g, w)
    requires w.live.Some? && Distinct(a.files)
    ensures exists e :: Enabled(g, w, e) && Agrees(e, a)
  {
    if w.live.value.Working? {
      WorkCanStep(g, w, a);
    } else {
      PassCanStep(g, w, a);
    }
  }

  // ---------- and every step of its own brings it closer to the end ----------

  /** What the workers still have to do. */
  function WorkLeft(workers: map<nat, Worker>, n: nat): nat {
    if n == 0 then 0
    else WorkLeft(workers, n - 1) + if n - 1 in workers then WorkerMeasure(workers[n - 1]) else 0
  }

  /** What is left of the commit the writer is waiting for. */
  function CommitLeft(l: Live): nat
    requires l.Working?
  {
    if !l.pipe.writer.Flushing? then 0
    else match l.phase
         case Idle => 6
         case Recorded => 4
         case Accepted => 2
         case _ => 0
  }

  /** Appends that are on their way. */
  function LandingsLeft(w: World, l: Live): nat {
    if l.run in w.facts && w.facts[l.run].applied <= |w.facts[l.run].attempted|
    then |w.facts[l.run].attempted| - w.facts[l.run].applied else 0
  }

  /** The pass over the predecessors that is still to come, and the end. */
  function PassLeft(earlier: seq<Listed>, done: nat): nat {
    if done <= |earlier| then |earlier| - done + 1 else 1
  }

  /** How many steps a live run has left at most, when it is given at most `candidates` files. */
  function StepsLeft(w: World, candidates: nat): nat {
    match w.live
    case None => 0
    case Some(Opening(_, _, _, earlier, _, done)) =>
      PassLeft(earlier, done) + PassLeft(earlier, 0) + 9 * (6 * candidates + 3) + 1
    case Some(Closing(_, earlier, _, done)) => PassLeft(earlier, done)
    case Some(l) =>
      9 * P.Measure(l.pipe) + WorkLeft(l.workers, |l.files|) + CommitLeft(l) + LandingsLeft(w, l)
      + PassLeft(l.earlier, 0) + 1
  }

  lemma {:induction false} WorkLeftFrame(a: map<nat, Worker>, b: map<nat, Worker>, n: nat)
    requires forall t :: t < n ==> (t in a <==> t in b) && (t in a ==> a[t] == b[t])
    ensures WorkLeft(a, n) == WorkLeft(b, n)
  {
    if n > 0 {
      WorkLeftFrame(a, b, n - 1);
    }
  }

  /** Changing what one worker has to do changes the sum by as much. */
  lemma {:induction false} WorkLeftUpdate(a: map<nat, Worker>, t: nat, wk: Worker, n: nat)
    requires t < n
    ensures WorkLeft(a[t := wk], n) + (if t in a then WorkerMeasure(a[t]) else 0) == WorkLeft(a, n) + WorkerMeasure(wk)
  {
    if t == n - 1 {
      WorkLeftFrame(a[t := wk], a, n - 1);
    } else {
      WorkLeftUpdate(a, t, wk, n - 1);
    }
  }

  lemma {:induction false} WorkLeftRemove(a: map<nat, Worker>, t: nat, n: nat)
    requires t in a && t < n
    ensures WorkLeft(a - {t}, n) + WorkerMeasure(a[t]) == WorkLeft(a, n)
  {
    if t == n - 1 {
      WorkLeftFrame(a - {t}, a, n - 1);
    } else {
      WorkLeftRemove(a, t, n - 1);
    }
  }

  lemma {:induction false} NoWorkLeft(n: nat)
    ensures WorkLeft(map[], n) == 0
  {
    if n > 0 {
      NoWorkLeft(n - 1);
    }
  }

  lemma WorkBringsCloser(g: Engine, w: World, t: nat, we: WorkerEvent, candidates: nat)
    requires MayWork(w, t, we)
    ensures StepsLeft(StepWork(g, w, t, we), candidates) < StepsLeft(w, candidates)
  {
    var l := w.live.value;
    var wk := WorkerStep(g.setup, l.run, l.files[t], l.loaded, w.blobs, l.workers[t], we).0;
    WorkerMakesProgress(g.setup, l.run, l.files[t], l.loaded, w.blobs, l.workers[t], we);
    WorkLeftUpdate(l.workers, t, wk, |l.files|);
  }

  /** A started task may add the work of one file; a joined one has none left. */
  lemma PipeWorkLeft(g: Engine, w: World, p: P.Event)
    requires PoolOk(g, w) && MayPipe(g, w, p)
    ensures WorkLeft(StepPipe(g, w.live.value, p).workers, |w.live.value.files|)
         <= WorkLeft(w.live.value.workers, |w.live.value.files|) + if p.Spawn? then 6 else 0
  {
    var l := w.live.value;
    if p.Spawn? {
      WorkLeftUpdate(l.workers, l.pipe.next, Scanning(SOURCE_CHANGED_RETRIES), |l.files|);
    } else if p.Join? {
      WorkLeftRemove(l.workers, p.task, |l.files|);
    }
  }

  lemma PipeBringsCloser(g: Engine, w: World, p: P.Event, candidates: nat)
    requires ValidEngine(g) && PoolOk(g, w) && CountersOk(w) && MayPipe(g, w, p)
    ensures StepsLeft(StepPipeline(g, w, p), candidates) < StepsLeft(w, candidates)
  {
    P.StepDecreasesMeasure(g.pool, w.live.value.pipe, p);
    PipeWorkLeft(g, w, p);
    PipeCommitLeft(g, w.live.value, p, w.facts[w.live.value.run]);
  }

  /** A pipeline step costs at most a commit that it starts. */
  lemma PipeCommitLeft(g: Engine, l: Live, p: P.Event, f: Facts)
    requires l.Working? && PipeEnabled(g, l, p) && InStep(l, f)
    ensures CommitLeft(StepPipe(g, l, p)) <= CommitLeft(l) + if p.Spawn? then 0 else 6
  {}

  lemma RecordBringsCloser(g: Engine, w: World, reply: SaveReply, candidates: nat)
    requires CountersOk(w) && MayRecord(w)
    ensures StepsLeft(StepRecord(g, w, reply), candidates) < StepsLeft(w, candidates)
  {
    assert FactsOk(w.facts[w.live.value.run]);
  }

  lemma LandBringsCloser(g: Engine, w: World, candidates: nat)
    requires MayLand(w)
    ensures StepsLeft(StepLand(w), candidates) < StepsLeft(w, candidates)
  {}

  lemma AnswerBringsCloser(w: World, ok: bool, candidates: nat)
    requires CountersOk(w) && MayAnswer(w, ok)
    ensures StepsLeft(StepAnswer(w, ok), candidates) < StepsLeft(w, candidates)
  {
    assert InStep(w.live.value, w.facts[w.live.value.run]);
  }

  lemma NoteBringsCloser(g: Engine, w: World, reply: SaveReply, candidates: nat)
    requires CountersOk(w) && MayNote(w)
    ensures StepsLeft(StepNote(g, w, reply), candidates) < StepsLeft(w, candidates)
  {
    assert InStep(w.live.value, w.facts[w.live.value.run]);
  }

  lemma StartBringsCloser(g: Engine, w: World, files: seq<Text>, reply: SaveReply, candidates: nat)
    requires MayStart(w, files) && |files| <= candidates
    ensures StepsLeft(StepStart(g, w, files, reply), candidates) < StepsLeft(w, candidates)
  {
    NoWorkLeft(|files|);
    assert P.Measure(P.Init(g.pool, |files|)) <= 6 * |files| + 3;
  }

  lemma PassBringsCloser(g: Engine, w: World, e: Event, candidates: nat)
    requires Enabled(g, w, e) && (e.Reconcile? || e.Supersede? || e.Finish? || e.Terminate?)
    ensures StepsLeft(Step(g, w, e), candidates) < StepsLeft(w, candidates)
  {}

  /** Every step of its own brings a run closer to its end. */
  lemma OwnStepBringsCloser(g: Engine, w: World, e: Event, candidates: nat)
    requires ValidEngine(g) && PoolOk(g, w) && CountersOk(w) && Enabled(g, w, e) && IsOwnStep(e)
    requires e.Start? ==> |e.files| <= candidates
    ensures StepsLeft(Step(g, w, e), candidates) < StepsLeft(w, candidates)
  {
    if e.Work? {
      WorkBringsCloser(g, w, e.task, e.w, candidates);
    } else if e.Pipe? {
      PipeBringsCloser(g, w, e.p, candidates);
    } else if e.Start? {
      StartBringsCloser(g, w, e.files, e.reply, candidates);
    } else if e.Reconcile? || e.Supersede? || e.Finish? || e.Terminate? {
      PassBringsCloser(g, w, e, candidates);
    } else if e.Record? {
      RecordBringsCloser(g, w, e.reply, candidates);
    } else if e.Land? {
      LandBringsCloser(g, w, candidates);
    } else if e.Answer? {
      AnswerBringsCloser(w, e.ok, candidates);
    } else {
      NoteBringsCloser(g, w, e.reply, candidates);
    }
  }

  /** So no run goes on forever: a sequence of its own steps is no longer than the measure. */
  lemma {:induction false} RunsEnd(g: Engine, w: World, es: seq<Event>, candidates: nat)
    requires ValidEngine(g) && Injective(g.setup.sha) && Safe(g, w) && ValidRun(g, w, es)
    requires forall i :: 0 <= i < |es| ==> IsOwnStep(es[i]) && (es[i].Start? ==> |es[i].files| <= candidates)
    ensures |es| + StepsLeft(Exec(g, w, es), candidates) <= StepsLeft(w, candidates)
    decreases es
  {
    if es != [] {
      OwnStepBringsCloser(g, w, es[0], candidates);
      SafeStep(g, w, es[0]);
      RunsEnd(g, Step(g, w, es[0]), es[1..], candidates);
    }
  }

  /** A sequence of own steps that all get these answers. */
  ghost predicate Plays(g: Engine, w: World, es: seq<Event>, a: Answers)
    decreases es
  {
    es == [] || (Enabled(g, w, es[0]) && Agrees(es[0], a) && Plays(g, Step(g, w, es[0]), es[1..], a))
  }

  lemma {:induction false} PlaysIsValid(g: Engine, w: World, es: seq<Event>, a: Answers)
    requires Plays(g, w, es, a)
    ensures ValidRun(g, w, es)
    ensures forall i :: 0 <= i < |es| ==> Agrees(es[i], a)
    decreases es
  {
    if es != [] {
      PlaysIsValid(g, Step(g, w, es[0]), es[1..], a);
    }
  }

  /** One step of such a sequence. */
  lemma PlayStep(g: Engine, w: World, a: Answers) returns (e: Event)
    requires ValidEngine(g) && Injective(g.setup.sha) && Safe(g, w) && JournalsOk(g, w)
    requires w.live.Some? && Distinct(a.files)
    ensures Enabled(g, w, e) && Agrees(e, a)
    ensures Safe(g, Step(g, w, e)) && JournalsOk(g, Step(g, w, e))
    ensures StepsLeft(Step(g, w, e), |a.files|) < StepsLeft(w, |a.files|)
  {
    LiveRunCanStep(g, w, a);
    e :| Enabled(g, w, e) && Agrees(e, a);
    TruthfulStep(g, w, e);
    OwnStepBringsCloser(g, w, e, |a.files|);
  }

  /** Whatever the outside answers, a run can go on with these answers until it has ended. */
  lemma {:induction false} RunCanEnd(g: Engine, w: World, a: Answers) returns (es: seq<Event>)
    requires ValidEngine(g) && Injective(g.setup.sha) && Safe(g, w) && JournalsOk(g, w) && Distinct(a.files)
    ensures Plays(g, w, es, a) && ValidRun(g, w, es) && Exec(g, w, es).live.None?
    decreases StepsLeft(w, |a.files|)
  {
    if w.live.None? {
      es := [];
    } else {
      var e := PlayStep(g, w, a);
      var rest := RunCanEnd(g, Step(g, w, e), a);
      es := [e] + rest;
      assert es[1..] == rest;
    }
  }
}
