/** What a live run's memory, its writer and the catalog have to do with each other. */
module RunFacts {
  import opened Domain
  import opened Seqs
  import opened Journal
  import opened World
  import opened BlobSafety
  import P = Pipeline

  function Sizes(batches: seq<seq<Row>>): (ns: seq<nat>)
    ensures |ns| == |batches|
  {
    if batches == [] then [] else Sizes(batches[..|batches| - 1]) + [|batches[|batches| - 1]|]
  }

  lemma {:induction false} SizesSum(batches: seq<seq<Row>>)
    ensures Sum(Sizes(batches)) == |Flatten(batches)|
  {
    if batches != [] {
      SizesSum(batches[..|batches| - 1]);
      assert Sizes(batches)[..|batches| - 1] == Sizes(batches[..|batches| - 1]);
    }
  }

  lemma SizesSnoc(batches: seq<seq<Row>>, b: seq<Row>)
    ensures Sizes(batches + [b]) == Sizes(batches) + [|b|]
  {
    assert (batches + [b])[..|batches|] == batches;
  }

  /**
   * The counters of one run: at most one attempted batch is unacknowledged, the catalog applied
   * every acknowledged batch, and the in-memory journal says so and no more.
   */
  ghost predicate FactsOk(f: Facts) {
    && f.acked <= f.applied <= |f.attempted| <= f.acked + 1
    && f.history == Script(Sizes(f.attempted[..f.acked]), |f.attempted| > f.acked, f.terminal)
    && match f.terminal
       case None => true
       case Some(Completed) => |f.attempted| == f.acked
       case Some(Incomplete(_)) => |f.attempted| == f.acked
       case Some(CommitFailed(b)) => |f.attempted| == f.acked + 1 && b == f.acked + 1
       case _ => false
  }

  /** The batches a run attempted are the acknowledged ones and the one its writer holds. */
  ghost predicate InStep(l: Live, f: Facts)
    requires l.Working?
  {
    var k := |l.pipe.batches|;
    && f.terminal.None?
    && l.batches == |f.attempted|
    && (!l.phase.Idle? ==> l.pipe.writer.Flushing?)
    && match l.phase
       case Idle =>
         f.acked == k && f.attempted == l.pipe.batches + if l.pipe.writer.Broken? then [l.pipe.writer.batch] else []
       case Recorded => f.acked == k && f.attempted == l.pipe.batches + [l.pipe.writer.batch]
       case Accepted => f.acked == k && f.applied == k + 1 && f.attempted == l.pipe.batches + [l.pipe.writer.batch]
       case Noted => f.acked == k + 1 && f.attempted == l.pipe.batches + [l.pipe.writer.batch]
       case Refused => f.acked == k && f.attempted == l.pipe.batches + [l.pipe.writer.batch]
  }

  ghost predicate CountersOk(w: World) {
    && (forall r :: r in w.facts ==> r in w.used && FactsOk(w.facts[r]))
    && (w.live.Some? ==> w.live.value.run in w.used)
    && (w.live.Some? && w.live.value.Opening? ==> w.live.value.run !in w.facts)
    && (w.live.Some? && w.live.value.Working? ==>
          w.live.value.run in w.facts && InStep(w.live.value, w.facts[w.live.value.run]))
  }

  lemma PipeKeepsStep(g: Engine, l: Live, p: P.Event, f: Facts)
    requires l.Working? && PipeEnabled(g, l, p) && InStep(l, f) && FactsOk(f)
    ensures InStep(StepPipe(g, l, p), f)
  {}

  lemma RecordKeepsFacts(f: Facts, batch: seq<Row>)
    requires FactsOk(f) && f.terminal.None? && |f.attempted| == f.acked
    ensures FactsOk(f.(attempted := f.attempted + [batch], history := f.history + [Committing(|f.attempted| + 1)]))
  {
    assert (f.attempted + [batch])[..f.acked] == f.attempted[..f.acked];
  }

  lemma NoteKeepsFacts(f: Facts)
    requires FactsOk(f) && f.terminal.None? && f.applied == |f.attempted| == f.acked + 1
    ensures FactsOk(f.(acked := f.acked + 1,
                       history := f.history + [BatchCommitted(|f.attempted|, |f.attempted[f.acked]|)]))
  {
    var done := f.attempted[..f.acked];
    var b := f.attempted[f.acked];
    assert f.attempted[..f.acked + 1] == done + [b];
    SizesSnoc(done, b);
    AcknowledgedSnoc(Sizes(done), |b|);
    var script := Acknowledged(Sizes(done)) + [Committing(f.acked + 1)];
    assert f.history == script;
    assert Script(Sizes(done + [b]), false, None) == script + [BatchCommitted(f.acked + 1, |b|)];
  }

  lemma TerminateKeepsFacts(g: Engine, l: Live, f: Facts)
    requires l.Working? && P.Inv(g.pool, l.pipe) && P.Final(l.pipe) && InStep(l, f) && FactsOk(f)
    ensures var t := TerminalOf(l.pipe);
            FactsOk(f.(history := f.history + [t], terminal := Some(t)))
  {}

  lemma FreshFactsOk()
    ensures FactsOk(Facts([], 0, 0, [Started], None))
  {
    assert Script([], false, None) == [Started];
  }

  lemma RecordInStep(l: Live, f: Facts)
    requires l.Working? && InStep(l, f) && l.phase.Idle? && l.pipe.writer.Flushing?
    ensures InStep(l.(phase := Recorded, batches := l.batches + 1),
                   f.(attempted := f.attempted + [l.pipe.writer.batch],
                      history := f.history + [Committing(l.batches + 1)]))
    ensures |f.attempted| == f.acked == l.batches
  {}

  lemma NoteInStep(l: Live, f: Facts)
    requires l.Working? && InStep(l, f) && l.phase.Accepted?
    ensures InStep(l.(phase := Noted),
                   f.(acked := f.acked + 1, history := f.history + [BatchCommitted(l.batches, |l.pipe.writer.batch|)]))
    ensures f.applied == |f.attempted| == f.acked + 1 == l.batches
    ensures f.attempted[f.acked] == l.pipe.writer.batch
  {}

  /** Rewriting the facts of the live run, and nothing else, keeps the counters. */
  lemma MemoryKeepsCounters(w: World, w': World, f: Facts)
    requires CountersOk(w) && w.live.Some? && w.live.value.Working?
    requires w'.used == w.used && w'.facts == w.facts[w.live.value.run := f] && FactsOk(f)
    requires w'.live.None? || (w'.live.value.Closing? && w'.live.value.run == w.live.value.run)
             || (w'.live.value.Working? && w'.live.value.run == w.live.value.run && InStep(w'.live.value, f))
    ensures CountersOk(w')
  {}

  lemma RecordKeepsCounters(g: Engine, w: World, reply: SaveReply)
    requires PoolOk(g, w) && CountersOk(w) && MayRecord(w)
    ensures CountersOk(StepRecord(g, w, reply))
  {
    var l, f := w.live.value, w.facts[w.live.value.run];
    RecordInStep(l, f);
    RecordKeepsFacts(f, l.pipe.writer.batch);
    var w' := StepRecord(g, w, reply);
    MemoryKeepsCounters(w, w', w'.facts[l.run]);
  }

  lemma NoteKeepsCounters(g: Engine, w: World, reply: SaveReply)
    requires PoolOk(g, w) && CountersOk(w) && MayNote(w)
    ensures CountersOk(StepNote(g, w, reply))
  {
    var l, f := w.live.value, w.facts[w.live.value.run];
    NoteInStep(l, f);
    NoteKeepsFacts(f);
    var w' := StepNote(g, w, reply);
    MemoryKeepsCounters(w, w', w'.facts[l.run]);
  }

  lemma TerminateKeepsCounters(g: Engine, w: World, reply: SaveReply)
    requires PoolOk(g, w) && CountersOk(w) && MayTerminate(w)
    ensures CountersOk(StepTerminate(g, w, reply))
  {
    var l := w.live.value;
    TerminateKeepsFacts(g, l, w.facts[l.run]);
    var w' := StepTerminate(g, w, reply);
    MemoryKeepsCounters(w, w', w'.facts[l.run]);
  }

  lemma StartKeepsCounters(g: Engine, w: World, files: seq<Text>, reply: SaveReply)
    requires CountersOk(w) && MayStart(w, files)
    ensures CountersOk(StepStart(g, w, files, reply))
  {
    FreshFactsOk();
  }

  lemma PipeKeepsCounters(g: Engine, w: World, p: P.Event)
    requires CountersOk(w) && MayPipe(g, w, p)
    ensures CountersOk(StepPipeline(g, w, p))
  {
    PipeKeepsStep(g, w.live.value, p, w.facts[w.live.value.run]);
  }

  lemma LandKeepsCounters(w: World)
    requires CountersOk(w) && MayLand(w)
    ensures CountersOk(StepLand(w))
  {}

  lemma AnswerKeepsCounters(w: World, ok: bool)
    requires CountersOk(w) && MayAnswer(w, ok)
    ensures CountersOk(StepAnswer(w, ok))
  {}

  lemma OthersKeepCounters(g: Engine, w: World, e: Event)
    requires CountersOk(w) && Enabled(g, w, e)
    requires !e.Start? && !e.Pipe? && !e.Record? && !e.Land? && !e.Answer? && !e.Note? && !e.Terminate?
    ensures CountersOk(Step(g, w, e))
  {}

  lemma CountersStep(g: Engine, w: World, e: Event)
    requires ValidEngine(g) && PoolOk(g, w) && CountersOk(w) && Enabled(g, w, e)
    ensures CountersOk(Step(g, w, e))
  {
    if e.Start? {
      StartKeepsCounters(g, w, e.files, e.reply);
    } else if e.Pipe? {
      PipeKeepsCounters(g, w, e.p);
    } else if e.Record? {
      RecordKeepsCounters(g, w, e.reply);
    } else if e.Note? {
      NoteKeepsCounters(g, w, e.reply);
    } else if e.Terminate? {
      TerminateKeepsCounters(g, w, e.reply);
    } else if e.Land? {
      LandKeepsCounters(w);
    } else if e.Answer? {
      AnswerKeepsCounters(w, e.ok);
    } else {
      OthersKeepCounters(g, w, e);
    }
  }
}
