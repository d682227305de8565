/** What the persisted journals may say, in every state of the engine. */
module JournalSafety {
  import opened Domain
  import opened Journal
  import opened Process
  import opened World
  import opened RunFacts
  import opened Safety
  import P = Pipeline

  /** Every reconciliation entry states the number of rows the catalog holds. */
  ghost predicate CountsExact(h: seq<RunState>, rows: nat) {
    forall i :: 0 <= i < |h| && h[i].Reconciled? ==> h[i].rowsInCatalog == rows
  }

  /** A journal of this source that tells the truth about run `r`. */
  ghost predicate Truthful(source: Text, w: World, r: RunId, j: RunJournal) {
    && j.source == source
    && r in w.facts
    && [Started] <= j.history
    && [Started] <= Own(j.history) <= w.facts[r].history
    && CountsExact(j.history, |RunRows(source, r, w.catalog)|)
  }

  ghost predicate Stored(source: Text, w: World, r: RunId) {
    r in w.journals && w.journals[r].source == source
  }

  ghost predicate AllTruthful(source: Text, w: World) {
    && (forall r :: Stored(source, w, r) ==> Truthful(source, w, r, w.journals[r]))
    && (forall r :: r in w.facts && w.facts[r].attempted != [] ==> Stored(source, w, r))
  }

  /** The predecessors as the live run holds them, against what is stored. */
  ghost predicate EarlierOk(source: Text, w: World, run: RunId, earlier: seq<Listed>, from: nat) {
    && (forall i, j :: 0 <= i < j < |earlier| ==> earlier[i].run != earlier[j].run)
    && (forall i :: 0 <= i < |earlier| ==> earlier[i].run != run && Stored(source, w, earlier[i].run))
    && (forall i :: from <= i < |earlier| ==> w.journals[earlier[i].run] == earlier[i].journal)
  }

  ghost predicate LiveJournalsOk(source: Text, w: World) {
    match w.live
    case None => true
    case Some(Opening(run, _, _, earlier, skipped, done)) =>
      && run !in w.journals
      && done <= |earlier|
      && EarlierOk(source, w, run, earlier, 0)
      && SkippedOk(source, w.journals, earlier, skipped)
      && (forall i :: 0 <= i < done ==> IsClosed(earlier[i].journal.history))
      && (forall r :: OpenFor(source, w.journals, r) ==>
            r in skipped || exists i :: done <= i < |earlier| && earlier[i].run == r)
    case Some(Closing(run, earlier, skipped, done)) =>
      && done <= |earlier|
      && EarlierOk(source, w, run, earlier, done)
      && SkippedOk(source, w.journals, earlier, skipped)
      && (forall r :: OpenFor(source, w.journals, r) ==> r == run || r in skipped)
    case Some(l) =>
      && Stored(source, w, l.run)
      && w.journals[l.run].candidates == |l.files|
      && !IsClosed(w.journals[l.run].history)
      && EarlierOk(source, w, l.run, l.earlier, 0)
      && SkippedOk(source, w.journals, l.earlier, l.skipped)
      && l.run !in l.skipped
      && (forall r :: OpenFor(source, w.journals, r) ==> r == l.run || r in l.skipped)
  }

  /** Open runs the listing missed stay open, and the passes do not touch them. */
  ghost predicate SkippedOk(source: Text, journals: Journals, earlier: seq<Listed>, skipped: set<RunId>) {
    && (forall r :: r in skipped ==> OpenFor(source, journals, r))
    && (forall i :: 0 <= i < |earlier| ==> earlier[i].run !in skipped)
  }

  ghost predicate JournalsOk(g: Engine, w: World) {
    AllTruthful(g.setup.source, w) && LiveJournalsOk(g.setup.source, w)
  }

  lemma NotOpenIfClosed(h: seq<RunState>)
    requires IsClosed(h)
    ensures !IsOpen(h)
  {}

  /** Pushing a true closure entry keeps a truthful journal truthful, and closes it. */
  lemma ClosureKeepsTruth(source: Text, w: World, r: RunId, j: RunJournal, c: RunState)
    requires Truthful(source, w, r, j) && IsClosure(c)
    requires c.Reconciled? ==> c.rowsInCatalog == |RunRows(source, r, w.catalog)|
    ensures Truthful(source, w, r, Push(j, c)) && IsClosed(Push(j, c).history)
  {
    ClosureOnlyCloses(j.history, c);
    assert IsClosure(Push(j, c).history[|j.history|]);
  }

  // ---------- truth is kept ----------

  /** A step that saves nothing, and changes no run's rows, keeps every stored journal truthful. */
  lemma FrameTruth(source: Text, w: World, w': World)
    requires AllTruthful(source, w)
    requires forall r :: Stored(source, w', r) ==> Stored(source, w, r) && w'.journals[r] == w.journals[r]
    requires forall r :: Stored(source, w, r) ==> Stored(source, w', r)
    requires forall r :: r in w.facts ==> r in w'.facts && w.facts[r].history <= w'.facts[r].history
    requires forall r :: r in w'.facts && w'.facts[r].attempted != [] ==> Stored(source, w', r)
    requires forall r :: Stored(source, w, r) ==>
               RunRows(source, r, w'.catalog) == RunRows(source, r, w.catalog) || !IsClosed(w.journals[r].history)
    ensures AllTruthful(source, w')
  {
    forall r | Stored(source, w', r)
      ensures Truthful(source, w', r, w'.journals[r])
    {
      var h := w.journals[r].history;
      assert Truthful(source, w, r, w.journals[r]);
      if !IsClosed(h) {
        assert forall i :: 0 <= i < |h| ==> !IsClosure(h[i]);
      }
    }
  }

  /** Storing one truthful journal keeps the stored journals truthful. */
  lemma SaveTruth(source: Text, w: World, r: RunId, j: RunJournal, reply: SaveReply)
    requires AllTruthful(source, w) && Truthful(source, w, r, j)
    ensures AllTruthful(source, w.(journals := SaveEffect(w.journals, r, j, reply)))
  {}

  lemma SameRows(g: Engine, w: World, w': World, r: RunId)
    requires RunRowsOk(g, w) && RunRowsOk(g, w') && r in w.facts && r in w'.facts
    requires w.facts[r].attempted == w'.facts[r].attempted && w.facts[r].applied == w'.facts[r].applied
    ensures RunRows(g.setup.source, r, w'.catalog) == RunRows(g.setup.source, r, w.catalog)
  {
    assert FactRows(g.setup.source, r, w.facts[r], w.catalog);
    assert FactRows(g.setup.source, r, w'.facts[r], w'.catalog);
  }

  /** The in-memory history of a run holds no closure entry. */
  lemma MemoryIsOwn(f: Facts)
    requires FactsOk(f)
    ensures !IsClosed(f.history) && Own(f.history) == f.history && [Started] <= f.history
  {
    var sizes := Sizes(f.attempted[..f.acked]);
    ScriptTotals(sizes, |f.attempted| > f.acked, f.terminal);
    ScriptStarts(sizes, |f.attempted| > f.acked, f.terminal);
    OwnOfOpen(f.history);
  }

  /** A memory that only grew keeps the stored journals truthful. */
  lemma GrownMemoryKeepsTruth(source: Text, w: World, run: RunId, f: Facts)
    requires AllTruthful(source, w) && Stored(source, w, run) && w.facts[run].history <= f.history
    ensures AllTruthful(source, w.(facts := w.facts[run := f]))
  {
    FrameTruth(source, w, w.(facts := w.facts[run := f]));
  }

  /** What a run remembers is a truthful journal. */
  lemma MemoryIsTruthful(source: Text, w: World, run: RunId, n: nat)
    requires run in w.facts && FactsOk(w.facts[run])
    ensures Truthful(source, w, run, RunJournal(source, n, w.facts[run].history))
  {
    var h := w.facts[run].history;
    MemoryIsOwn(w.facts[run]);
    assert forall i :: 0 <= i < |h| ==> !IsClosure(h[i]);
  }

  /** The live run rewrites its own journal from a memory that only grew. */
  lemma MemoryKeepsTruth(source: Text, w: World, w': World, run: RunId, n: nat, f: Facts, reply: SaveReply)
    requires AllTruthful(source, w) && Stored(source, w, run)
    requires w.facts[run].history <= f.history && FactsOk(f)
    requires w'.catalog == w.catalog && w'.facts == w.facts[run := f]
    requires w'.journals == SaveEffect(w.journals, run, RunJournal(source, n, f.history), reply)
    ensures AllTruthful(source, w')
  {
    var w1 := w.(facts := w.facts[run := f]);
    GrownMemoryKeepsTruth(source, w, run, f);
    MemoryIsTruthful(source, w1, run, n);
    SaveTruth(source, w1, run, RunJournal(source, n, f.history), reply);
    SameStoresSameTruth(source, w1.(journals := w'.journals), w');
  }

  lemma SameStoresSameTruth(source: Text, w: World, w': World)
    requires AllTruthful(source, w)
    requires w'.journals == w.journals && w'.facts == w.facts && w'.catalog == w.catalog
    ensures AllTruthful(source, w')
  {}

  lemma MemoryKeepsLiveJournals(source: Text, w: World, journals: Journals, run: RunId, j: RunJournal, reply: SaveReply)
    requires w.live.Some? && w.live.value.Working? && LiveJournalsOk(source, w)
    requires run == w.live.value.run && j.source == source && j.candidates == |w.live.value.files|
    requires !IsClosed(j.history) && journals == SaveEffect(w.journals, run, j, reply)
    ensures LiveJournalsOk(source, w.(journals := journals))
  {
    assert forall r :: OpenFor(source, journals, r) && r != run ==> OpenFor(source, w.journals, r);
  }

  /** One more entry in the memory of the live run, saved or not. */
  lemma MemoryKeepsJournals(g: Engine, w: World, w': World, f: Facts, reply: SaveReply)
    requires JournalsOk(g, w) && w.live.Some? && w.live.value.Working? && HasFacts(w)
    requires w.facts[w.live.value.run].history <= f.history && FactsOk(f)
    requires w'.catalog == w.catalog && w'.facts == w.facts[w.live.value.run := f]
    requires w'.journals == SaveEffect(w.journals, w.live.value.run, JournalOf(g, w.live.value, f), reply)
    ensures AllTruthful(g.setup.source, w') && LiveJournalsOk(g.setup.source, w.(journals := w'.journals))
  {
    var l := w.live.value;
    MemoryKeepsTruth(g.setup.source, w, w', l.run, |l.files|, f, reply);
    MemoryIsOwn(f);
    MemoryKeepsLiveJournals(g.setup.source, w, w'.journals, l.run, JournalOf(g, l, f), reply);
  }

  lemma RecordKeepsJournals(g: Engine, w: World, reply: SaveReply)
    requires MayRecord(w) && JournalsOk(g, w) && FactsOk(StepRecord(g, w, reply).facts[w.live.value.run])
    ensures JournalsOk(g, StepRecord(g, w, reply))
  {
    var w' := StepRecord(g, w, reply);
    MemoryKeepsJournals(g, w, w', w'.facts[w.live.value.run], reply);
    assert SamePredecessors(w.live.value, w'.live.value);
    PredecessorsFrame(g.setup.source, w.(journals := w'.journals), w');
  }

  lemma NoteKeepsJournals(g: Engine, w: World, reply: SaveReply)
    requires MayNote(w) && JournalsOk(g, w) && FactsOk(StepNote(g, w, reply).facts[w.live.value.run])
    ensures JournalsOk(g, StepNote(g, w, reply))
  {
    var w' := StepNote(g, w, reply);
    MemoryKeepsJournals(g, w, w', w'.facts[w.live.value.run], reply);
    assert SamePredecessors(w.live.value, w'.live.value);
    PredecessorsFrame(g.setup.source, w.(journals := w'.journals), w');
  }

  lemma TerminateKeepsJournals(g: Engine, w: World, reply: SaveReply)
    requires MayTerminate(w) && JournalsOk(g, w) && FactsOk(StepTerminate(g, w, reply).facts[w.live.value.run])
    ensures JournalsOk(g, StepTerminate(g, w, reply))
  {
    var w' := StepTerminate(g, w, reply);
    var f := w'.facts[w.live.value.run];
    assert w'.facts == w.facts[w.live.value.run := f];
    MemoryKeepsJournals(g, w, w', f, reply);
    WorkEnds(g.setup.source, w.(journals := w'.journals), w', w.live.value);
  }

  lemma WorkEnds(source: Text, w: World, w': World, l: Live)
    requires w.live == Some(l) && l.Working? && LiveJournalsOk(source, w) && w'.journals == w.journals
    requires w'.live.None? || w'.live == Some(Closing(l.run, l.earlier, l.skipped, 0))
    ensures LiveJournalsOk(source, w')
  {}

  /** A landing batch changes the rows of no run but the live one. */
  lemma LandKeepsOtherRows(g: Engine, w: World, r: RunId)
    requires MayLand(w) && AllTruthful(g.setup.source, w) && RunRowsOk(g, w) && RunRowsOk(g, StepLand(w))
    requires Stored(g.setup.source, w, r) && r != w.live.value.run
    ensures RunRows(g.setup.source, r, StepLand(w).catalog) == RunRows(g.setup.source, r, w.catalog)
  {
    assert Truthful(g.setup.source, w, r, w.journals[r]);
    SameRows(g, w, StepLand(w), r);
  }

  lemma LandKeepsJournals(g: Engine, w: World)
    requires MayLand(w) && JournalsOk(g, w) && RunRowsOk(g, w) && RunRowsOk(g, StepLand(w))
    ensures JournalsOk(g, StepLand(w))
  {
    forall r | Stored(g.setup.source, w, r) && r != w.live.value.run
      ensures RunRows(g.setup.source, r, StepLand(w).catalog) == RunRows(g.setup.source, r, w.catalog)
    {
      LandKeepsOtherRows(g, w, r);
    }
    assert Stored(g.setup.source, w, w.live.value.run) && !IsClosed(w.journals[w.live.value.run].history);
    FrameTruth(g.setup.source, w, StepLand(w));
    PredecessorsFrame(g.setup.source, w, StepLand(w));
  }

  lemma BeginKeepsJournals(g: Engine, w: World, run: RunId, order: seq<RunId>)
    requires JournalsOk(g, w) && MayBegin(g, w, run, order)
    ensures JournalsOk(g, StepBegin(g, w, run, order))
  {
    var w' := StepBegin(g, w, run, order);
    FrameTruth(g.setup.source, w, w');
    var earlier := w'.live.value.earlier;
    forall r | OpenFor(g.setup.source, w'.journals, r) && r !in w'.live.value.skipped
      ensures exists i :: 0 <= i < |earlier| && earlier[i].run == r
    {
      assert r in order;
      var i :| 0 <= i < |order| && order[i] == r;
      assert earlier[i].run == r;
    }
    forall i | 0 <= i < |earlier|
      ensures earlier[i].run != run && Stored(g.setup.source, w', earlier[i].run)
    {
      assert order[i] in order;
    }
  }

  /** Pushing a true closure entry onto a predecessor's journal, whether or not the save lands. */
  lemma ClosingKeepsTruth(source: Text, w: World, w': World, item: Listed, c: RunState, reply: SaveReply)
    requires AllTruthful(source, w) && Stored(source, w, item.run) && w.journals[item.run] == item.journal
    requires IsClosure(c) && (c.Reconciled? ==> c.rowsInCatalog == |RunRows(source, item.run, w.catalog)|)
    requires w'.catalog == w.catalog && w'.facts == w.facts
    requires w'.journals == SaveEffect(w.journals, item.run, Push(item.journal, c), reply)
    ensures AllTruthful(source, w')
    ensures IsClosed(Push(item.journal, c).history)
    ensures forall r :: OpenFor(source, w'.journals, r) ==> OpenFor(source, w.journals, r)
    ensures reply.Saved? ==> !OpenFor(source, w'.journals, item.run)
  {
    var j := Push(item.journal, c);
    assert Truthful(source, w, item.run, item.journal);
    ClosureKeepsTruth(source, w, item.run, item.journal, c);
    SaveTruth(source, w, item.run, j, reply);
    assert AllTruthful(source, w.(journals := w'.journals));
    NotOpenIfClosed(j.history);
  }

  /** The pass moves on: one more predecessor is closed, in memory and in the bucket. */
  lemma PassMovesOn(source: Text, w: World, w': World, l: Live, j: RunJournal)
    requires w.live == Some(l) && l.Opening? && l.done < |l.earlier| && LiveJournalsOk(source, w)
    requires j.source == source && IsClosed(j.history)
    requires w'.journals == w.journals[l.earlier[l.done].run := j]
    requires w'.live == Some(l.(earlier := l.earlier[l.done := Listed(l.earlier[l.done].run, j)], done := l.done + 1))
    ensures LiveJournalsOk(source, w')
  {
    var run := l.earlier[l.done].run;
    var earlier := l.earlier[l.done := Listed(run, j)];
    NotOpenIfClosed(j.history);
    assert forall i :: 0 <= i < |earlier| ==> earlier[i].run == l.earlier[i].run;
    assert EarlierOk(source, w', l.run, earlier, 0);
    OpenAreAhead(source, w, w', l, j);
  }

  /** What is still open is further down the list, or was missing from it. */
  lemma OpenAreAhead(source: Text, w: World, w': World, l: Live, j: RunJournal)
    requires w.live == Some(l) && l.Opening? && l.done < |l.earlier| && LiveJournalsOk(source, w)
    requires !IsOpen(j.history) && w'.journals == w.journals[l.earlier[l.done].run := j]
    ensures forall r :: OpenFor(source, w'.journals, r) ==>
              r in l.skipped || exists i :: l.done + 1 <= i < |l.earlier| && l.earlier[i].run == r
  {
    forall r | OpenFor(source, w'.journals, r) && r !in l.skipped
      ensures exists i :: l.done + 1 <= i < |l.earlier| && l.earlier[i].run == r
    {
      assert OpenFor(source, w.journals, r);
    }
  }

  lemma ReconcileKeepsJournals(g: Engine, w: World, reply: SaveReply)
    requires JournalsOk(g, w) && MayReconcile(w)
    ensures JournalsOk(g, StepReconcile(g, w, reply))
  {
    var source := g.setup.source;
    var l := w.live.value;
    var w' := StepReconcile(g, w, reply);
    var item := l.earlier[l.done];
    var c := Reconciled(|RunRows(source, item.run, w.catalog)|);
    assert Stored(source, w, item.run);
    assert w'.journals == SaveEffect(w.journals, item.run, Push(item.journal, c), reply);
    ClosingKeepsTruth(source, w, w', item, c, reply);
    if reply.Saved? {
      PassMovesOn(source, w, w', l, Push(item.journal, c));
    }
  }

  lemma StartKeepsTruth(g: Engine, w: World, files: seq<Text>, reply: SaveReply)
    requires MayStart(w, files) && files != []
    requires AllTruthful(g.setup.source, w) && w.live.value.run !in w.facts && w.live.value.run !in w.journals
    ensures AllTruthful(g.setup.source, StepStart(g, w, files, reply))
  {
    StartedTruth(g.setup.source, w, StepStart(g, w, files, reply), w.live.value.run, |files|, reply);
  }

  /** The first entry of a run is true. */
  lemma StartedTruth(source: Text, w: World, w': World, run: RunId, n: nat, reply: SaveReply)
    requires AllTruthful(source, w) && run !in w.facts && run !in w.journals
    requires w'.catalog == w.catalog && w'.facts == w.facts[run := Facts([], 0, 0, [Started], None)]
    requires w'.journals == SaveEffect(w.journals, run, NewJournal(source, n), reply)
    ensures AllTruthful(source, w')
  {
    FirstEntryIsTrue(source, w', run, n);
    forall r | Stored(source, w', r)
      ensures Truthful(source, w', r, w'.journals[r])
    {
      if r != run {
        assert Truthful(source, w, r, w.journals[r]);
      }
    }
  }

  lemma FirstEntryIsTrue(source: Text, w: World, run: RunId, n: nat)
    requires run in w.facts && w.facts[run].history == [Started]
    ensures Truthful(source, w, run, NewJournal(source, n))
  {
    HistorySnoc([], Started);
    assert [] + [Started] == [Started];
  }

  lemma StartKeepsLiveJournals(g: Engine, w: World, files: seq<Text>, reply: SaveReply)
    requires MayStart(w, files) && files != []
    requires LiveJournalsOk(g.setup.source, w)
    ensures LiveJournalsOk(g.setup.source, StepStart(g, w, files, reply))
  {
    var source := g.setup.source;
    var w' := StepStart(g, w, files, reply);
    assert forall r :: OpenFor(source, w'.journals, r) && r != w.live.value.run ==> OpenFor(source, w.journals, r);
    assert forall r :: OpenFor(source, w.journals, r) ==> r in w.live.value.skipped;
  }

  lemma StartKeepsJournals(g: Engine, w: World, files: seq<Text>, reply: SaveReply)
    requires CountersOk(w) && JournalsOk(g, w) && MayStart(w, files)
    ensures JournalsOk(g, StepStart(g, w, files, reply))
  {
    if files == [] {
      FrameTruth(g.setup.source, w, StepStart(g, w, files, reply));
    } else {
      StartKeepsTruth(g, w, files, reply);
      StartKeepsLiveJournals(g, w, files, reply);
    }
  }

  lemma SupersedeKeepsJournals(g: Engine, w: World, reply: SaveReply)
    requires JournalsOk(g, w) && MaySupersede(w)
    ensures JournalsOk(g, StepSupersede(w, reply))
  {
    var source := g.setup.source;
    var l := w.live.value;
    var w' := StepSupersede(w, reply);
    var item := l.earlier[l.done];
    assert Stored(source, w, item.run);
    ClosingKeepsTruth(source, w, w', item, SupersededBy(l.run), reply);
    MarkMovesOn(source, w, w', l, Push(item.journal, SupersededBy(l.run)), reply);
  }

  lemma MarkMovesOn(source: Text, w: World, w': World, l: Live, j: RunJournal, reply: SaveReply)
    requires w.live == Some(l) && l.Closing? && l.done < |l.earlier| && LiveJournalsOk(source, w)
    requires j.source == source
    requires w'.journals == SaveEffect(w.journals, l.earlier[l.done].run, j, reply)
    requires w'.live == Some(l.(done := l.done + 1))
    requires forall r :: OpenFor(source, w'.journals, r) ==> OpenFor(source, w.journals, r)
    ensures LiveJournalsOk(source, w')
  {}

  lemma ForeignRowsKeepJournals(g: Engine, w: World, rows: seq<Row>)
    requires RunRowsOk(g, w) && JournalsOk(g, w) && OfOthers(g, rows)
    requires RunRowsOk(g, w.(catalog := w.catalog + rows))
    ensures JournalsOk(g, w.(catalog := w.catalog + rows))
  {
    var w' := w.(catalog := w.catalog + rows);
    forall r | Stored(g.setup.source, w, r)
      ensures RunRows(g.setup.source, r, w'.catalog) == RunRows(g.setup.source, r, w.catalog)
    {
      assert Truthful(g.setup.source, w, r, w.journals[r]);
      SameRows(g, w, w', r);
    }
    FrameTruth(g.setup.source, w, w');
  }

  /** Journals of other sources leave those of this source alone. */
  lemma OtherJournals(g: Engine, w: World, js: Journals)
    requires JournalsOfOthers(g, w, js)
    ensures SameForSource(g.setup.source, w.journals, w.journals + js)
  {}

  ghost predicate SameForSource(source: Text, before: Journals, after: Journals) {
    && (forall r :: r in before && before[r].source == source ==> r in after && after[r] == before[r])
    && (forall r :: r in after && after[r].source == source ==> r in before && before[r] == after[r])
  }

  lemma ForeignJournalsKeepJournals(g: Engine, w: World, js: Journals)
    requires CountersOk(w) && JournalsOk(g, w) && JournalsOfOthers(g, w, js)
    ensures JournalsOk(g, w.(journals := w.journals + js))
  {
    var source := g.setup.source;
    OtherJournals(g, w, js);
    FrameTruth(source, w, w.(journals := w.journals + js));
    assert w.live.Some? && w.live.value.run !in w.journals ==> w.live.value.run !in w.journals + js;
    OthersKeepPredecessors(source, w, w.journals + js);
  }

  lemma OthersKeepPredecessors(source: Text, w: World, journals: Journals)
    requires LiveJournalsOk(source, w) && SameForSource(source, w.journals, journals)
    requires w.live.Some? && w.live.value.run !in w.journals ==> w.live.value.run !in journals
    ensures LiveJournalsOk(source, w.(journals := journals))
  {
    assert forall r :: OpenFor(source, journals, r) <==> OpenFor(source, w.journals, r);
    if w.live.Some? {
      OthersKeepEarlier(source, w, journals, w.live.value.run, w.live.value.earlier);
    }
  }

  lemma OthersKeepEarlier(source: Text, w: World, journals: Journals, run: RunId, earlier: seq<Listed>)
    requires SameForSource(source, w.journals, journals)
    ensures forall from :: 0 <= from && EarlierOk(source, w, run, earlier, from) ==>
              EarlierOk(source, w.(journals := journals), run, earlier, from)
  {}

  // ---------- steps that touch no journal ----------

  /** Journals, rows and facts are as before, and so is what the live run, if it lives on, knows of the journals. */
  ghost predicate SameJournals(w: World, w': World) {
    && w'.journals == w.journals && w'.facts == w.facts && w'.catalog == w.catalog
    && (w'.live.None? || w'.live == w.live || (w.live.Some? && SamePredecessors(w.live.value, w'.live.value)))
  }

  predicate SamePredecessors(l: Live, l': Live) {
    && l.Working? && l'.Working? && l'.run == l.run && l'.files == l.files
    && l'.earlier == l.earlier && l'.skipped == l.skipped
  }

  lemma JournalsFrame(g: Engine, w: World, w': World)
    requires JournalsOk(g, w) && SameJournals(w, w')
    ensures JournalsOk(g, w')
  {
    FrameTruth(g.setup.source, w, w');
    PredecessorsFrame(g.setup.source, w, w');
  }

  lemma PredecessorsFrame(source: Text, w: World, w': World)
    requires LiveJournalsOk(source, w) && w'.journals == w.journals
    requires w'.live.None? || w'.live == w.live || (w.live.Some? && SamePredecessors(w.live.value, w'.live.value))
    ensures LiveJournalsOk(source, w')
  {}

  lemma WorkTouchesNoJournal(g: Engine, w: World, t: nat, we: WorkerEvent)
    requires MayWork(w, t, we)
    ensures SameJournals(w, StepWork(g, w, t, we))
  {}

  lemma PipeTouchesNoJournal(g: Engine, w: World, p: P.Event)
    requires MayPipe(g, w, p)
    ensures SameJournals(w, StepPipeline(g, w, p))
  {}

  lemma LossTouchesNoJournal(w: World, keys: set<Text>)
    ensures SameJournals(w, LoseBlobs(w, keys))
  {}

  lemma OthersTouchNoJournal(g: Engine, w: World, e: Event)
    requires Enabled(g, w, e) && (e.Answer? || e.Finish? || e.Crash? || e.ForeignBlobs?)
    ensures SameJournals(w, Step(g, w, e))
  {}

  predicate TouchesNoJournal(e: Event) {
    e.Work? || e.Pipe? || e.Lose? || e.Answer? || e.Finish? || e.Crash? || e.ForeignBlobs?
  }

  lemma QuietStep(g: Engine, w: World, e: Event)
    requires Enabled(g, w, e) && TouchesNoJournal(e)
    ensures SameJournals(w, Step(g, w, e))
  {
    if e.Work? {
      WorkTouchesNoJournal(g, w, e.task, e.w);
    } else if e.Pipe? {
      PipeTouchesNoJournal(g, w, e.p);
    } else if e.Lose? {
      LossTouchesNoJournal(w, e.keys);
    } else {
      OthersTouchNoJournal(g, w, e);
    }
  }

  // ---------- all steps ----------

  lemma PassesKeepJournals(g: Engine, w: World, e: Event)
    requires CountersOk(w) && JournalsOk(g, w) && Enabled(g, w, e)
    requires e.Begin? || e.Reconcile? || e.Start? || e.Supersede? || e.ForeignJournals?
    ensures JournalsOk(g, Step(g, w, e))
  {
    if e.Begin? {
      BeginKeepsJournals(g, w, e.run, e.order);
    } else if e.Reconcile? {
      ReconcileKeepsJournals(g, w, e.reply);
    } else if e.Start? {
      StartKeepsJournals(g, w, e.files, e.reply);
    } else if e.Supersede? {
      SupersedeKeepsJournals(g, w, e.reply);
    } else {
      ForeignJournalsKeepJournals(g, w, e.journals);
    }
  }

  lemma RecordsKeepJournals(g: Engine, w: World, e: Event)
    requires Enabled(g, w, e) && JournalsOk(g, w) && CountersOk(Step(g, w, e))
    requires e.Record? || e.Note? || e.Terminate?
    ensures JournalsOk(g, Step(g, w, e))
  {
    if e.Record? {
      RecordKeepsJournals(g, w, e.reply);
    } else if e.Note? {
      NoteKeepsJournals(g, w, e.reply);
    } else {
      TerminateKeepsJournals(g, w, e.reply);
    }
  }

  lemma JournalsStep(g: Engine, w: World, e: Event)
    requires CountersOk(w) && RunRowsOk(g, w) && JournalsOk(g, w) && Enabled(g, w, e)
    requires CountersOk(Step(g, w, e)) && RunRowsOk(g, Step(g, w, e))
    ensures JournalsOk(g, Step(g, w, e))
  {
    if TouchesNoJournal(e) {
      QuietStep(g, w, e);
      JournalsFrame(g, w, Step(g, w, e));
    } else if e.Record? || e.Note? || e.Terminate? {
      RecordsKeepJournals(g, w, e);
    } else if e.Land? {
      LandKeepsJournals(g, w);
    } else if e.ForeignRows? {
      ForeignRowsKeepJournals(g, w, e.rows);
    } else {
      PassesKeepJournals(g, w, e);
    }
  }
}
