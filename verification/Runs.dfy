/** The invariants of the engine together, over every sequence of runs that starts from nothing. */
module Runs {
  import opened Domain
  import opened Journal
  import opened Process
  import opened World
  import Upload
  import Identity
  import opened Safety
  import opened JournalSafety
  import opened JournalTruth
  import opened Supersession
  import opened Deduplication
  import opened UploadedBytes
  import opened Recovery

  ghost predicate Sound(g: Engine, w: World) {
    Safe(g, w) && JournalsOk(g, w) && SupersessionOk(g, w) && DedupOk(w) && KeysOk(w)
  }

  lemma EmptyIsSound(g: Engine)
    ensures Sound(g, EMPTY_WORLD)
  {}

  lemma {:induction false} SoundRun(g: Engine, w: World, es: seq<Event>)
    requires ValidEngine(g) && Injective(g.setup.sha) && Sound(g, w) && ValidRun(g, w, es)
    ensures Sound(g, Exec(g, w, es))
    decreases es
  {
    if es != [] {
      SoundStep(g, w, es[0]);
      SoundRun(g, Step(g, w, es[0]), es[1..]);
    }
  }

  ghost predicate Reachable(g: Engine, w: World) {
    exists es :: ValidRun(g, EMPTY_WORLD, es) && Exec(g, EMPTY_WORLD, es) == w
  }

  lemma ReachableIsSound(g: Engine, w: World)
    requires ValidEngine(g) && Injective(g.setup.sha) && Reachable(g, w)
    ensures Sound(g, w)
  {
    var es :| ValidRun(g, EMPTY_WORLD, es) && Exec(g, EMPTY_WORLD, es) == w;
    EmptyIsSound(g);
    SoundRun(g, EMPTY_WORLD, es);
  }

  /**
   * In every state the engine can get into: every row of the source has its blob unless the store
   * lost it, every stored object hashes to its key, no run whatever has a row without a stored
   * start, no journal records more rows than the catalog holds, and no journal names a successor
   * that did not complete.
   */
  lemma EveryReachableState(g: Engine, w: World)
    requires ValidEngine(g) && Injective(g.setup.sha) && Reachable(g, w)
    ensures forall row :: row in w.catalog && row.source == g.setup.source ==> BackedUntilLost(g, w, row)
    ensures Upload.Cas(g.setup.sha, w.blobs)
    ensures forall r :: RunRows(g.setup.source, r, w.catalog) != [] ==> Stored(g.setup.source, w, r)
    ensures forall r :: Stored(g.setup.source, w, r) ==>
              && [Started] <= w.journals[r].history
              && RowsCommitted(w.journals[r].history) <= |RunRows(g.setup.source, r, w.catalog)|
              && MarksOk(w.facts, r, w.journals[r].history)
  {
    ReachableIsSound(g, w);
    forall row | row in w.catalog && row.source == g.setup.source
      ensures BackedUntilLost(g, w, row)
    {
      ExistingRowIsBacked(g, w, row);
    }
    forall r | RunRows(g.setup.source, r, w.catalog) != []
      ensures Stored(g.setup.source, w, r)
    {
      NoRowWithoutStarted(g, w, r);
    }
    forall r | Stored(g.setup.source, w, r)
      ensures [Started] <= w.journals[r].history
      ensures RowsCommitted(w.journals[r].history) <= |RunRows(g.setup.source, r, w.catalog)|
    {
      assert Truthful(g.setup.source, w, r, w.journals[r]);
      JournalUnderReports(g, w, r);
    }
  }

  /**
   * Two rows of the catalog have the same identifier exactly when they record the same content at
   * the same path, whichever runs appended them.
   */
  lemma RowIdsIdentify(g: Engine, w: World, r1: Row, r2: Row)
    requires ValidEngine(g) && Injective(g.setup.sha) && InjectiveNames(g.setup) && Reachable(g, w)
    requires r1 in w.catalog && r2 in w.catalog && r1.source == r2.source == g.setup.source
    requires forall t :: t in [g.setup.source, r1.path, r1.hash, r2.path, r2.hash] ==> Identity.Measurable(t)
    ensures r1.id == r2.id <==> r1.path == r2.path && r1.hash == r2.hash
    ensures r1.uri == r2.uri <==> r1.hash == r2.hash
  {
    ReachableIsSound(g, w);
    ExistingRowIsBacked(g, w, r1);
    ExistingRowIsBacked(g, w, r2);
    DerivedIdentify(g.setup, r1, r2);
  }

  lemma DerivedIdentify(setup: Setup, r1: Row, r2: Row)
    requires InjectiveNames(setup) && r1.source == r2.source == setup.source
    requires Derived(setup, r1) && Derived(setup, r2)
    requires forall t :: t in [setup.source, r1.path, r1.hash, r2.path, r2.hash] ==> Identity.Measurable(t)
    ensures r1.id == r2.id <==> r1.path == r2.path && r1.hash == r2.hash
    ensures r1.uri == r2.uri <==> r1.hash == r2.hash
  {
    var s := setup.source;
    assert s in [s, r1.path, r1.hash, r2.path, r2.hash];
    Identity.ObservationNamesDoNotCollide(
      s, r1.path, Some(r1.hash), Identity.Present, s, r2.path, Some(r2.hash), Identity.Present);
    Identity.ObjectKeyInjective(r1.hash, r2.hash);
    var n := |S3| + |setup.bucket| + 1;
    assert r1.uri[n..] == Identity.ObjectKey(r1.hash) && r2.uri[n..] == Identity.ObjectKey(r2.hash);
  }

  /** No two names share a version 5 UUID. */
  ghost predicate InjectiveNames(setup: Setup) {
    forall a, b :: setup.uuid5(a) == setup.uuid5(b) ==> a == b
  }

  lemma SoundStep(g: Engine, w: World, e: Event)
    requires ValidEngine(g) && Injective(g.setup.sha) && Sound(g, w) && Enabled(g, w, e)
    ensures Sound(g, Step(g, w, e))
  {
    SafeStep(g, w, e);
    JournalsStep(g, w, e);
    SupersessionStep(g, w, e);
    DedupStep(g, w, e);
    KeysStep(g, w, e);
  }

  lemma StillClosedTwice(a: RunJournal, b: RunJournal, c: RunJournal)
    requires StillClosed(a, b) && StillClosed(b, c)
    ensures StillClosed(a, c)
  {}

  ghost predicate ClosedIn(g: Engine, w: World, r: RunId) {
    Stored(g.setup.source, w, r) && IsClosed(w.journals[r].history)
  }

  lemma {:induction false} RemainsClosed(g: Engine, w: World, es: seq<Event>, r: RunId)
    requires ValidEngine(g) && Injective(g.setup.sha) && Sound(g, w) && ValidRun(g, w, es) && ClosedIn(g, w, r)
    ensures ClosedIn(g, Exec(g, w, es), r) && StillClosed(w.journals[r], Exec(g, w, es).journals[r])
    decreases es
  {
    if es != [] {
      var w1 := Step(g, w, es[0]);
      ClosedStaysClosed(g, w, es[0], r);
      SoundStep(g, w, es[0]);
      RemainsClosed(g, w1, es[1..], r);
      StillClosedTwice(w.journals[r], w1.journals[r], Exec(g, w1, es[1..]).journals[r]);
    }
  }

  lemma ClosedIsExact(g: Engine, w: World, r: RunId)
    requires JournalsOk(g, w) && ClosedIn(g, w, r)
    ensures !OpenFor(g.setup.source, w.journals, r)
    ensures CountsExact(w.journals[r].history, |RunRows(g.setup.source, r, w.catalog)|)
  {
    assert Truthful(g.setup.source, w, r, w.journals[r]);
    NotOpenIfClosed(w.journals[r].history);
  }

  /** Once closed, a journal is never open again, and its recorded row counts stay exact. */
  lemma ClosedForever(g: Engine, w: World, es: seq<Event>, r: RunId)
    requires ValidEngine(g) && Injective(g.setup.sha) && Sound(g, w) && ValidRun(g, w, es) && ClosedIn(g, w, r)
    ensures var w' := Exec(g, w, es);
            && r in w'.journals && StillClosed(w.journals[r], w'.journals[r])
            && !OpenFor(g.setup.source, w'.journals, r)
            && CountsExact(w'.journals[r].history, |RunRows(g.setup.source, r, w'.catalog)|)
  {
    SoundRun(g, w, es);
    RemainsClosed(g, w, es, r);
    ClosedIsExact(g, Exec(g, w, es), r);
  }

  // ---------- recovery, from every reachable state between two runs ----------

  /**
   * A path settled by a completed run gets no further row while the tree stays as it is, whatever
   * the later runs are given to look at and however they end.
   */
  lemma SettledForGood(g: Engine, tree: Tree, w: World, es: seq<Event>, more: seq<Event>) returns (news: seq<Row>)
    requires ValidEngine(g) && Injective(g.setup.sha) && Reachable(g, w) && w.live.None?
    requires ValidRun(g, w, es) && FaithfulRun(g, tree, w, es)
    requires Exec(g, w, es).live.None?
    requires ValidRun(g, Exec(g, w, es), more) && FaithfulRun(g, tree, Exec(g, w, es), more)
    ensures var mid, end := Exec(g, w, es), Exec(g, Exec(g, w, es), more);
            && SourceRows(g.setup.source, end.catalog) == SourceRows(g.setup.source, mid.catalog) + news
            && forall i :: 0 <= i < |news| ==> news[i].path !in SettledBy(g, w, es)
  {
    ReachableIsSound(g, w);
    SafeRun(g, w, es);
    var first := RecoveryConverges(g, tree, w, es);
    news := RecoveryConverges(g, tree, Exec(g, w, es), more);
  }

  /** When completed runs have settled every file of the tree, later runs append nothing at all. */
  lemma SettledTreeIsQuiet(g: Engine, tree: Tree, w: World, es: seq<Event>, more: seq<Event>)
    requires ValidEngine(g) && Injective(g.setup.sha) && Reachable(g, w) && w.live.None?
    requires ValidRun(g, w, es) && FaithfulRun(g, tree, w, es)
    requires Exec(g, w, es).live.None? && tree.Keys <= SettledBy(g, w, es)
    requires ValidRun(g, Exec(g, w, es), more) && FaithfulRun(g, tree, Exec(g, w, es), more)
    ensures SourceRows(g.setup.source, Exec(g, Exec(g, w, es), more).catalog)
         == SourceRows(g.setup.source, Exec(g, w, es).catalog)
  {
    ReachableIsSound(g, w);
    var first := RecoveryConverges(g, tree, w, es);
    SafeRun(g, w, es);
    LaterRunsAppendNothing(g, tree, Exec(g, w, es), more);
  }
}
