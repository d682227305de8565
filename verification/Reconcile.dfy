/**
 * The methods of the command that touch journals and the catalog: the journaled committer, the
 * reconciling pass at the start, and the superseding pass at the end. Each is proved against a
 * function, and the functions are proved to be the machine's own steps.
 */
module Reconcile {
  import opened Domain
  import opened Seqs
  import opened Journal
  import opened World

  // ---------- the catalog ----------

  /** An append may be applied without an acknowledgement. */
  datatype AppendReply = Applied | AppliedButError | NotApplied

  class Catalog {
    var rows: seq<Row>
    ghost var journalsBefore: Journals  // what was stored in the bucket when the last append was called

    constructor ()
      ensures rows == []
    {
      rows, journalsBefore := [], map[];
    }

    method Append(batch: seq<Row>, reply: AppendReply, ghost bucket: JournalBucket) returns (ok: bool)
      modifies this
      ensures rows == old(rows) + if reply.NotApplied? then [] else batch
      ensures ok <==> reply.Applied?
      ensures journalsBefore == bucket.objects
    {
      journalsBefore := bucket.objects;
      if !reply.NotApplied? {
        rows := rows + batch;
      }
      ok := reply.Applied?;
    }

    method CountRowsForRun(source: Text, run: RunId) returns (n: nat)
      ensures n == |RunRows(source, run, rows)|
    {
      n := 0;
      assert rows[..0] == [];
      for i := 0 to |rows|
        invariant n == |RunRows(source, run, rows[..i])|
      {
        assert rows[..i + 1][..i] == rows[..i];
        if rows[i].source == source && rows[i].run == run {
          n := n + 1;
        }
      }
      assert rows[..|rows|] == rows;
    }
  }

  // ---------- the journaled committer ----------

  /** Records `committing` and `batch_committed` around every batch. */
  class JournaledCommitter {
    const inner: Catalog
    const journal: JournalWriter
    var batches: nat

    ghost predicate Valid()
      reads this, journal, journal.bucket
    {
      journal.Valid()
    }

    constructor (inner: Catalog, journal: JournalWriter)
      requires journal.Valid()
      ensures Valid() && this.inner == inner && this.journal == journal && batches == 0
    {
      this.inner, this.journal, batches := inner, journal, 0;
    }

    method Commit(rows: seq<Row>, before: SaveReply, append: AppendReply, after: SaveReply) returns (ok: bool)
      requires Valid()
      modifies this, inner, journal, journal.bucket
      ensures Valid()
      ensures ok <==> append.Applied?
      ensures batches == old(batches) + 1
      ensures inner.rows == old(inner.rows) + if append.NotApplied? then [] else rows
      ensures inner.journalsBefore
           == SaveEffect(old(journal.bucket.objects), journal.run, Push(old(journal.journal), Committing(batches)),
                         before)
      ensures journal.journal == CommitJournal(old(journal.journal), batches, |rows|, ok)
      ensures journal.bucket.objects
           == CommitSaves(old(journal.bucket.objects), journal.run, old(journal.journal), batches, |rows|,
                          before, append, after)
    {
      batches := batches + 1;
      journal.Record(Committing(batches), before);
      ok := inner.Append(rows, append, journal.bucket);
      if !ok {
        return;
      }
      journal.Record(BatchCommitted(batches, |rows|), after);
    }
  }

  function CommitJournal(j: RunJournal, batch: nat, rows: nat, ok: bool): RunJournal {
    var started := Push(j, Committing(batch));
    if ok then Push(started, BatchCommitted(batch, rows)) else started
  }

  function CommitSaves(
      journals: Journals, run: RunId, j: RunJournal, batch: nat, rows: nat,
      before: SaveReply, append: AppendReply, after: SaveReply): Journals
  {
    var started := SaveEffect(journals, run, Push(j, Committing(batch)), before);
    if append.Applied? then SaveEffect(started, run, CommitJournal(j, batch, rows, true), after) else started
  }

  /** The machine's steps of one commit. */
  function CommitEvents(before: SaveReply, append: AppendReply, after: SaveReply): seq<Event> {
    [Record(before)] + AppendEvents(append, after)
  }

  function AppendEvents(append: AppendReply, after: SaveReply): seq<Event> {
    if append.NotApplied? then AnswerEvents(append, after) else [Land] + AnswerEvents(append, after)
  }

  function AnswerEvents(append: AppendReply, after: SaveReply): seq<Event> {
    [Answer(append.Applied?)] + if append.Applied? then [Note(after)] else []
  }

  /** The machine is about to commit a batch, and nothing is on its way. */
  ghost predicate AboutToCommit(w: World) {
    && w.live.Some? && w.live.value.Working? && HasFacts(w)
    && w.live.value.phase.Idle? && w.live.value.pipe.writer.Flushing?
    && w.facts[w.live.value.run].applied == |w.facts[w.live.value.run].attempted|
  }

  // The states a commit goes through.

  function AfterAppend(g: Engine, w: World, before: SaveReply, append: AppendReply): World
    requires AboutToCommit(w)
  {
    var w1 := StepRecord(g, w, before);
    if append.NotApplied? then w1 else StepLand(w1)
  }

  function AfterAnswer(g: Engine, w: World, before: SaveReply, append: AppendReply): World
    requires AboutToCommit(w)
  {
    StepAnswer(AfterAppend(g, w, before, append), append.Applied?)
  }

  function AfterCommit(g: Engine, w: World, before: SaveReply, append: AppendReply, after: SaveReply): World
    requires AboutToCommit(w)
  {
    var w3 := AfterAnswer(g, w, before, append);
    if append.Applied? then StepNote(g, w3, after) else w3
  }

  lemma CommitSteps(g: Engine, w: World, before: SaveReply, append: AppendReply, after: SaveReply)
    requires AboutToCommit(w)
    ensures ValidRun(g, w, CommitEvents(before, append, after))
    ensures Exec(g, w, CommitEvents(before, append, after)) == AfterCommit(g, w, before, append, after)
  {
    AppendSteps(g, w, before, append, after);
    ExecCons(g, w, Record(before), AppendEvents(append, after));
  }

  lemma AppendSteps(g: Engine, w: World, before: SaveReply, append: AppendReply, after: SaveReply)
    requires AboutToCommit(w)
    ensures ValidRun(g, StepRecord(g, w, before), AppendEvents(append, after))
    ensures Exec(g, StepRecord(g, w, before), AppendEvents(append, after))
         == AfterCommit(g, w, before, append, after)
  {
    AnswerSteps(g, w, before, append, after);
    if !append.NotApplied? {
      ExecCons(g, StepRecord(g, w, before), Land, AnswerEvents(append, after));
    }
  }

  lemma AnswerSteps(g: Engine, w: World, before: SaveReply, append: AppendReply, after: SaveReply)
    requires AboutToCommit(w)
    ensures var w2 := AfterAppend(g, w, before, append);
            && ValidRun(g, w2, AnswerEvents(append, after))
            && Exec(g, w2, AnswerEvents(append, after)) == AfterCommit(g, w, before, append, after)
  {
    var tail := if append.Applied? then [Note(after)] else [];
    NotedSteps(g, AfterAnswer(g, w, before, append), append, after);
    ExecCons(g, AfterAppend(g, w, before, append), Answer(append.Applied?), tail);
  }

  lemma NotedSteps(g: Engine, w: World, append: AppendReply, after: SaveReply)
    requires append.Applied? ==> MayNote(w)
    ensures var tail := if append.Applied? then [Note(after)] else [];
            ValidRun(g, w, tail) && Exec(g, w, tail) == if append.Applied? then StepNote(g, w, after) else w
  {
    if append.Applied? {
      ExecCons(g, w, Note(after), []);
    }
  }

  lemma ExecCons(g: Engine, w: World, e: Event, es: seq<Event>)
    requires Enabled(g, w, e) && ValidRun(g, Step(g, w, e), es)
    ensures ValidRun(g, w, [e] + es) && Exec(g, w, [e] + es) == Exec(g, Step(g, w, e), es)
  {
    assert ([e] + es)[1..] == es;
  }

  /** Catalog, bucket, journal and the live run as `Commit` leaves them. */
  ghost predicate CommittedFrom(
      g: Engine, w: World, w': World, before: SaveReply, append: AppendReply, after: SaveReply)
    requires AboutToCommit(w)
  {
    var l, f := w.live.value, w.facts[w.live.value.run];
    var rows, batch, j := l.pipe.writer.batch, l.batches + 1, JournalOf(g, l, f);
    && w'.catalog == w.catalog + (if append.NotApplied? then [] else rows)
    && w'.journals == CommitSaves(w.journals, l.run, j, batch, |rows|, before, append, after)
    && w'.live == Some(l.(batches := batch, phase := if append.Applied? then Noted else Refused))
    && l.run in w'.facts
    && JournalOf(g, l, w'.facts[l.run]) == CommitJournal(j, batch, |rows|, append.Applied?)
  }

  /** What `Commit` does is what the machine does in those steps. */
  lemma CommitIsTheMachines(g: Engine, w: World, before: SaveReply, append: AppendReply, after: SaveReply)
    requires AboutToCommit(w)
    ensures ValidRun(g, w, CommitEvents(before, append, after))
    ensures CommittedFrom(g, w, Exec(g, w, CommitEvents(before, append, after)), before, append, after)
  {
    CommitSteps(g, w, before, append, after);
    AfterCommitIs(g, w, before, append, after);
  }

  lemma AfterCommitIs(g: Engine, w: World, before: SaveReply, append: AppendReply, after: SaveReply)
    requires AboutToCommit(w)
    ensures CommittedFrom(g, w, AfterCommit(g, w, before, append, after), before, append, after)
  {
    AfterAnswerIs(g, w, before, append);
    var w3, w4 := AfterAnswer(g, w, before, append), AfterCommit(g, w, before, append, after);
    assert w4.catalog == w3.catalog;
  }

  /** The part of a commit up to the catalog's answer. */
  lemma AfterAnswerIs(g: Engine, w: World, before: SaveReply, append: AppendReply)
    requires AboutToCommit(w)
    ensures var w3 := AfterAnswer(g, w, before, append);
            var l, f := w.live.value, w.facts[w.live.value.run];
            var batch := l.batches + 1;
            && w3.catalog == w.catalog + (if append.NotApplied? then [] else l.pipe.writer.batch)
            && w3.journals == SaveEffect(w.journals, l.run, Push(JournalOf(g, l, f), Committing(batch)), before)
            && w3.live == Some(l.(batches := batch, phase := if append.Applied? then Accepted else Refused))
            && l.run in w3.facts && w3.facts[l.run].history == f.history + [Committing(batch)]
  {}

  // ---------- listing open runs ----------

  /** The open runs of the source whose journals can be read, each once. */
  ghost predicate ListsReadable(source: Text, journals: Journals, readable: RunId -> bool, order: seq<RunId>) {
    && IsListing(source, journals, order)
    && forall r :: r in order <==> OpenFor(source, journals, r) && readable(r)
  }

  /** The names of all journal objects, in some order. */
  ghost predicate NamesOf(journals: Journals, names: seq<RunId>) {
    Distinct(names) && forall r :: r in names <==> r in journals
  }

  /**
   * Load every listed journal and keep the open runs of one source. An object that cannot be read
   * is skipped, so that one bad object cannot hide the rest.
   */
  method OpenRunsFor(bucket: JournalBucket, names: seq<RunId>, readable: RunId -> bool, source: Text)
    returns (open: seq<Listed>)
    requires NamesOf(bucket.objects, names)
    ensures ListsReadable(source, bucket.objects, readable, RunsOf(open))
    ensures open == ListedOf(bucket.objects, RunsOf(open))
  {
    open := [];
    ghost var order: seq<RunId> := [];
    for i := 0 to |names|
      invariant forall r :: r in order <==> r in names[..i] && OpenFor(source, bucket.objects, r) && readable(r)
      invariant Distinct(order)
      invariant open == ListedOf(bucket.objects, order)
    {
      var r := names[i];
      assert r !in names[..i];
      if readable(r) {
        var j := bucket.objects[r];
        if j.source == source && IsOpen(j.history) {
          assert (order + [r])[..|order|] == order;
          order := order + [r];
          open := open + [Listed(r, j)];
        }
      }
    }
    assert RunsOf(open) == order;
  }

  // ---------- the reconciling pass ----------

  /** How a pass ends: the stored journals, the predecessors in memory, and how many are closed. */
  datatype Pass = Pass(journals: Journals, earlier: seq<Listed>, done: nat, ok: bool)

  function Reconciliation(source: Text, catalog: seq<Row>, item: Listed): Listed {
    Listed(item.run, Push(item.journal, Reconciled(|RunRows(source, item.run, catalog)|)))
  }

  /** What the pass meets at one predecessor: the row count may fail, then the save may. */
  datatype PassReply = CountFails | Counted(save: SaveReply)

  predicate Closes(r: PassReply) {
    r.Counted? && r.save.Saved?
  }

  function PassEffect(journals: Journals, item: Listed, r: PassReply): Journals {
    match r
    case CountFails => journals
    case Counted(save) => SaveEffect(journals, item.run, item.journal, save)
  }

  /** The pass from position `i` on; the first failed count or unacknowledged save ends it. */
  function ReconcileFrom(
      source: Text, catalog: seq<Row>, journals: Journals, earlier: seq<Listed>, i: nat, reply: nat -> PassReply): Pass
    requires i <= |earlier|
    decreases |earlier| - i
  {
    if i == |earlier| then Pass(journals, earlier, i, true)
    else
      var item := Reconciliation(source, catalog, earlier[i]);
      var saved := PassEffect(journals, item, reply(i));
      if Closes(reply(i)) then ReconcileFrom(source, catalog, saved, earlier[i := item], i + 1, reply)
      else Pass(saved, earlier, i, false)
  }

  /** Report the open runs; with `reconcile`, close each with the rows the catalog holds for it. */
  method ReportOpenRuns(
      bucket: JournalBucket, catalog: Catalog, lists: bool, names: seq<RunId>, readable: RunId -> bool,
      source: Text, reconcile: bool, reply: nat -> PassReply)
    returns (open: Option<seq<Listed>>, ghost order: seq<RunId>)
    requires NamesOf(bucket.objects, names)
    modifies bucket
    ensures !lists ==> bucket.objects == old(bucket.objects) && open == None
    ensures IsListing(source, old(bucket.objects), order)
    ensures lists ==> forall r :: r in order <==> OpenFor(source, old(bucket.objects), r) && readable(r)
    ensures lists && !reconcile ==>
              bucket.objects == old(bucket.objects) && open == Some(ListedOf(bucket.objects, order))
    ensures lists && reconcile ==>
              var was := old(bucket.objects);
              var p := ReconcileFrom(source, catalog.rows, was, ListedOf(was, order), 0, reply);
              bucket.objects == p.journals && open == if p.ok then Some(p.earlier) else None
  {
    order := [];
    if !lists {
      open := None;
      return;
    }
    var runs := OpenRunsFor(bucket, names, readable, source);
    order := RunsOf(runs);
    var i := 0;
    while i < |runs|
      invariant i <= |runs|
      invariant !reconcile ==> bucket.objects == old(bucket.objects) && runs == ListedOf(bucket.objects, order)
      invariant reconcile ==>
                  var was := old(bucket.objects);
                  ReconcileFrom(source, catalog.rows, was, ListedOf(was, order), 0, reply)
                  == ReconcileFrom(source, catalog.rows, bucket.objects, runs, i, reply)
    {
      if reconcile {
        if reply(i).CountFails? {
          open := None;
          return;
        }
        var rows := catalog.CountRowsForRun(source, runs[i].run);
        var closed := Listed(runs[i].run, Push(runs[i].journal, Reconciled(rows)));
        var ok := bucket.Save(closed.run, closed.journal, reply(i).save);
        if !ok {
          open := None;
          return;
        }
        runs := runs[i := closed];
      }
      i := i + 1;
    }
    open := Some(runs);
  }

  ghost predicate DistinctRuns(earlier: seq<Listed>) {
    forall i, j :: 0 <= i < j < |earlier| ==> earlier[i].run != earlier[j].run
  }

  ghost predicate ClosedIn(source: Text, catalog: seq<Row>, journals: Journals, item: Listed) {
    item.run in journals && journals[item.run] == Reconciliation(source, catalog, item).journal
  }

  ghost predicate AsItWas(journals: Journals, item: Listed) {
    item.run in journals && journals[item.run] == item.journal
  }

  ghost predicate NotListed(earlier: seq<Listed>, i: nat, r: RunId) {
    forall k :: i <= k < |earlier| ==> earlier[k].run != r
  }

  /** What stands in the bucket, predecessor by predecessor, once the pass is over. */
  ghost predicate ClosedPrefix(
      source: Text, catalog: seq<Row>, journals: Journals, earlier: seq<Listed>, i: nat, p: Pass)
  {
    && i <= p.done <= |earlier| && (p.ok <==> p.done == |earlier|)
    && p.journals.Keys == journals.Keys
    && (forall k :: i <= k < p.done ==> ClosedIn(source, catalog, p.journals, earlier[k]))
    && (!p.ok ==> ClosedIn(source, catalog, p.journals, earlier[p.done]) || AsItWas(p.journals, earlier[p.done]))
    && (forall k :: p.done < k < |earlier| ==> AsItWas(p.journals, earlier[k]))
    && (forall r :: r in journals && NotListed(earlier, i, r) ==> p.journals[r] == journals[r])
  }

  /**
   * A pass closes a prefix of the listed runs, each with the exact number of rows in the catalog.
   * All of them when it succeeds; otherwise the one it stopped at is closed or as it was, and the
   * rest, like every run that was not listed, is untouched.
   */
  lemma {:induction false} PassClosesAPrefix(
      source: Text, catalog: seq<Row>, journals: Journals, earlier: seq<Listed>, i: nat, reply: nat -> PassReply)
    requires i <= |earlier| && DistinctRuns(earlier)
    requires forall k :: i <= k < |earlier| ==> AsItWas(journals, earlier[k])
    ensures ClosedPrefix(source, catalog, journals, earlier, i,
                         ReconcileFrom(source, catalog, journals, earlier, i, reply))
    decreases |earlier| - i
  {
    if i < |earlier| {
      var item := Reconciliation(source, catalog, earlier[i]);
      var saved := PassEffect(journals, item, reply(i));
      assert AsItWas(journals, earlier[i]);
      if Closes(reply(i)) {
        var rest := earlier[i := item];
        assert forall k :: i + 1 <= k < |rest| ==> rest[k] == earlier[k] && rest[k].run != item.run;
        PassClosesAPrefix(source, catalog, saved, rest, i + 1, reply);
        OneMoreClosed(source, catalog, journals, earlier, i, ReconcileFrom(source, catalog, saved, rest, i + 1, reply));
      } else {
        PassStops(source, catalog, journals, earlier, i, reply);
      }
    }
  }

  lemma PassStops(
      source: Text, catalog: seq<Row>, journals: Journals, earlier: seq<Listed>, i: nat, reply: nat -> PassReply)
    requires i < |earlier| && DistinctRuns(earlier) && !Closes(reply(i))
    requires forall k :: i <= k < |earlier| ==> AsItWas(journals, earlier[k])
    ensures ClosedPrefix(source, catalog, journals, earlier, i,
                         ReconcileFrom(source, catalog, journals, earlier, i, reply))
  {
    var saved := PassEffect(journals, Reconciliation(source, catalog, earlier[i]), reply(i));
    assert AsItWas(journals, earlier[i]);
    forall k | i < k < |earlier|
      ensures AsItWas(saved, earlier[k])
    {
      assert AsItWas(journals, earlier[k]);
    }
  }

  lemma OneMoreClosed(
      source: Text, catalog: seq<Row>, journals: Journals, earlier: seq<Listed>, i: nat, p: Pass)
    requires i < |earlier| && DistinctRuns(earlier) && earlier[i].run in journals
    requires var item := Reconciliation(source, catalog, earlier[i]);
             ClosedPrefix(source, catalog, journals[item.run := item.journal], earlier[i := item], i + 1, p)
    ensures ClosedPrefix(source, catalog, journals, earlier, i, p)
  {
    var item := Reconciliation(source, catalog, earlier[i]);
    var saved, rest := journals[item.run := item.journal], earlier[i := item];
    assert NotListed(rest, i + 1, item.run);
    assert ClosedIn(source, catalog, p.journals, earlier[i]);
    forall k | i <= k < p.done
      ensures ClosedIn(source, catalog, p.journals, earlier[k])
    {
      assert k > i ==> rest[k] == earlier[k];
    }
    forall k | p.done < k < |earlier|
      ensures AsItWas(p.journals, earlier[k])
    {
      assert rest[k] == earlier[k];
    }
    forall r | r in journals && NotListed(earlier, i, r)
      ensures p.journals[r] == journals[r]
    {
      assert NotListed(rest, i + 1, r);
      assert earlier[i].run != r;
    }
  }

  /** A pass succeeds exactly when every row count came back and every save was acknowledged. */
  lemma {:induction false} PassSucceedsExactlyWhen(
      source: Text, catalog: seq<Row>, journals: Journals, earlier: seq<Listed>, i: nat, reply: nat -> PassReply)
    requires i <= |earlier|
    ensures ReconcileFrom(source, catalog, journals, earlier, i, reply).ok
            <==> forall k :: i <= k < |earlier| ==> reply(k) == Counted(Saved)
    decreases |earlier| - i
  {
    if i < |earlier| {
      var item := Reconciliation(source, catalog, earlier[i]);
      var saved := PassEffect(journals, item, reply(i));
      if Closes(reply(i)) {
        PassSucceedsExactlyWhen(source, catalog, saved, earlier[i := item], i + 1, reply);
      }
    }
  }

  /**
   * After a successful pass the runs that are open are exactly the open runs it was not given; so
   * none is open if and only if every open journal could be read. No other journal changed.
   */
  lemma SuccessfulPassClosesWhatWasFound(
      source: Text, catalog: seq<Row>, journals: Journals, order: seq<RunId>, reply: nat -> PassReply)
    requires IsListing(source, journals, order)
    ensures var p := ReconcileFrom(source, catalog, journals, ListedOf(journals, order), 0, reply);
            && (p.ok ==> forall r :: OpenFor(source, p.journals, r) <==> OpenFor(source, journals, r) && r !in order)
            && (p.ok ==> ((forall r :: !OpenFor(source, p.journals, r))
                          <==> forall r :: OpenFor(source, journals, r) ==> r in order))
            && p.journals.Keys == journals.Keys
            && (forall r :: r in journals && r !in order ==> p.journals[r] == journals[r])
  {
    var earlier := ListedOf(journals, order);
    PassClosesAPrefix(source, catalog, journals, earlier, 0, reply);
    var p := ReconcileFrom(source, catalog, journals, earlier, 0, reply);
    forall r | r in journals && r !in order
      ensures p.journals[r] == journals[r]
    {
      assert NotListed(earlier, 0, r);
    }
    if p.ok {
      forall r | r in order
        ensures !OpenFor(source, p.journals, r)
      {
        var k :| 0 <= k < |order| && order[k] == r;
        assert ClosedIn(source, catalog, p.journals, earlier[k]);
        ClosureOnlyCloses(earlier[k].journal.history, Reconciled(|RunRows(source, r, catalog)|));
      }
    }
  }

  lemma HasMember(order: seq<RunId>)
    ensures order == [] || exists r :: r in order
  {
    if order != [] {
      assert order[0] in order;
    }
  }

  /**
   * One unreadable journal: the listing that skips it is the empty one, the pass succeeds, and the
   * run stays open.
   */
  lemma UnreadableJournalStaysOpen(
      source: Text, catalog: seq<Row>, run: RunId, readable: RunId -> bool, reply: nat -> PassReply)
    requires !readable(run)
    ensures var journals := map[run := NewJournal(source, 1)];
            && NamesOf(journals, [run]) && OpenFor(source, journals, run)
            && forall order :: ListsReadable(source, journals, readable, order) ==>
                 var p := ReconcileFrom(source, catalog, journals, ListedOf(journals, order), 0, reply);
                 order == [] && p.ok && OpenFor(source, p.journals, run)
  {
    var journals := map[run := NewJournal(source, 1)];
    HistorySnoc([], Started);
    assert [] + [Started] == [Started];
    assert [run][0] == run;
    forall order | ListsReadable(source, journals, readable, order)
      ensures order == []
    {
      HasMember(order);
    }
  }

  /** The machine's step at one predecessor: a failed count ends the run without a save. */
  function PassEvent(r: PassReply): Event {
    match r
    case CountFails => Crash
    case Counted(save) => Event.Reconcile(save)
  }

  /** The machine's steps of a pass, up to the first that does not close. */
  function PassEvents(n: nat, i: nat, reply: nat -> PassReply): seq<Event>
    requires i <= n
    decreases n - i
  {
    if i == n then []
    else [PassEvent(reply(i))] + if Closes(reply(i)) then PassEvents(n, i + 1, reply) else []
  }

  lemma PassStep(g: Engine, w: World, reply: PassReply)
    requires w.live.Some? && w.live.value.Opening? && w.live.value.done < |w.live.value.earlier|
    ensures Enabled(g, w, PassEvent(reply))
    ensures var l := w.live.value;
            var item := Reconciliation(g.setup.source, w.catalog, l.earlier[l.done]);
            Step(g, w, PassEvent(reply))
            == w.(journals := PassEffect(w.journals, item, reply),
                  live := if Closes(reply) then Some(l.(earlier := l.earlier[l.done := item], done := l.done + 1))
                          else None)
  {}

  /** The pass is what the machine does. */
  lemma {:induction false} PassIsTheMachines(g: Engine, w: World, reply: nat -> PassReply)
    requires w.live.Some? && w.live.value.Opening? && w.live.value.done <= |w.live.value.earlier|
    ensures var l := w.live.value;
            var es := PassEvents(|l.earlier|, l.done, reply);
            var p := ReconcileFrom(g.setup.source, w.catalog, w.journals, l.earlier, l.done, reply);
            && ValidRun(g, w, es)
            && Exec(g, w, es) == w.(journals := p.journals,
                                    live := if p.ok then Some(l.(earlier := p.earlier, done := p.done)) else None)
    decreases |w.live.value.earlier| - w.live.value.done
  {
    var l := w.live.value;
    if l.done < |l.earlier| {
      var e := PassEvent(reply(l.done));
      PassStep(g, w, reply(l.done));
      if Closes(reply(l.done)) {
        PassIsTheMachines(g, Step(g, w, e), reply);
        ExecCons(g, w, e, PassEvents(|l.earlier|, l.done + 1, reply));
      } else {
        ExecCons(g, w, e, []);
        assert PassEvents(|l.earlier|, l.done, reply) == [e];
      }
    }
  }

  // ---------- the superseding pass ----------

  /** Best effort: a failed save does not stop the pass. */
  function SupersedeFrom(
      journals: Journals, earlier: seq<Listed>, successor: RunId, i: nat, reply: nat -> SaveReply): Journals
    requires i <= |earlier|
    decreases |earlier| - i
  {
    if i == |earlier| then journals
    else
      var item := earlier[i];
      var saved := SaveEffect(journals, item.run, Push(item.journal, SupersededBy(successor)), reply(i));
      SupersedeFrom(saved, earlier, successor, i + 1, reply)
  }

  method SupersedeOpenRuns(bucket: JournalBucket, runs: seq<Listed>, successor: RunId, reply: nat -> SaveReply)
    modifies bucket
    ensures bucket.objects == SupersedeFrom(old(bucket.objects), runs, successor, 0, reply)
  {
    for i := 0 to |runs|
      invariant SupersedeFrom(old(bucket.objects), runs, successor, 0, reply)
             == SupersedeFrom(bucket.objects, runs, successor, i, reply)
    {
      var _ := bucket.Save(runs[i].run, Push(runs[i].journal, SupersededBy(successor)), reply(i));
    }
  }

  /** Superseding touches only the listed journals, and adds at most the one entry to each. */
  lemma {:induction false} SupersedingOnlyMarks(
      journals: Journals, earlier: seq<Listed>, successor: RunId, i: nat, reply: nat -> SaveReply)
    requires i <= |earlier| && DistinctRuns(earlier)
    requires forall k :: i <= k < |earlier| ==> AsItWas(journals, earlier[k])
    ensures var js := SupersedeFrom(journals, earlier, successor, i, reply);
            && js.Keys == journals.Keys
            && (forall k :: i <= k < |earlier| ==>
                  earlier[k].run in js
                  && js[earlier[k].run] == if reply(k).NotSaved? then earlier[k].journal
                                        else Push(earlier[k].journal, SupersededBy(successor)))
            && (forall r :: r in journals && NotListed(earlier, i, r) ==> js[r] == journals[r])
    decreases |earlier| - i
  {
    if i < |earlier| {
      var item := earlier[i];
      var saved := SaveEffect(journals, item.run, Push(item.journal, SupersededBy(successor)), reply(i));
      SupersedingOnlyMarks(saved, earlier, successor, i + 1, reply);
    }
  }

  function SupersedeEvents(n: nat, i: nat, reply: nat -> SaveReply): seq<Event>
    requires i <= n
    decreases n - i
  {
    if i == n then [Finish] else [Supersede(reply(i))] + SupersedeEvents(n, i + 1, reply)
  }

  lemma SupersedeStep(g: Engine, w: World, reply: SaveReply)
    requires w.live.Some? && w.live.value.Closing? && w.live.value.done < |w.live.value.earlier|
    ensures Enabled(g, w, Supersede(reply))
    ensures var l := w.live.value;
            var item := l.earlier[l.done];
            Step(g, w, Supersede(reply))
            == w.(journals := SaveEffect(w.journals, item.run, Push(item.journal, SupersededBy(l.run)), reply),
                  live := Some(l.(done := l.done + 1)))
  {}

  lemma FinishStep(g: Engine, w: World)
    requires w.live.Some? && w.live.value.Closing? && w.live.value.done == |w.live.value.earlier|
    ensures Enabled(g, w, Finish) && Step(g, w, Finish) == w.(live := None)
  {}

  /** The superseding pass is what the machine does before it finishes. */
  lemma {:induction false} SupersedingIsTheMachines(g: Engine, w: World, reply: nat -> SaveReply)
    requires w.live.Some? && w.live.value.Closing? && w.live.value.done <= |w.live.value.earlier|
    ensures var l := w.live.value;
            var es := SupersedeEvents(|l.earlier|, l.done, reply);
            && ValidRun(g, w, es)
            && Exec(g, w, es)
               == w.(journals := SupersedeFrom(w.journals, l.earlier, l.run, l.done, reply), live := None)
    decreases |w.live.value.earlier| - w.live.value.done
  {
    var l := w.live.value;
    if l.done < |l.earlier| {
      var e := Supersede(reply(l.done));
      SupersedeStep(g, w, reply(l.done));
      SupersedingIsTheMachines(g, Step(g, w, e), reply);
      ExecCons(g, w, e, SupersedeEvents(|l.earlier|, l.done + 1, reply));
    } else {
      FinishStep(g, w);
      ExecCons(g, w, Finish, []);
    }
  }
}
