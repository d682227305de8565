/** The durable run journal: one object per run, rewritten with its full history on every transition. */
module Journal {
  import opened Domain

  datatype RunState =
    | Started
    | Committing(batch: nat)
    | BatchCommitted(batch: nat, rows: nat)
    | Completed
    | Incomplete(failed: nat)
    | CommitFailed(batch: nat)
    | Reconciled(rowsInCatalog: nat)
    | SupersededBy(run: RunId)

  predicate IsClosure(s: RunState) {
    s.Reconciled? || s.SupersededBy?
  }

  predicate IsTerminal(s: RunState) {
    s.Completed? || s.Incomplete? || s.CommitFailed?
  }

  datatype RunOutcome = WasCompleted | WasIncomplete | HadFailedCommit | WasInterrupted | WasReconciled

  datatype RunJournal = RunJournal(source: Text, candidates: nat, history: seq<RunState>)

  function NewJournal(source: Text, candidates: nat): RunJournal {
    RunJournal(source, candidates, [Started])
  }

  function Push(j: RunJournal, s: RunState): RunJournal {
    j.(history := j.history + [s])
  }

  /** Last entry written by the run itself. */
  function LastOwn(h: seq<RunState>): RunState {
    if h == [] then Started
    else if !IsClosure(h[|h| - 1]) then h[|h| - 1]
    else LastOwn(h[..|h| - 1])
  }

  predicate IsClosed(h: seq<RunState>) {
    exists i :: 0 <= i < |h| && IsClosure(h[i])
  }

  function Outcome(h: seq<RunState>): RunOutcome {
    match LastOwn(h)
    case Completed => WasCompleted
    case Incomplete(_) => WasIncomplete
    case CommitFailed(_) => if IsClosed(h) then WasReconciled else HadFailedCommit
    case _ => if IsClosed(h) then WasReconciled else WasInterrupted
  }

  /** Outcome unknown, and no later run has closed the journal yet. */
  predicate IsOpen(h: seq<RunState>) {
    Outcome(h).WasInterrupted? || Outcome(h).HadFailedCommit?
  }

  /** Rows the run itself recorded as committed. */
  function RowsCommitted(h: seq<RunState>): nat {
    if h == [] then 0
    else
      var s := h[|h| - 1];
      RowsCommitted(h[..|h| - 1]) + if s.BatchCommitted? then s.rows else 0
  }

  function BatchesCommitted(h: seq<RunState>): nat {
    if h == [] then 0
    else BatchesCommitted(h[..|h| - 1]) + if h[|h| - 1].BatchCommitted? then 1 else 0
  }

  /** The entries the run wrote itself. */
  ghost function Own(h: seq<RunState>): seq<RunState> {
    if h == [] then []
    else Own(h[..|h| - 1]) + if IsClosure(h[|h| - 1]) then [] else [h[|h| - 1]]
  }

  // ---------- closure ----------

  lemma HistorySnoc(h: seq<RunState>, s: RunState)
    ensures (h + [s])[..|h|] == h
    ensures RowsCommitted(h + [s]) == RowsCommitted(h) + if s.BatchCommitted? then s.rows else 0
    ensures BatchesCommitted(h + [s]) == BatchesCommitted(h) + if s.BatchCommitted? then 1 else 0
    ensures LastOwn(h + [s]) == if IsClosure(s) then LastOwn(h) else s
    ensures Own(h + [s]) == Own(h) + if IsClosure(s) then [] else [s]
  {
    assert (h + [s])[..|h|] == h;
  }

  /** A closure entry closes the journal and hides nothing the run recorded. */
  lemma ClosureOnlyCloses(h: seq<RunState>, c: RunState)
    requires IsClosure(c)
    ensures !IsOpen(h + [c])
    ensures LastOwn(h + [c]) == LastOwn(h) && Own(h + [c]) == Own(h)
    ensures RowsCommitted(h + [c]) == RowsCommitted(h)
    ensures BatchesCommitted(h + [c]) == BatchesCommitted(h)
  {
    HistorySnoc(h, c);
    assert IsClosure((h + [c])[|h|]);
  }

  /** Exactly the journals with a closure entry can never be open again, whatever is pushed. */
  lemma ClosedForGood(h: seq<RunState>)
    ensures IsClosed(h) <==> forall more :: !IsOpen(h + more)
  {
    if IsClosed(h) {
      forall more
        ensures !IsOpen(h + more)
      {
        var i :| 0 <= i < |h| && IsClosure(h[i]);
        assert IsClosure((h + more)[i]);
      }
    } else {
      var again := h + [Started];
      HistorySnoc(h, Started);
      assert !IsClosed(again);
      assert IsOpen(again);
    }
  }

  lemma {:induction false} OwnIsTransparent(h: seq<RunState>)
    ensures RowsCommitted(Own(h)) == RowsCommitted(h)
    ensures BatchesCommitted(Own(h)) == BatchesCommitted(h)
    ensures LastOwn(Own(h)) == LastOwn(h)
  {
    if h != [] {
      var init, s := h[..|h| - 1], h[|h| - 1];
      OwnIsTransparent(init);
      if !IsClosure(s) {
        HistorySnoc(Own(init), s);
      } else {
        assert Own(h) == Own(init);
      }
    }
  }

  lemma {:induction false} OwnOfOpen(h: seq<RunState>)
    requires !IsClosed(h)
    ensures Own(h) == h
  {
    if h != [] {
      var init := h[..|h| - 1];
      assert forall i :: 0 <= i < |init| ==> init[i] == h[i];
      assert !IsClosure(h[|h| - 1]);
      OwnOfOpen(init);
    }
  }

  // ---------- the grammar of what a run writes ----------

  function Sum(ns: seq<nat>): nat {
    if ns == [] then 0 else Sum(ns[..|ns| - 1]) + ns[|ns| - 1]
  }

  /** Start, then one committing / committed pair per acknowledged batch. */
  function Acknowledged(sizes: seq<nat>): seq<RunState> {
    if sizes == [] then [Started]
    else Acknowledged(sizes[..|sizes| - 1]) + [Committing(|sizes|), BatchCommitted(|sizes|, sizes[|sizes| - 1])]
  }

  /** A whole history: acknowledged batches, at most one open commit, at most one terminal entry. */
  function Script(sizes: seq<nat>, committing: bool, terminal: Option<RunState>): seq<RunState> {
    Acknowledged(sizes)
    + (if committing then [Committing(|sizes| + 1)] else [])
    + (match terminal case Some(t) => [t] case None => [])
  }

  lemma AcknowledgedSnoc(sizes: seq<nat>, n: nat)
    ensures Acknowledged(sizes + [n]) == Acknowledged(sizes) + [Committing(|sizes| + 1), BatchCommitted(|sizes| + 1, n)]
    ensures Sum(sizes + [n]) == Sum(sizes) + n
  {
    assert (sizes + [n])[..|sizes|] == sizes;
  }

  // A history, what it adds up to, and that it holds no closure entry.
  ghost predicate Totals(h: seq<RunState>, rows: nat, batches: nat) {
    RowsCommitted(h) == rows && BatchesCommitted(h) == batches && !IsClosed(h)
  }

  lemma TotalsSnoc(h: seq<RunState>, rows: nat, batches: nat, s: RunState)
    requires Totals(h, rows, batches) && !IsClosure(s)
    ensures Totals(h + [s],
                   rows + if s.BatchCommitted? then s.rows else 0,
                   batches + if s.BatchCommitted? then 1 else 0)
  {
    HistorySnoc(h, s);
  }

  lemma {:induction false} AcknowledgedTotals(sizes: seq<nat>)
    ensures Totals(Acknowledged(sizes), Sum(sizes), |sizes|)
  {
    if sizes == [] {
      TotalsSnoc([], 0, 0, Started);
      assert [] + [Started] == [Started];
    } else {
      var init, n := sizes[..|sizes| - 1], sizes[|sizes| - 1];
      AcknowledgedTotals(init);
      var h := Acknowledged(init);
      TotalsSnoc(h, Sum(init), |init|, Committing(|sizes|));
      TotalsSnoc(h + [Committing(|sizes|)], Sum(init), |init|, BatchCommitted(|sizes|, n));
      assert Acknowledged(sizes) == h + [Committing(|sizes|)] + [BatchCommitted(|sizes|, n)];
    }
  }

  lemma CommittingTotals(sizes: seq<nat>, committing: bool)
    ensures Totals(Script(sizes, committing, None), Sum(sizes), |sizes|)
  {
    AcknowledgedTotals(sizes);
    var a := Acknowledged(sizes);
    if committing {
      TotalsSnoc(a, Sum(sizes), |sizes|, Committing(|sizes| + 1));
      assert Script(sizes, true, None) == a + [Committing(|sizes| + 1)];
    } else {
      assert Script(sizes, false, None) == a;
    }
  }

  lemma TerminalTotals(h: seq<RunState>, rows: nat, batches: nat, t: RunState)
    requires Totals(h, rows, batches) && IsTerminal(t)
    ensures Totals(h + [t], rows, batches)
  {
    TotalsSnoc(h, rows, batches, t);
  }

  lemma ScriptSnoc(sizes: seq<nat>, committing: bool, t: RunState)
    ensures Script(sizes, committing, Some(t)) == Script(sizes, committing, None) + [t]
  {}

  lemma ScriptTotals(sizes: seq<nat>, committing: bool, terminal: Option<RunState>)
    requires terminal.Some? ==> IsTerminal(terminal.value)
    ensures Totals(Script(sizes, committing, terminal), Sum(sizes), |sizes|)
  {
    CommittingTotals(sizes, committing);
    if terminal.Some? {
      ScriptSnoc(sizes, committing, terminal.value);
      TerminalTotals(Script(sizes, committing, None), Sum(sizes), |sizes|, terminal.value);
    }
  }

  // ---------- what a history says about its run ----------

  lemma {:induction false} ClosuresHideNothing(h: seq<RunState>, more: seq<RunState>)
    requires forall i :: 0 <= i < |more| ==> IsClosure(more[i])
    ensures LastOwn(h + more) == LastOwn(h)
    ensures IsClosed(h + more) <==> IsClosed(h) || more != []
  {
    if more == [] {
      assert h + more == h;
    } else {
      var n := |more| - 1;
      ClosuresHideNothing(h, more[..n]);
      assert h + more == (h + more[..n]) + [more[n]];
      HistorySnoc(h + more[..n], more[n]);
      assert IsClosure((h + more)[|h| + n]);
    }
  }

  /** Entry by entry: the start, then for every batch `k` its number twice, the second time with its rows. */
  lemma {:induction false} AcknowledgedAt(sizes: seq<nat>, k: nat)
    requires 1 <= k <= |sizes|
    ensures |Acknowledged(sizes)| == 2 * |sizes| + 1 && Acknowledged(sizes)[0] == Started
    ensures Acknowledged(sizes)[2 * k - 1] == Committing(k)
    ensures Acknowledged(sizes)[2 * k] == BatchCommitted(k, sizes[k - 1])
  {
    var init := sizes[..|sizes| - 1];
    AcknowledgedNonEmpty(init);
    if k < |sizes| {
      AcknowledgedAt(init, k);
    }
  }

  /** A history is the start, a pair of entries per acknowledged batch, the open commit, the terminal entry. */
  lemma ScriptReadsBack(sizes: seq<nat>, committing: bool, t: Option<RunState>)
    ensures var h, n := Script(sizes, committing, t), 2 * |sizes| + 1;
            && |h| == n + (if committing then 1 else 0) + (if t.Some? then 1 else 0)
            && h[0] == Started
            && (forall k :: 1 <= k <= |sizes| ==>
                  h[2 * k - 1] == Committing(k) && h[2 * k] == BatchCommitted(k, sizes[k - 1]))
            && (committing ==> h[n] == Committing(|sizes| + 1))
            && (t.Some? ==> h[|h| - 1] == t.value)
  {
    AcknowledgedNonEmpty(sizes);
    forall k | 1 <= k <= |sizes|
      ensures Acknowledged(sizes)[2 * k - 1] == Committing(k)
      ensures Acknowledged(sizes)[2 * k] == BatchCommitted(k, sizes[k - 1])
    {
      AcknowledgedAt(sizes, k);
    }
  }

  /** The last entry of a history without a terminal one. */
  lemma LastUnfinished(sizes: seq<nat>, committing: bool)
    ensures var s := LastOwn(Script(sizes, committing, None)); s.Started? || s.Committing? || s.BatchCommitted?
  {
    AcknowledgedNonEmpty(sizes);
    var a := Acknowledged(sizes);
    assert Script(sizes, committing, None) == if committing then a + [Committing(|sizes| + 1)] else a;
  }

  /**
   * The outcome of every history a run can leave, with whatever closure entries later runs added:
   * a run is open exactly when none did and it neither completed nor ended with failed files, so
   * with an unacknowledged commit too.
   */
  lemma OutcomeOfScript(sizes: seq<nat>, committing: bool, t: Option<RunState>, more: seq<RunState>)
    requires t.Some? ==> IsTerminal(t.value)
    requires forall i :: 0 <= i < |more| ==> IsClosure(more[i])
    ensures var h := Script(sizes, committing, t) + more;
            && (IsOpen(h) <==> more == [] && (t.None? || t.value.CommitFailed?))
            && (Outcome(h).WasCompleted? <==> t == Some(Completed))
            && (Outcome(h).WasIncomplete? <==> t.Some? && t.value.Incomplete?)
            && (Outcome(h).HadFailedCommit? <==> more == [] && t.Some? && t.value.CommitFailed?)
            && (Outcome(h).WasInterrupted? <==> more == [] && t.None?)
  {
    var h := Script(sizes, committing, t);
    ScriptTotals(sizes, committing, t);
    ClosuresHideNothing(h, more);
    LastUnfinished(sizes, committing);
    if t.Some? {
      ScriptSnoc(sizes, committing, t.value);
      HistorySnoc(Script(sizes, committing, None), t.value);
    }
  }

  /** Nothing in the history settles how many rows the run left behind. */
  ghost predicate Unsettled(h: seq<RunState>) {
    forall i :: 0 <= i < |h| ==>
      !h[i].Completed? && !h[i].Incomplete? && !h[i].Reconciled? && !h[i].SupersededBy?
  }

  lemma {:induction false} AcknowledgedIsUnsettled(sizes: seq<nat>)
    ensures Unsettled(Acknowledged(sizes))
  {
    if sizes != [] {
      AcknowledgedIsUnsettled(sizes[..|sizes| - 1]);
    }
  }

  /** Entry by entry: a history no other run has added to is open exactly when nothing in it settles it. */
  lemma OpenMeansUnsettled(sizes: seq<nat>, committing: bool, t: Option<RunState>)
    requires t.Some? ==> IsTerminal(t.value)
    ensures IsOpen(Script(sizes, committing, t)) <==> Unsettled(Script(sizes, committing, t))
  {
    var h := Script(sizes, committing, t);
    OutcomeOfScript(sizes, committing, t, []);
    assert h + [] == h;
    AcknowledgedIsUnsettled(sizes);
    assert t.Some? ==> h[|h| - 1] == t.value;
  }

  lemma AcknowledgedNonEmpty(sizes: seq<nat>)
    ensures |Acknowledged(sizes)| == 2 * |sizes| + 1
    ensures Acknowledged(sizes)[0] == Started
  {}

  lemma ScriptStarts(sizes: seq<nat>, committing: bool, terminal: Option<RunState>)
    ensures [Started] <= Script(sizes, committing, terminal)
  {
    AcknowledgedNonEmpty(sizes);
  }

  /** Cutting a history short leaves a history of the same form, with fewer acknowledged batches. */
  lemma {:induction false} PrefixOfScript(
      sizes: seq<nat>, committing: bool, terminal: Option<RunState>, h: seq<RunState>)
    returns (m: nat, c: bool, t: Option<RunState>)
    requires h != [] && h <= Script(sizes, committing, terminal)
    ensures m <= |sizes| && h == Script(sizes[..m], c, t)
    ensures t.Some? ==> h == Script(sizes, committing, terminal) && t == terminal && c == committing && m == |sizes|
    ensures m == |sizes| && c ==> committing
    decreases |sizes|
  {
    AcknowledgedNonEmpty(sizes);
    var full := Script(sizes, committing, terminal);
    assert sizes[..|sizes|] == sizes;
    if |h| == |full| {
      m, c, t := |sizes|, committing, terminal;
    } else if |h| > |Acknowledged(sizes)| {
      m, c, t := |sizes|, true, None;
      assert h == Script(sizes, true, None);
    } else if |h| == |Acknowledged(sizes)| {
      m, c, t := |sizes|, false, None;
    } else {
      var init := sizes[..|sizes| - 1];
      AcknowledgedNonEmpty(init);
      if |h| == |Acknowledged(init)| + 1 {
        m, c, t := |init|, true, None;
        assert h == Script(init, true, None);
        assert sizes[..m] == init;
      } else {
        assert h <= Script(init, false, None);
        m, c, t := PrefixOfScript(init, false, None, h);
        assert init[..m] == sizes[..m];
        if t.Some? {
          assert false;
        }
      }
    }
  }

  // ---------- storage ----------

  datatype SaveReply = Saved | SavedButError | NotSaved

  type Journals = map<RunId, RunJournal>

  function SaveEffect(journals: Journals, run: RunId, j: RunJournal, reply: SaveReply): Journals {
    if reply.NotSaved? then journals else journals[run := j]
  }

  class JournalBucket {
    var objects: Journals

    constructor ()
      ensures objects == map[]
    {
      objects := map[];
    }

    method Save(run: RunId, j: RunJournal, reply: SaveReply) returns (ok: bool)
      modifies this
      ensures objects == SaveEffect(old(objects), run, j, reply)
      ensures ok <==> reply.Saved?
    {
      if !reply.NotSaved? {
        objects := objects[run := j];
      }
      ok := reply.Saved?;
    }
  }

  /** Owns one run's journal and persists every transition. */
  class JournalWriter {
    const bucket: JournalBucket
    const run: RunId
    var journal: RunJournal

    // What is stored can only lag behind what the run knows.
    ghost predicate Valid()
      reads this, bucket
    {
      && run in bucket.objects
      && bucket.objects[run].source == journal.source
      && bucket.objects[run].candidates == journal.candidates
      && [Started] <= bucket.objects[run].history <= journal.history
    }

    constructor (bucket: JournalBucket, run: RunId, journal: RunJournal)
      requires run in bucket.objects && bucket.objects[run] == journal && [Started] <= journal.history
      ensures Valid() && this.bucket == bucket && this.run == run && this.journal == journal
    {
      this.bucket, this.run, this.journal := bucket, run, journal;
    }

    // Append and persist; a failed write is not fatal.
    method Record(state: RunState, reply: SaveReply)
      requires Valid()
      modifies this, bucket
      ensures Valid()
      ensures journal == Push(old(journal), state)
      ensures bucket.objects == SaveEffect(old(bucket.objects), run, journal, reply)
    {
      journal := Push(journal, state);
      var _ := bucket.Save(run, journal, reply);
    }
  }

  /** Write the first entry. A run that cannot record its start must not start. */
  method Start(bucket: JournalBucket, run: RunId, source: Text, candidates: nat, reply: SaveReply)
    returns (w: JournalWriter?)
    modifies bucket
    ensures bucket.objects == SaveEffect(old(bucket.objects), run, NewJournal(source, candidates), reply)
    ensures w != null <==> reply.Saved?
    ensures w != null ==> fresh(w) && w.Valid() && w.bucket == bucket && w.run == run
                          && w.journal == NewJournal(source, candidates)
  {
    var journal := NewJournal(source, candidates);
    var ok := bucket.Save(run, journal, reply);
    if !ok {
      return null;
    }
    w := new JournalWriter(bucket, run, journal);
  }
}
