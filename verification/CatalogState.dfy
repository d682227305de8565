/** Current catalog state per path: the reduction of an append-only observation log. */
module CatalogState {
  import opened Domain

  /** Last known content of one path. */
  datatype KnownPath = KnownPath(hash: Text, at: Time)

  type CurrentState = map<Text, KnownPath>

  datatype PathDecision = Observe | Unchanged

  function Decide(state: CurrentState, path: Text, hash: Text): PathDecision {
    if path in state && state[path].hash == hash then PathDecision.Unchanged else Observe
  }

  function Insert(state: CurrentState, row: Row): CurrentState {
    if row.path in state && state[row.path].at >= row.at then state
    else state[row.path := KnownPath(row.hash, row.at)]
  }

  /** The reduction, as a left fold. */
  function Latest(rows: seq<Row>): CurrentState {
    if rows == [] then map[] else Insert(Latest(rows[..|rows| - 1]), rows[|rows| - 1])
  }

  method ReduceLatest(rows: seq<Row>) returns (state: CurrentState)
    ensures state == Latest(rows)
    ensures forall p :: p in state <==> exists i :: FirstMaximum(rows, p, i)
    ensures forall p, i :: p in state && FirstMaximum(rows, p, i) ==> state[p] == KnownPath(rows[i].hash, rows[i].at)
  {
    state := map[];
    for k := 0 to |rows|
      invariant state == Latest(rows[..k])
    {
      var row := rows[k];
      assert rows[..k + 1][..k] == rows[..k];
      if row.path in state && state[row.path].at >= row.at {
      } else {
        state := state[row.path := KnownPath(row.hash, row.at)];
      }
    }
    assert rows[..|rows|] == rows;
    LatestIsFirstMaximum(rows);
  }

  /** Row `i` is the first among the rows of `path` with the greatest timestamp. */
  ghost predicate FirstMaximum(rows: seq<Row>, path: Text, i: int) {
    && 0 <= i < |rows|
    && rows[i].path == path
    && (forall j :: 0 <= j < i && rows[j].path == path ==> rows[j].at < rows[i].at)
    && (forall j :: i <= j < |rows| && rows[j].path == path ==> rows[j].at <= rows[i].at)
  }

  lemma FirstMaximumIsUnique(rows: seq<Row>, path: Text, i: int, j: int)
    requires FirstMaximum(rows, path, i) && FirstMaximum(rows, path, j)
    ensures i == j
  {}

  /** Per path the reduction keeps the first row among those with the greatest timestamp. */
  lemma {:induction false} LatestIsFirstMaximum(rows: seq<Row>)
    ensures forall p :: p in Latest(rows) <==> exists i :: FirstMaximum(rows, p, i)
    ensures forall p, i :: p in Latest(rows) && FirstMaximum(rows, p, i) ==>
              Latest(rows)[p] == KnownPath(rows[i].hash, rows[i].at)
  {
    forall p {
      LatestAt(rows, p);
    }
    forall p, i | p in Latest(rows) && FirstMaximum(rows, p, i)
      ensures Latest(rows)[p] == KnownPath(rows[i].hash, rows[i].at)
    {
      LatestAt(rows, p);
      var j :| FirstMaximum(rows, p, j) && Latest(rows)[p] == KnownPath(rows[j].hash, rows[j].at);
      FirstMaximumIsUnique(rows, p, i, j);
    }
  }

  /** The same for one path: a known path has a first maximum, an unknown one has no row. */
  lemma {:induction false} LatestAt(rows: seq<Row>, p: Text)
    ensures p in Latest(rows) ==>
              exists i :: FirstMaximum(rows, p, i) && Latest(rows)[p] == KnownPath(rows[i].hash, rows[i].at)
    ensures p !in Latest(rows) ==> forall i :: 0 <= i < |rows| ==> rows[i].path != p
  {
    if rows != [] {
      var n := |rows| - 1;
      var init, row := rows[..n], rows[n];
      LatestAt(init, p);
      if p in Latest(init) {
        var i :| FirstMaximum(init, p, i) && Latest(init)[p] == KnownPath(init[i].hash, init[i].at);
        if row.path == p && init[i].at < row.at {
          assert FirstMaximum(rows, p, n);
        } else {
          assert FirstMaximum(rows, p, i);
        }
      } else if row.path == p {
        assert FirstMaximum(rows, p, n);
      }
    }
  }

  /** Merge two reductions; the left one wins ties. */
  function Merge(x: CurrentState, y: CurrentState): CurrentState {
    map p | p in x.Keys + y.Keys :: if p in x && (p !in y || x[p].at >= y[p].at) then x[p] else y[p]
  }

  /** Reducing a concatenation is merging the two reductions. */
  lemma {:induction false} LatestConcat(a: seq<Row>, b: seq<Row>)
    ensures Latest(a + b) == Merge(Latest(a), Latest(b))
  {
    if b == [] {
      assert a + b == a;
    } else {
      var n := |b| - 1;
      LatestConcat(a, b[..n]);
      assert a + b == (a + b[..n]) + [b[n]];
      LatestSnoc(a + b[..n], b[n]);
      InsertIntoMerge(Latest(a), Latest(b[..n]), b[n]);
    }
  }

  lemma LatestSnoc(rows: seq<Row>, row: Row)
    ensures Latest(rows + [row]) == Insert(Latest(rows), row)
  {
    assert (rows + [row])[..|rows|] == rows;
  }

  lemma InsertIntoMerge(x: CurrentState, y: CurrentState, row: Row)
    ensures Insert(Merge(x, y), row) == Merge(x, Insert(y, row))
  {}

  /** Appending rows that are later than every row of the same path overrides the state. */
  lemma LaterRowsOverride(a: seq<Row>, b: seq<Row>)
    requires forall i, j :: 0 <= i < |a| && 0 <= j < |b| && a[i].path == b[j].path ==> a[i].at < b[j].at
    ensures Latest(a + b) == Latest(a) + Latest(b)
  {
    LatestConcat(a, b);
    forall p | p in Latest(a) && p in Latest(b)
      ensures Latest(a)[p].at < Latest(b)[p].at
    {
      LatestAt(a, p);
      LatestAt(b, p);
    }
  }

  /**
   * The newest row of a path is the known one exactly when every earlier row of that path has an
   * older timestamp, or already records the same content at the same time. A clock that moved
   * backwards between two runs therefore hides the newer observation.
   */
  lemma AppendedRowWins(rows: seq<Row>, r: Row)
    ensures Latest(rows + [r])[r.path] == KnownPath(r.hash, r.at)
            <==> (forall i :: 0 <= i < |rows| && rows[i].path == r.path ==> rows[i].at < r.at)
                 || (exists i :: FirstMaximum(rows, r.path, i) && rows[i].hash == r.hash && rows[i].at == r.at)
  {
    assert (rows + [r])[..|rows|] == rows;
    LatestAt(rows, r.path);
    if r.path in Latest(rows) {
      var i :| FirstMaximum(rows, r.path, i) && Latest(rows)[r.path] == KnownPath(rows[i].hash, rows[i].at);
      forall j | FirstMaximum(rows, r.path, j)
        ensures i == j
      {
        FirstMaximumIsUnique(rows, r.path, i, j);
      }
    }
  }

  ghost predicate DistinctTimes(rows: seq<Row>) {
    forall i, j :: 0 <= i < j < |rows| && rows[i].path == rows[j].path ==> rows[i].at != rows[j].at
  }

  lemma SameRowWins(a: seq<Row>, b: seq<Row>, p: Text)
    requires multiset(a) == multiset(b) && DistinctTimes(a) && p in Latest(a)
    ensures p in Latest(b) && Latest(b)[p] == Latest(a)[p]
  {
    LatestAt(a, p);
    LatestAt(b, p);
    var i :| FirstMaximum(a, p, i) && Latest(a)[p] == KnownPath(a[i].hash, a[i].at);
    var k := IndexIn(a[i], b, a);
    var j :| FirstMaximum(b, p, j) && Latest(b)[p] == KnownPath(b[j].hash, b[j].at);
    var l := IndexIn(b[j], a, b);
    assert b[k].at <= b[j].at && a[l].at <= a[i].at;
    assert l == i;
  }

  lemma IndexIn(r: Row, b: seq<Row>, a: seq<Row>) returns (k: nat)
    requires r in a && multiset(a) == multiset(b)
    ensures k < |b| && b[k] == r
  {
    assert r in multiset(b);
    k :| 0 <= k < |b| && b[k] == r;
  }

  lemma SameKeys(a: seq<Row>, b: seq<Row>, p: Text)
    requires multiset(a) == multiset(b) && p in Latest(a)
    ensures p in Latest(b)
  {
    LatestAt(a, p);
    LatestAt(b, p);
    var i :| FirstMaximum(a, p, i) && Latest(a)[p] == KnownPath(a[i].hash, a[i].at);
    var k := IndexIn(a[i], b, a);
  }

  /** With distinct timestamps per path the read order does not matter. */
  lemma OrderDoesNotMatter(a: seq<Row>, b: seq<Row>)
    requires multiset(a) == multiset(b) && DistinctTimes(a)
    ensures Latest(a) == Latest(b)
  {
    forall p
      ensures p in Latest(a) <==> p in Latest(b)
      ensures p in Latest(a) ==> Latest(a)[p] == Latest(b)[p]
    {
      if p in Latest(a) {
        SameRowWins(a, b, p);
      }
      if p in Latest(b) {
        SameKeys(b, a, p);
      }
    }
  }
}
