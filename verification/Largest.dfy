/** The list of largest files: pruned while walking, sorted and cut at the end. */
module Largest {
  import opened Domain

  datatype File = File(path: Text, size: nat)

  predicate Descending(s: seq<File>) {
    forall i, j :: 0 <= i < j < |s| ==> s[i].size >= s[j].size
  }

  /** Insert behind every entry that is at least as large, so ties keep their order. */
  function Insert(s: seq<File>, x: File): seq<File> {
    if s == [] || s[0].size < x.size then [x] + s else [s[0]] + Insert(s[1..], x)
  }

  /** The stable sort by decreasing size: `sort_by_key` with a reversed key. */
  function StableSort(s: seq<File>): seq<File> {
    if s == [] then [] else Insert(StableSort(s[..|s| - 1]), s[|s| - 1])
  }

  function Take<T>(s: seq<T>, n: nat): seq<T> {
    if |s| <= n then s else s[..n]
  }

  /** The files of one size, in order. */
  function OfSize(s: seq<File>, size: nat): seq<File> {
    if s == [] then []
    else
      var f := s[|s| - 1];
      OfSize(s[..|s| - 1], size) + if f.size == size then [f] else []
  }

  // ---------- StableSort is the stable descending sort, and the only one ----------

  lemma {:induction false} OfSizeConcat(a: seq<File>, b: seq<File>, size: nat)
    ensures OfSize(a + b, size) == OfSize(a, size) + OfSize(b, size)
  {
    if b == [] {
      assert a + b == a;
    } else {
      var init := b[..|b| - 1];
      assert (a + b)[..|a + b| - 1] == a + init;
      OfSizeConcat(a, init, size);
    }
  }

  lemma OfSizeCons(f: File, s: seq<File>, size: nat)
    ensures OfSize([f] + s, size) == (if f.size == size then [f] else []) + OfSize(s, size)
  {
    OfSizeConcat([f], s, size);
    assert [f][..0] == [];
  }

  lemma {:induction false} OfSizeSound(s: seq<File>, size: nat)
    ensures forall f :: f in OfSize(s, size) <==> f in s && f.size == size
  {
    if s != [] {
      var init := s[..|s| - 1];
      OfSizeSound(init, size);
      assert s == init + [s[|s| - 1]];
    }
  }

  lemma {:induction false} InsertAdds(s: seq<File>, x: File)
    ensures multiset(Insert(s, x)) == multiset(s) + multiset{x}
  {
    if s != [] && s[0].size >= x.size {
      InsertAdds(s[1..], x);
      assert s == [s[0]] + s[1..];
    }
  }

  lemma {:induction false} InsertBounded(s: seq<File>, x: File, hi: nat)
    requires x.size <= hi && forall i :: 0 <= i < |s| ==> s[i].size <= hi
    ensures forall i :: 0 <= i < |Insert(s, x)| ==> Insert(s, x)[i].size <= hi
  {
    if s != [] && s[0].size >= x.size {
      InsertBounded(s[1..], x, hi);
    }
  }

  lemma {:induction false} InsertKeepsOrder(s: seq<File>, x: File)
    requires Descending(s)
    ensures Descending(Insert(s, x))
  {
    if s != [] && s[0].size >= x.size {
      InsertKeepsOrder(s[1..], x);
      InsertBounded(s[1..], x, s[0].size);
    }
  }

  // Among the files of one size, the inserted one comes last.
  function IfSize(x: File, size: nat): seq<File> {
    if x.size == size then [x] else []
  }

  lemma {:induction false} InsertIsStable(s: seq<File>, x: File, size: nat)
    requires Descending(s)
    ensures OfSize(Insert(s, x), size) == OfSize(s, size) + IfSize(x, size)
  {
    if s == [] || s[0].size < x.size {
      InsertInFront(s, x, size);
    } else {
      InsertIsStable(s[1..], x, size);
      InsertBehind(s[0], s[1..], Insert(s[1..], x), x, size);
      assert s == [s[0]] + s[1..];
    }
  }

  lemma InsertInFront(s: seq<File>, x: File, size: nat)
    requires Descending(s) && (s == [] || s[0].size < x.size)
    ensures OfSize([x] + s, size) == OfSize(s, size) + IfSize(x, size)
  {
    OfSizeCons(x, s, size);
    if x.size == size {
      NoneOfSize(s, size);
    }
  }

  lemma InsertBehind(head: File, before: seq<File>, after: seq<File>, x: File, size: nat)
    requires OfSize(after, size) == OfSize(before, size) + IfSize(x, size)
    ensures OfSize([head] + after, size) == OfSize([head] + before, size) + IfSize(x, size)
  {
    OfSizeCons(head, before, size);
    OfSizeCons(head, after, size);
    Assoc(IfSize(head, size), OfSize(before, size), IfSize(x, size));
  }

  lemma Assoc<T>(a: seq<T>, b: seq<T>, c: seq<T>)
    ensures a + (b + c) == (a + b) + c
  {}

  lemma {:induction false} NoneOfSize(s: seq<File>, size: nat)
    requires forall f :: f in s ==> f.size < size
    ensures OfSize(s, size) == []
  {
    if s != [] {
      NoneOfSize(s[..|s| - 1], size);
    }
  }

  /** The files of every size are the same, in the same order. */
  ghost predicate SameBySize(a: seq<File>, b: seq<File>) {
    forall size :: OfSize(a, size) == OfSize(b, size)
  }

  /** Sorted, a permutation, and stable: files of equal size stay in walk order. */
  lemma {:induction false} StableSortIsStable(s: seq<File>)
    ensures Descending(StableSort(s))
    ensures multiset(StableSort(s)) == multiset(s)
    ensures SameBySize(StableSort(s), s)
  {
    if s != [] {
      var init, x := s[..|s| - 1], s[|s| - 1];
      StableSortIsStable(init);
      assert s == init + [x];
      InsertKeepsSorted(StableSort(init), init, x);
    }
  }

  lemma InsertKeepsSorted(sorted: seq<File>, s: seq<File>, x: File)
    requires Descending(sorted) && multiset(sorted) == multiset(s) && SameBySize(sorted, s)
    ensures Descending(Insert(sorted, x)) && multiset(Insert(sorted, x)) == multiset(s + [x])
    ensures SameBySize(Insert(sorted, x), s + [x])
  {
    InsertKeepsOrder(sorted, x);
    InsertAdds(sorted, x);
    InsertKeepsSizes(sorted, s, x);
  }

  lemma InsertKeepsSizes(sorted: seq<File>, s: seq<File>, x: File)
    requires Descending(sorted) && SameBySize(sorted, s)
    ensures SameBySize(Insert(sorted, x), s + [x])
  {
    assert (s + [x])[..|s|] == s;
    forall size
      ensures OfSize(Insert(sorted, x), size) == OfSize(s + [x], size)
    {
      InsertIsStable(sorted, x, size);
      assert OfSize(sorted, size) == OfSize(s, size);
    }
  }

  lemma FirstIsLargest(a: seq<File>, b: seq<File>)
    requires Descending(a) && SameBySize(a, b) && b != []
    ensures a != [] && a[0].size >= b[0].size
  {
    var size := b[0].size;
    OfSizeSound(b, size);
    assert b[0] in OfSize(b, size);
    OfSizeSound(a, size);
    assert OfSize(a, size) == OfSize(b, size);
    assert b[0] in a;
  }

  lemma SameHead(a: seq<File>, b: seq<File>)
    requires SameBySize(a, b)
    requires a != [] && b != [] && a[0].size == b[0].size
    ensures a[0] == b[0] && SameBySize(a[1..], b[1..])
  {
    var x, y, s, t := a[0], b[0], a[1..], b[1..];
    assert a == [x] + s && b == [y] + t;
    assert OfSize(a, x.size) == OfSize(b, x.size);
    OfSizeCons(x, s, x.size);
    OfSizeCons(y, t, x.size);
    assert x == OfSize(a, x.size)[0] && y == OfSize(b, x.size)[0];
    forall size
      ensures OfSize(s, size) == OfSize(t, size)
    {
      assert OfSize(a, size) == OfSize(b, size);
      OfSizeCons(x, s, size);
      OfSizeCons(y, t, size);
      assert OfSize(s, size) == OfSize(a, size)[if x.size == size then 1 else 0..];
      assert OfSize(t, size) == OfSize(b, size)[if x.size == size then 1 else 0..];
    }
  }

  /** Two descending lists that agree size by size are the same list. */
  lemma {:induction false} DescendingIsUnique(a: seq<File>, b: seq<File>)
    requires Descending(a) && Descending(b) && SameBySize(a, b)
    ensures a == b
  {
    if b != [] {
      FirstIsLargest(a, b);
      FirstIsLargest(b, a);
      SameHead(a, b);
      DescendingIsUnique(a[1..], b[1..]);
      assert a == [a[0]] + a[1..] && b == [b[0]] + b[1..];
    } else if a != [] {
      FirstIsLargest(b, a);
    }
  }

  /** Whatever a stable descending sort returns, it is `StableSort`. */
  lemma StableSortIsTheOnlyOne(s: seq<File>, t: seq<File>)
    ensures t == StableSort(s) <==> Descending(t) && SameBySize(t, s)
  {
    StableSortIsStable(s);
    if Descending(t) && SameBySize(t, s) {
      forall size
        ensures OfSize(t, size) == OfSize(StableSort(s), size)
      {
        assert OfSize(t, size) == OfSize(s, size);
        assert OfSize(StableSort(s), size) == OfSize(s, size);
      }
      DescendingIsUnique(t, StableSort(s));
    }
  }

  lemma SortOfSorted(s: seq<File>)
    requires Descending(s)
    ensures StableSort(s) == s
  {
    StableSortIsTheOnlyOne(s, s);
  }

  // ---------- pruning ----------

  /** What was cut off cannot come back: only the first `n` matter for the first `n`. */
  lemma {:induction false} TakeInsert(s: seq<File>, x: File, n: nat)
    ensures Take(Insert(s, x), n) == Take(Insert(Take(s, n), x), n)
    decreases n
  {
    if |s| > n && n > 0 {
      var h, t := s[0], s[1..];
      assert s == [h] + t;
      TakeCons(h, t, n);
      if h.size >= x.size {
        TakeInsert(t, x, n - 1);
        assert Take(s, n)[1..] == Take(t, n - 1);
        TakeCons(h, Insert(t, x), n);
        TakeCons(h, Insert(Take(t, n - 1), x), n);
      } else {
        TakeCons(x, s, n);
        TakeCons(x, Take(s, n), n);
        assert Take(Take(s, n), n - 1) == Take(s, n - 1);
      }
    }
  }

  lemma TakeCons<T>(x: T, s: seq<T>, n: nat)
    requires n > 0
    ensures Take([x] + s, n) == [x] + Take(s, n - 1)
  {}

  /** Two lists agree on the largest `n` files. */
  predicate SameTop(a: seq<File>, b: seq<File>, n: nat) {
    Take(StableSort(a), n) == Take(StableSort(b), n)
  }

  lemma SameTopPush(a: seq<File>, b: seq<File>, x: File, n: nat)
    requires SameTop(a, b, n)
    ensures SameTop(a + [x], b + [x], n)
  {
    assert (a + [x])[..|a|] == a && (b + [x])[..|b|] == b;
    TakeInsert(StableSort(a), x, n);
    TakeInsert(StableSort(b), x, n);
  }

  lemma SameTopPrune(a: seq<File>, n: nat)
    ensures SameTop(Take(StableSort(a), n), a, n)
  {
    StableSortIsStable(a);
    SortOfSorted(Take(StableSort(a), n));
  }

  lemma SameTopFewer(a: seq<File>, b: seq<File>, m: nat, n: nat)
    requires m <= n && SameTop(a, b, n)
    ensures SameTop(a, b, m)
  {
    assert Take(Take(StableSort(a), n), m) == Take(StableSort(a), m);
    assert Take(Take(StableSort(b), n), m) == Take(StableSort(b), m);
  }

  // Sorting and cutting a list that was just sorted and cut changes nothing.
  lemma TopIsSettled(a: seq<File>, n: nat)
    ensures Take(StableSort(Take(StableSort(a), n)), n) == Take(StableSort(a), n)
  {
    SameTopPrune(a, n);
  }

  /** No file that was cut off is larger than one that was kept. */
  lemma TopHoldsTheLargest(s: seq<File>, n: nat)
    ensures multiset(Take(StableSort(s), n)) <= multiset(s)
    ensures forall f, g :: f in Take(StableSort(s), n) && g in multiset(s) - multiset(Take(StableSort(s), n))
              ==> f.size >= g.size
  {
    StableSortIsStable(s);
    var t := StableSort(s);
    if |t| > n {
      var top, rest := t[..n], t[n..];
      assert t == top + rest;
      forall f, g | f in top && g in multiset(s) - multiset(top)
        ensures f.size >= g.size
      {
        assert g in rest;
      }
    }
  }
  /**
   * The top `n` of a list: in descending order, as many as there are up to `n`, and completed by
   * the files left out to a descending list with the same files of every size in the same order.
   */
  ghost predicate IsTop(s: seq<File>, top: seq<File>, n: nat) {
    && |top| == (if |s| <= n then |s| else n)
    && exists rest :: Completes(s, top, rest)
  }

  ghost predicate Completes(s: seq<File>, top: seq<File>, rest: seq<File>) {
    Descending(top + rest) && SameBySize(top + rest, s)
  }

  /** There is exactly one top, and it is what sorting and cutting gives. */
  lemma TopIsTheOnlyOne(s: seq<File>, top: seq<File>, n: nat)
    ensures IsTop(s, top, n) <==> top == Take(StableSort(s), n)
  {
    StableSortIsStable(s);
    var t := StableSort(s);
    assert |t| == |s| by {
      assert |multiset(t)| == |t| && |multiset(s)| == |s|;
    }
    if IsTop(s, top, n) {
      var rest :| Completes(s, top, rest);
      StableSortIsTheOnlyOne(s, top + rest);
    }
    if top == Take(t, n) {
      var rest := t[|top|..];
      assert top + rest == t;
      assert Completes(s, top, rest);
    }
  }
}
