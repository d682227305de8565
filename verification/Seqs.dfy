/** Sequence functions used by several modules, all recursive on the last element. */
module Seqs {

  function Flatten<T>(ss: seq<seq<T>>): seq<T> {
    if ss == [] then [] else Flatten(ss[..|ss| - 1]) + ss[|ss| - 1]
  }

  lemma FlattenSnoc<T>(ss: seq<seq<T>>, s: seq<T>)
    ensures Flatten(ss + [s]) == Flatten(ss) + s
  {
    assert (ss + [s])[..|ss|] == ss;
  }

  /** Consecutive chunks of `n` elements; the last one may be shorter, none is empty. */
  function Chunks<T>(s: seq<T>, n: nat): seq<seq<T>>
    requires n > 0
  {
    if s == [] then []
    else if |s| <= n then [s]
    else [s[..n]] + Chunks(s[n..], n)
  }

  /** Whole batches of exactly `n` flatten to a multiple of `n`. */
  lemma {:induction false} FlattenFull<T>(ss: seq<seq<T>>, n: nat)
    requires forall i :: 0 <= i < |ss| ==> |ss[i]| == n
    ensures |Flatten(ss)| == |ss| * n
  {
    if ss != [] {
      FlattenFull(ss[..|ss| - 1], n);
    }
  }

  lemma {:induction false} FlattenCons<T>(s: seq<T>, ss: seq<seq<T>>)
    ensures Flatten([s] + ss) == s + Flatten(ss)
  {
    if ss == [] {
      assert [s] + ss == [s];
      assert [s][..0] == [];
    } else {
      var init := ss[..|ss| - 1];
      FlattenCons(s, init);
      assert ([s] + ss)[..|ss|] == [s] + init;
      assert ([s] + ss)[|ss|] == ss[|ss| - 1];
    }
  }

  /** Full batches in front of `t` are the first chunks of the concatenation. */
  lemma {:induction false} ChunksAfterFull<T>(ss: seq<seq<T>>, t: seq<T>, n: nat)
    requires n > 0
    requires forall i :: 0 <= i < |ss| ==> |ss[i]| == n
    ensures Chunks(Flatten(ss) + t, n) == ss + Chunks(t, n)
  {
    if ss == [] {
      assert Flatten(ss) + t == t;
    } else {
      var s, rest := ss[0], ss[1..];
      assert ss == [s] + rest;
      FlattenCons(s, rest);
      ChunksAfterFull(rest, t, n);
      var all := Flatten(ss) + t;
      assert all[..n] == s && all[n..] == Flatten(rest) + t;
      if |all| == n {
        assert Flatten(rest) + t == [];
        assert all == s;
      }
    }
  }

  /**
   * Chunking is the only way to cut a sequence into consecutive full batches with at most one
   * shorter, non-empty batch at the end.
   */
  lemma FullBatchesAreChunks<T>(ss: seq<seq<T>>, n: nat)
    requires n > 0
    requires forall i :: 0 <= i < |ss| ==> 0 < |ss[i]| <= n
    requires forall i :: 0 <= i < |ss| - 1 ==> |ss[i]| == n
    ensures ss == Chunks(Flatten(ss), n)
  {
    if ss != [] {
      ChunksAfterFull(ss[..|ss| - 1], ss[|ss| - 1], n);
    }
  }

  /** The number of chunks is the quotient rounded up. */
  lemma {:induction false} ChunkCount<T>(s: seq<T>, n: nat)
    requires n > 0
    ensures |s| <= |Chunks(s, n)| * n < |s| + n
  {
    if |s| > n {
      ChunkCount(s[n..], n);
      var c := |Chunks(s[n..], n)|;
      assert (1 + c) * n == n + c * n;
    }
  }

  predicate Distinct<T(==)>(s: seq<T>) {
    forall i, j :: 0 <= i < j < |s| ==> s[i] != s[j]
  }
}
