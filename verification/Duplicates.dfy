/** The duplicate estimate: size groups, a capped quick hash, and an upper bound on reclaimable bytes. */
module Duplicates {
  import opened Domain
  import opened Seqs
  import opened Largest
  import opened FileHash

  const QUICK_BLOCK: nat := 64 * 1024

  /** What two files must share to be counted as copies of each other. */
  datatype Key<L> = Key(size: nat, tag: L)

  function Keys<L>(files: seq<File>, tag: Text -> L): (ks: seq<Key<L>>)
    ensures |ks| == |files|
    ensures forall i :: 0 <= i < |files| ==> ks[i] == Key(files[i].size, tag(files[i].path))
  {
    seq(|files|, i requires 0 <= i < |files| => Key(files[i].size, tag(files[i].path)))
  }

  /** Bytes that go away when only the first file of every class is kept. */
  function Redundant<L(==)>(keys: seq<Key<L>>): nat {
    if keys == [] then 0
    else
      var init, k := keys[..|keys| - 1], keys[|keys| - 1];
      Redundant(init) + if k in init then k.size else 0
  }

  /** The same, class by class: `(n - 1) * size`. */
  function ClassBytes<L(==)>(keys: seq<Key<L>>, k: Key<L>): nat {
    var n := multiset(keys)[k];
    if n > 1 then (n - 1) * k.size else 0
  }

  function SumOfClasses<L(==)>(keys: seq<Key<L>>, order: seq<Key<L>>): nat {
    if order == [] then 0
    else SumOfClasses(keys, order[..|order| - 1]) + ClassBytes(keys, order[|order| - 1])
  }

  lemma ClassBytesSnoc<L>(keys: seq<Key<L>>, x: Key<L>, k: Key<L>)
    ensures ClassBytes(keys + [x], k) == ClassBytes(keys, k) + if k == x && x in keys then x.size else 0
  {
    var n := multiset(keys)[k];
    assert multiset(keys + [x])[k] == n + if k == x then 1 else 0;
    if k == x {
      assert x in keys <==> n > 0;
      assert n * k.size == (n - 1) * k.size + k.size;
    }
  }

  lemma {:induction false} SumOfClassesSnoc<L>(keys: seq<Key<L>>, x: Key<L>, order: seq<Key<L>>)
    requires Distinct(order)
    ensures SumOfClasses(keys + [x], order) == SumOfClasses(keys, order) + if x in order && x in keys then x.size else 0
  {
    if order != [] {
      var init, k := order[..|order| - 1], order[|order| - 1];
      SumOfClassesSnoc(keys, x, init);
      ClassBytesSnoc(keys, x, k);
      assert order == init + [k];
    }
  }

  /** In whatever order the groups are summed, the result is the number of redundant bytes. */
  lemma {:induction false} SumIsRedundant<L>(keys: seq<Key<L>>, order: seq<Key<L>>)
    requires Distinct(order)
    requires forall k :: multiset(keys)[k] > 1 ==> k in order
    ensures SumOfClasses(keys, order) == Redundant(keys)
  {
    if keys == [] {
      SumOfNothing(order);
    } else {
      var init, x := keys[..|keys| - 1], keys[|keys| - 1];
      assert keys == init + [x];
      SumOfClassesSnoc(init, x, order);
      SumIsRedundant(init, order);
      if x in init {
        assert multiset(keys)[x] == multiset(init)[x] + 1;
      }
    }
  }

  lemma {:induction false} SumOfNothing<L>(order: seq<Key<L>>)
    ensures SumOfClasses<L>([], order) == 0
  {
    if order != [] {
      SumOfNothing(order[..|order| - 1]);
    }
  }

  // ---------- coarser labels can only overstate ----------

  /** Files that agree on `a` agree on `b`, and both describe the same files. */
  ghost predicate Refines<L, M>(a: seq<Key<L>>, b: seq<Key<M>>) {
    && |a| == |b|
    && (forall i :: 0 <= i < |a| ==> a[i].size == b[i].size)
    && (forall i, j :: 0 <= i < j < |a| && a[i] == a[j] ==> b[i] == b[j])
  }

  lemma {:induction false} CoarserIsMore<L, M>(a: seq<Key<L>>, b: seq<Key<M>>)
    requires Refines(a, b)
    ensures Redundant(a) <= Redundant(b)
  {
    if a != [] {
      var n := |a| - 1;
      CoarserIsMore(a[..n], b[..n]);
      if a[n] in a[..n] {
        var i :| 0 <= i < n && a[i] == a[n];
        assert b[..n][i] == b[n];
      }
    }
  }

  /** The two agree exactly when the coarser labels merge nothing the finer ones keep apart. */
  lemma {:induction false} EqualWhenNothingIsMerged<L, M>(a: seq<Key<L>>, b: seq<Key<M>>)
    requires Refines(a, b)
    requires forall i :: 0 <= i < |a| ==> a[i].size > 0
    ensures Redundant(a) == Redundant(b) <==> Refines(b, a)
  {
    if Refines(b, a) {
      CoarserIsMore(a, b);
      CoarserIsMore(b, a);
    } else {
      var i, j :| 0 <= i < j < |b| && b[i] == b[j] && a[i] != a[j];
      MergedIsStrictlyMore(a, b, i, j);
    }
  }

  lemma {:induction false} MergedIsStrictlyMore<L, M>(a: seq<Key<L>>, b: seq<Key<M>>, i: nat, j: nat)
    requires Refines(a, b)
    requires forall k :: 0 <= k < |a| ==> a[k].size > 0
    requires i < j < |b| && b[i] == b[j] && a[i] != a[j]
    ensures Redundant(a) < Redundant(b)
  {
    var n := |a| - 1;
    LastKey(a, b);
    if j < n {
      MergedIsStrictlyMore(a[..n], b[..n], i, j);
      StaysStrictlyMore(a, b);
    } else if k :| 0 <= k < n && a[k] == a[n] {
      // `k` stands for `j`: same content, and it comes earlier.
      MergedIsStrictlyMore(a[..n], b[..n], if i < k then i else k, if i < k then k else i);
      StaysStrictlyMore(a, b);
    } else {
      NewlyMerged(a, b, i);
    }
  }

  lemma StaysStrictlyMore<L, M>(a: seq<Key<L>>, b: seq<Key<M>>)
    requires Refines(a, b) && a != [] && Redundant(a[..|a| - 1]) < Redundant(b[..|b| - 1])
    ensures Redundant(a) < Redundant(b)
  {
    LastKey(a, b);
  }

  /** The last file is the first of its finer class, and not of its coarser one. */
  lemma NewlyMerged<L, M>(a: seq<Key<L>>, b: seq<Key<M>>, i: nat)
    requires Refines(a, b) && a != [] && a[|a| - 1].size > 0
    requires i < |b| - 1 && b[i] == b[|b| - 1] && a[|a| - 1] !in a[..|a| - 1]
    ensures Redundant(a) < Redundant(b)
  {
    var n := |a| - 1;
    LastKey(a, b);
    CoarserIsMore(a[..n], b[..n]);
    assert b[..n][i] == b[n];
  }

  lemma LastKey<L, M>(a: seq<Key<L>>, b: seq<Key<M>>)
    requires Refines(a, b) && a != []
    ensures var n := |a| - 1; Refines(a[..n], b[..n]) && (a[n] in a[..n] ==> b[n] in b[..n])
  {
    var n := |a| - 1;
    if a[n] in a[..n] {
      var k :| 0 <= k < n && a[k] == a[n];
      assert b[..n][k] == b[n];
    }
  }

  lemma {:induction false} RedundantIsBounded<L>(files: seq<File>, tag: Text -> L)
    ensures Redundant(Keys(files, tag)) <= TotalBytes(files)
  {
    if files != [] {
      var init := files[..|files| - 1];
      RedundantIsBounded(init, tag);
      assert Keys(files, tag)[..|init|] == Keys(init, tag);
    }
  }

  // ---------- the quick hash ----------

  type Content = Text -> Bytes
  type Probe = Text -> Option<Text>

  function Prefix(b: Bytes): Bytes {
    if |b| <= QUICK_BLOCK then b else b[..QUICK_BLOCK]
  }

  /** How many bytes the first read of a file returns; none if it cannot be opened or read. */
  type Reads = Text -> Option<nat>

  /** One read returns at most a block, and at least one byte of a file that has any. */
  ghost predicate ValidReads(content: Content, reading: Reads) {
    forall p :: reading(p).Some? ==>
      reading(p).value <= |Prefix(content(p))| && (content(p) != [] ==> reading(p).value > 0)
  }

  /** One read fills the block, unless the file is shorter. */
  ghost predicate FullReads(content: Content, reading: Reads) {
    forall p :: reading(p).Some? ==> reading(p).value == |Prefix(content(p))|
  }

  /** The quick hash of every file: the digest of whatever its first read returned. */
  function QuickHashes(sha: Bytes -> Text, content: Content, reading: Reads): Probe {
    p => match reading(p)
         case None => None
         case Some(n) => Some(QuickDigest(sha, content(p), n))
  }

  function Tag(probe: Probe): Text -> Text {
    p => if probe(p).Some? then probe(p).value else []
  }

  function Hashed(files: seq<File>, probe: Probe): (h: seq<File>)
    ensures |h| <= |files|
    ensures forall f :: f in h ==> f in files && probe(f.path).Some?
  {
    if files == [] then []
    else
      var f := files[|files| - 1];
      Hashed(files[..|files| - 1], probe) + if probe(f.path).Some? then [f] else []
  }

  function HashKeys(files: seq<File>, probe: Probe): seq<Key<Text>> {
    Keys(Hashed(files, probe), Tag(probe))
  }

  function ContentKeys(files: seq<File>, probe: Probe, content: Content): seq<Key<Bytes>> {
    Keys(Hashed(files, probe), content)
  }

  /** Equal content gives an equal quick hash, so the estimate is an upper bound. */
  lemma EstimateIsAnUpperBound(sha: Bytes -> Text, content: Content, reading: Reads, files: seq<File>)
    requires FullReads(content, reading)
    ensures var probe := QuickHashes(sha, content, reading);
            Redundant(ContentKeys(files, probe, content)) <= Redundant(HashKeys(files, probe)) <= TotalBytes(files)
  {
    var probe := QuickHashes(sha, content, reading);
    CoarserIsMore(ContentKeys(files, probe, content), HashKeys(files, probe));
    RedundantIsBounded(Hashed(files, probe), Tag(probe));
    HashedIsLess(files, probe);
  }

  lemma {:induction false} HashedIsLess(files: seq<File>, probe: Probe)
    ensures TotalBytes(Hashed(files, probe)) <= TotalBytes(files)
  {
    if files != [] {
      var f := files[|files| - 1];
      HashedIsLess(files[..|files| - 1], probe);
      if probe(f.path).Some? {
        TotalBytesSnoc(Hashed(files[..|files| - 1], probe), f);
      } else {
        assert Hashed(files, probe) == Hashed(files[..|files| - 1], probe);
      }
    }
  }

  /** Among these files, size and first block decide the content. */
  ghost predicate BlockDecides(files: seq<File>, content: Content) {
    forall i, j ::
      (&& 0 <= i < j < |files|
       && files[i].size == files[j].size
       && Prefix(content(files[i].path)) == Prefix(content(files[j].path)))
      ==> content(files[i].path) == content(files[j].path)
  }

  /** The estimate is exact precisely when no two hashed files differ only behind the first block. */
  lemma EstimateIsExactWhen(sha: Bytes -> Text, content: Content, reading: Reads, files: seq<File>)
    requires Injective(sha) && FullReads(content, reading)
    requires forall f :: f in files ==> f.size > 0
    ensures var probe := QuickHashes(sha, content, reading);
            Redundant(ContentKeys(files, probe, content)) == Redundant(HashKeys(files, probe))
            <==> BlockDecides(Hashed(files, probe), content)
  {
    var probe := QuickHashes(sha, content, reading);
    var hs := Hashed(files, probe);
    forall i | 0 <= i < |hs|
      ensures probe(hs[i].path).Some? && hs[i].size > 0
    {
      assert hs[i] in hs;
      assert hs[i] in files;
    }
    KeysRefine(sha, content, reading, hs);
    EqualWhenNothingIsMerged(Keys(hs, content), Keys(hs, Tag(probe)));
  }

  /** Content decides the quick hash; the converse is what `BlockDecides` asks for. */
  lemma KeysRefine(sha: Bytes -> Text, content: Content, reading: Reads, hs: seq<File>)
    requires Injective(sha) && FullReads(content, reading)
    requires forall i :: 0 <= i < |hs| ==> reading(hs[i].path).Some?
    ensures var b := Keys(hs, Tag(QuickHashes(sha, content, reading)));
            && Refines(Keys(hs, content), b)
            && (Refines(b, Keys(hs, content)) <==> BlockDecides(hs, content))
  {
    var a, b := Keys(hs, content), Keys(hs, Tag(QuickHashes(sha, content, reading)));
    forall i, j | 0 <= i < j < |hs|
      ensures b[i] == b[j] <==> hs[i].size == hs[j].size && Prefix(content(hs[i].path)) == Prefix(content(hs[j].path))
    {
      SameHashSamePrefix(sha, content, reading, hs[i].path, hs[j].path);
    }
    assert forall i, j :: 0 <= i < j < |hs| ==>
      (a[i] == a[j] <==> hs[i].size == hs[j].size && content(hs[i].path) == content(hs[j].path));
  }

  lemma SameHashSamePrefix(sha: Bytes -> Text, content: Content, reading: Reads, p: Text, q: Text)
    requires Injective(sha) && FullReads(content, reading) && reading(p).Some? && reading(q).Some?
    ensures var tag := Tag(QuickHashes(sha, content, reading));
            tag(p) == tag(q) <==> Prefix(content(p)) == Prefix(content(q))
  {
    assert FirstBytes(content(p), reading(p).value) == Prefix(content(p));
    assert FirstBytes(content(q), reading(q).value) == Prefix(content(q));
  }

  /** Non-empty files among `paths`, whose recorded size is the size of their content. */
  ghost predicate TrueSizes(files: seq<File>, paths: set<Text>, content: Content) {
    forall i :: 0 <= i < |files| ==> files[i].path in paths && files[i].size == |content(files[i].path)| > 0
  }

  /** Whatever files are examined, the estimate is at least what could be reclaimed. */
  ghost predicate NeverUnderstates(paths: set<Text>, content: Content, probe: Probe) {
    forall files :: TrueSizes(files, paths, content) ==>
      Redundant(ContentKeys(files, probe, content)) <= Redundant(HashKeys(files, probe))
  }

  /** Files with equal content get first reads of equal length. */
  ghost predicate EqualFilesReadEqually(paths: set<Text>, content: Content, reading: Reads) {
    forall p, q :: p in paths && q in paths && content(p) == content(q) != [] && reading(p).Some? && reading(q).Some?
      ==> reading(p) == reading(q)
  }

  /**
   * Among the files of a scan the estimate never understates if and only if equal files get first
   * reads of equal length. Short reads alone do no harm; uneven ones do.
   */
  lemma UpperBoundExactlyWhen(sha: Bytes -> Text, paths: set<Text>, content: Content, reading: Reads)
    requires Injective(sha) && ValidReads(content, reading)
    ensures NeverUnderstates(paths, content, QuickHashes(sha, content, reading))
            <==> EqualFilesReadEqually(paths, content, reading)
  {
    var probe := QuickHashes(sha, content, reading);
    if EqualFilesReadEqually(paths, content, reading) {
      forall files | TrueSizes(files, paths, content)
        ensures Redundant(ContentKeys(files, probe, content)) <= Redundant(HashKeys(files, probe))
      {
        EvenReadsSuffice(sha, paths, content, reading, files);
      }
    } else {
      var p, q :| p in paths && q in paths && content(p) == content(q) != []
                  && reading(p).Some? && reading(q).Some? && reading(p) != reading(q);
      UnevenReadsUnderstate(sha, paths, content, reading, p, q);
    }
  }

  lemma UnevenReadsUnderstate(
      sha: Bytes -> Text, paths: set<Text>, content: Content, reading: Reads, p: Text, q: Text)
    requires Injective(sha) && ValidReads(content, reading)
    requires p in paths && q in paths && content(p) == content(q) != []
    requires reading(p).Some? && reading(q).Some? && reading(p) != reading(q)
    ensures !NeverUnderstates(paths, content, QuickHashes(sha, content, reading))
  {
    UnevenReadsDiffer(sha, content, reading, p, q);
    TwinsMissed(content, QuickHashes(sha, content, reading), p, q);
    assert TrueSizes([File(p, |content(p)|), File(q, |content(p)|)], paths, content);
  }

  lemma EvenReadsSuffice(sha: Bytes -> Text, paths: set<Text>, content: Content, reading: Reads, files: seq<File>)
    requires EqualFilesReadEqually(paths, content, reading) && TrueSizes(files, paths, content)
    ensures var probe := QuickHashes(sha, content, reading);
            Redundant(ContentKeys(files, probe, content)) <= Redundant(HashKeys(files, probe))
  {
    var probe := QuickHashes(sha, content, reading);
    var hs := Hashed(files, probe);
    forall i | 0 <= i < |hs|
      ensures content(hs[i].path) != [] && reading(hs[i].path).Some? && hs[i].path in paths
    {
      assert hs[i] in files;
    }
    CoarserIsMore(ContentKeys(files, probe, content), HashKeys(files, probe));
  }

  lemma UnevenReadsDiffer(sha: Bytes -> Text, content: Content, reading: Reads, p: Text, q: Text)
    requires Injective(sha) && ValidReads(content, reading) && content(p) == content(q)
    requires reading(p).Some? && reading(q).Some? && reading(p) != reading(q)
    ensures QuickHashes(sha, content, reading)(p) != QuickHashes(sha, content, reading)(q)
  {
    assert |FirstBytes(content(p), reading(p).value)| == reading(p).value;
    assert |FirstBytes(content(q), reading(q).value)| == reading(q).value;
  }

  lemma RedundantPair<L>(a: Key<L>, b: Key<L>)
    ensures Redundant([a, b]) == if a == b then b.size else 0
  {
    assert [a, b][..1] == [a] && [a][..0] == [];
    assert Redundant([a]) == 0;
  }

  // Two equal files with different quick hashes: one of them could go, none is reported.
  lemma TwinsMissed(content: Content, probe: Probe, p: Text, q: Text)
    requires content(p) == content(q) && probe(p).Some? && probe(q).Some? && probe(p) != probe(q)
    ensures var n := |content(p)|;
            var files := [File(p, n), File(q, n)];
            Redundant(ContentKeys(files, probe, content)) == n && Redundant(HashKeys(files, probe)) == 0
  {
    var n := |content(p)|;
    var f, h := File(p, n), File(q, n);
    BothAreHashed(probe, f, h);
    RedundantPair(Key(n, content(p)), Key(n, content(q)));
    RedundantPair(Key(n, probe(p).value), Key(n, probe(q).value));
    KeysOfTwo(f, h, content);
    KeysOfTwo(f, h, Tag(probe));
  }

  lemma BothAreHashed(probe: Probe, f: File, h: File)
    requires probe(f.path).Some? && probe(h.path).Some?
    ensures Hashed([f, h], probe) == [f, h]
  {
    HashKeysSnoc([], f, probe);
    HashKeysSnoc([f], h, probe);
    assert [] + [f] == [f] && [f] + [h] == [f, h];
  }

  lemma KeysOfTwo<L>(f: File, h: File, tag: Text -> L)
    ensures Keys([f, h], tag) == [Key(f.size, tag(f.path)), Key(h.size, tag(h.path))]
  {}

  const TWIN: Bytes := [7, 7]

  function TwinContent(): Content {
    p => TWIN
  }

  // The first read of the file with the empty name returns one byte, of every other file both.
  function TwinReads(): Reads {
    p => Some(if p == [] then 1 else 2)
  }

  lemma TwinReadsAreValid()
    ensures ValidReads(TwinContent(), TwinReads())
  {
    assert Prefix(TWIN) == TWIN;
  }

  /** A first read that stops early on one of two equal files breaks the bound. */
  lemma ShortReadBreaksTheBound(sha: Bytes -> Text)
    returns (content: Content, reading: Reads, files: seq<File>)
    requires Injective(sha)
    ensures ValidReads(content, reading) && TrueSizes(files, {[], [1]}, content)
    ensures var probe := QuickHashes(sha, content, reading);
            Redundant(ContentKeys(files, probe, content)) > Redundant(HashKeys(files, probe))
  {
    content, reading := TwinContent(), TwinReads();
    files := [File([], 2), File([1], 2)];
    TwinReadsAreValid();
    UnevenReadsDiffer(sha, content, reading, [], [1]);
    TwinsMissed(content, QuickHashes(sha, content, reading), [], [1]);
  }

  // ---------- totals and candidates ----------

  function TotalBytes(files: seq<File>): nat {
    if files == [] then 0 else TotalBytes(files[..|files| - 1]) + files[|files| - 1].size
  }

  lemma TotalBytesSnoc(files: seq<File>, f: File)
    ensures TotalBytes(files + [f]) == TotalBytes(files) + f.size
  {
    assert (files + [f])[..|files|] == files;
  }

  lemma {:induction false} TotalBytesConcat(a: seq<File>, b: seq<File>)
    ensures TotalBytes(a + b) == TotalBytes(a) + TotalBytes(b)
  {
    if b == [] {
      assert a + b == a;
    } else {
      assert (a + b)[..|a + b| - 1] == a + b[..|b| - 1];
      TotalBytesConcat(a, b[..|b| - 1]);
    }
  }

  /** Some of the files have at most the bytes of all of them. */
  lemma {:induction false} TotalBytesOfSome(a: seq<File>, b: seq<File>)
    requires multiset(a) <= multiset(b)
    ensures TotalBytes(a) <= TotalBytes(b)
    decreases |a|
  {
    if a != [] {
      var init, f := a[..|a| - 1], a[|a| - 1];
      assert a == init + [f];
      assert f in multiset(b);
      var rest := Without(b, f);
      assert multiset(init) == multiset(a) - multiset{f};
      assert multiset(rest) == multiset(b) - multiset{f};
      TotalBytesOfSome(init, rest);
    }
  }

  lemma Without(b: seq<File>, f: File) returns (rest: seq<File>)
    requires f in b
    ensures multiset(b) == multiset(rest) + multiset{f}
    ensures TotalBytes(b) == TotalBytes(rest) + f.size
  {
    var i :| 0 <= i < |b| && b[i] == f;
    rest := b[..i] + b[i + 1..];
    assert b == b[..i] + [f] + b[i + 1..];
    TotalBytesConcat(b[..i] + [f], b[i + 1..]);
    TotalBytesSnoc(b[..i], f);
    TotalBytesConcat(b[..i], b[i + 1..]);
  }

  /** Non-zero sizes that more than one file has. */
  function SharedSizes(files: seq<File>): set<nat> {
    set f | f in files && f.size > 0 && |OfSize(files, f.size)| > 1 :: f.size
  }

  function InSizes(files: seq<File>, sizes: set<nat>): seq<File> {
    if files == [] then []
    else
      var f := files[|files| - 1];
      InSizes(files[..|files| - 1], sizes) + if f.size in sizes then [f] else []
  }

  /** The files whose size alone makes them possible duplicates. */
  function Candidates(files: seq<File>): seq<File> {
    InSizes(files, SharedSizes(files))
  }

  /** A file is a candidate exactly when it is not empty and another file of the walk has its size. */
  lemma CandidatesShareTheirSize(files: seq<File>, i: nat)
    requires i < |files|
    ensures files[i] in Candidates(files)
            <==> files[i].size > 0 && exists j :: 0 <= j < |files| && j != i && files[j].size == files[i].size
  {
    InSizesSound(files, SharedSizes(files));
    assert files[i].size in SharedSizes(files) <==> files[i].size > 0 && |OfSize(files, files[i].size)| > 1;
    AnotherOfSize(files, i);
  }

  lemma {:induction false} AnotherOfSize(files: seq<File>, i: nat)
    requires i < |files|
    ensures OfSize(files, files[i].size) != []
    ensures |OfSize(files, files[i].size)| > 1
            <==> exists j :: 0 <= j < |files| && j != i && files[j].size == files[i].size
  {
    var n := |files| - 1;
    var init, size := files[..n], files[i].size;
    if i < n {
      AnotherOfSize(init, i);
      assert forall j :: 0 <= j < n ==> init[j] == files[j];
    } else {
      NoneOrSome(init, size);
      assert forall j :: 0 <= j < n ==> init[j] == files[j];
    }
  }

  lemma {:induction false} NoneOrSome(files: seq<File>, size: nat)
    ensures OfSize(files, size) != [] <==> exists j :: 0 <= j < |files| && files[j].size == size
  {
    if files != [] {
      var init := files[..|files| - 1];
      NoneOrSome(init, size);
      assert forall j :: 0 <= j < |init| ==> init[j] == files[j];
    }
  }

  lemma {:induction false} InSizesSound(files: seq<File>, sizes: set<nat>)
    ensures multiset(InSizes(files, sizes)) <= multiset(files)
    ensures forall f :: f in InSizes(files, sizes) <==> f in files && f.size in sizes
  {
    if files != [] {
      var init := files[..|files| - 1];
      InSizesSound(init, sizes);
      assert files == init + [files[|files| - 1]];
    }
  }

  lemma {:induction false} InOneMoreSize(files: seq<File>, sizes: set<nat>, size: nat)
    requires size !in sizes
    ensures multiset(InSizes(files, sizes + {size})) == multiset(InSizes(files, sizes)) + multiset(OfSize(files, size))
  {
    if files != [] {
      var init, f := files[..|files| - 1], files[|files| - 1];
      InOneMoreSize(init, sizes, size);
      if f.size == size {
        assert InSizes(files, sizes) == InSizes(init, sizes);
        assert InSizes(files, sizes + {size}) == InSizes(init, sizes + {size}) + [f];
      } else if f.size in sizes {
        assert InSizes(files, sizes) == InSizes(init, sizes) + [f];
        assert InSizes(files, sizes + {size}) == InSizes(init, sizes + {size}) + [f];
      } else {
        assert InSizes(files, sizes + {size}) == InSizes(init, sizes + {size});
      }
    }
  }

  lemma {:induction false} InNoSize(files: seq<File>)
    ensures InSizes(files, {}) == []
  {
    if files != [] {
      InNoSize(files[..|files| - 1]);
    }
  }

  /** One size group as the scan holds it: the size and the paths in walk order. */
  datatype Group = Group(size: nat, paths: seq<Text>)

  function FilesOf(g: Group): (fs: seq<File>)
    ensures |fs| == |g.paths|
    ensures forall i :: 0 <= i < |fs| ==> fs[i] == File(g.paths[i], g.size)
  {
    seq(|g.paths|, i requires 0 <= i < |g.paths| => File(g.paths[i], g.size))
  }

  function AllFiles(groups: seq<Group>): seq<File> {
    if groups == [] then []
    else AllFiles(groups[..|groups| - 1]) + FilesOf(groups[|groups| - 1])
  }

  lemma AllFilesSnoc(groups: seq<Group>, g: Group)
    ensures AllFiles(groups + [g]) == AllFiles(groups) + FilesOf(g)
  {
    assert (groups + [g])[..|groups|] == groups;
  }

  lemma {:induction false} AllFilesPrefix(groups: seq<Group>, n: nat)
    requires n <= |groups|
    ensures AllFiles(groups[..n]) <= AllFiles(groups)
  {
    if n < |groups| {
      var init := groups[..|groups| - 1];
      AllFilesPrefix(init, n);
      assert init[..n] == groups[..n];
    } else {
      assert groups[..n] == groups;
    }
  }

  /** The map built while walking: every non-zero size, with the paths of that size in order. */
  ghost predicate GroupedBySize(files: seq<File>, bySize: map<nat, seq<Text>>) {
    forall k :: GroupedAt(files, bySize, k)
  }

  ghost predicate GroupedAt(files: seq<File>, bySize: map<nat, seq<Text>>, k: nat) {
    && (k in bySize <==> k > 0 && OfSize(files, k) != [])
    && (k in bySize ==> FilesOf(Group(k, bySize[k])) == OfSize(files, k))
  }

  // ---------- the scan ----------

  /** The arbitrary order in which a hash map hands out its keys. */
  method HashOrder<K(==)>(keys: set<K>) returns (order: seq<K>)
    ensures Distinct(order)
    ensures forall k :: k in order <==> k in keys
  {
    order := [];
    var left := keys;
    while left != {}
      invariant Distinct(order)
      invariant forall k :: k in keys <==> k in left || k in order
      invariant forall k :: k in order ==> k !in left
      decreases left
    {
      var k :| k in left;
      left := left - {k};
      order := order + [k];
    }
  }

  datatype DuplicateEstimate = DuplicateEstimate(
    sizeCandidateGroups: nat,
    confirmedGroups: nat,
    filesHashed: nat,
    hashCap: nat,
    notExamined: nat,
    hashErrors: nat,
    reclaimable: nat)

  /** `seen` holds the first `i` keys of an iteration. */
  ghost predicate Seen<K(!new)>(seen: set<K>, order: seq<K>, i: nat) {
    i <= |order| && forall k :: k in seen <==> k in order[..i]
  }

  lemma SeenNext<K(!new)>(seen: set<K>, order: seq<K>, i: nat)
    requires Seen(seen, order, i) && i < |order| && Distinct(order)
    ensures order[i] !in seen && Seen(seen + {order[i]}, order, i + 1)
  {
    assert order[..i + 1] == order[..i] + [order[i]];
  }

  lemma SeenAll<K(!new)>(seen: set<K>, order: seq<K>)
    requires Seen(seen, order, |order|)
    ensures forall k :: k in seen <==> k in order
  {
    assert order[..|order|] == order;
  }

  /** `entry(k).or_default().push(path)`. */
  function PushTo<K>(groups: map<K, seq<Text>>, k: K, path: Text): map<K, seq<Text>> {
    groups[k := (if k in groups then groups[k] else []) + [path]]
  }

  /** The sizes with more than one path, out of those looked at. */
  ghost function Shared(bySize: map<nat, seq<Text>>, sizes: set<nat>): set<nat> {
    set k | k in sizes && k in bySize && |bySize[k]| > 1
  }

  lemma SharedIsShared(files: seq<File>, bySize: map<nat, seq<Text>>)
    requires GroupedBySize(files, bySize)
    ensures Shared(bySize, bySize.Keys) == SharedSizes(files)
  {
    forall k
      ensures k in Shared(bySize, bySize.Keys) <==> k in SharedSizes(files)
    {
      OfSizeSound(files, k);
      assert GroupedAt(files, bySize, k);
      if k in bySize {
        assert |FilesOf(Group(k, bySize[k]))| == |OfSize(files, k)|;
        assert OfSize(files, k)[0] in OfSize(files, k);
      }
      if f :| f in files && f.size == k {
        assert f in OfSize(files, k);
      }
    }
  }

  /** The groups found so far hold exactly the files of the shared sizes seen so far. */
  ghost predicate GroupsOf(files: seq<File>, bySize: map<nat, seq<Text>>, seen: set<nat>, groups: seq<Group>) {
    && |groups| == |Shared(bySize, seen)|
    && multiset(AllFiles(groups)) == multiset(InSizes(files, Shared(bySize, seen)))
  }

  lemma GroupsStep(files: seq<File>, bySize: map<nat, seq<Text>>, seen: set<nat>, groups: seq<Group>, k: nat)
    requires GroupedBySize(files, bySize) && k in bySize && k !in seen
    requires GroupsOf(files, bySize, seen, groups)
    ensures GroupsOf(files, bySize, seen + {k}, if |bySize[k]| > 1 then groups + [Group(k, bySize[k])] else groups)
  {
    var sizes := Shared(bySize, seen);
    assert GroupedAt(files, bySize, k);
    if |bySize[k]| > 1 {
      assert Shared(bySize, seen + {k}) == sizes + {k};
      InOneMoreSize(files, sizes, k);
      AllFilesSnoc(groups, Group(k, bySize[k]));
    } else {
      assert Shared(bySize, seen + {k}) == sizes;
    }
  }

  /** Groups of more than one path, in the arbitrary order of the hash map. */
  method SizeCandidates(ghost files: seq<File>, bySize: map<nat, seq<Text>>) returns (groups: seq<Group>)
    requires GroupedBySize(files, bySize)
    ensures multiset(AllFiles(groups)) == multiset(Candidates(files))
    ensures |groups| == |SharedSizes(files)|
  {
    groups := [];
    var order := HashOrder(bySize.Keys);
    InNoSize(files);
    ghost var seen: set<nat> := {};
    for i := 0 to |order|
      invariant Seen(seen, order, i)
      invariant GroupsOf(files, bySize, seen, groups)
    {
      var k := order[i];
      SeenNext(seen, order, i);
      GroupsStep(files, bySize, seen, groups, k);
      if |bySize[k]| > 1 {
        groups := groups + [Group(k, bySize[k])];
      }
      seen := seen + {k};
    }
    SeenAll(seen, order);
    assert seen == bySize.Keys;
    SharedIsShared(files, bySize);
  }

  /** The groups of quick hashes, as many paths in each as files with that key. */
  ghost predicate GroupedByHash(keys: seq<Key<Text>>, groups: map<Key<Text>, seq<Text>>) {
    && (forall k :: k in groups <==> k in keys)
    && (forall k :: k in groups ==> |groups[k]| == multiset(keys)[k])
  }

  lemma GroupedByHashSnoc(keys: seq<Key<Text>>, groups: map<Key<Text>, seq<Text>>, k: Key<Text>, p: Text)
    requires GroupedByHash(keys, groups)
    ensures GroupedByHash(keys + [k], PushTo(groups, k, p))
  {
    assert forall x :: multiset(keys + [k])[x] == multiset(keys)[x] + if x == k then 1 else 0;
  }

  lemma HashKeysSnoc(walked: seq<File>, f: File, probe: Probe)
    ensures Hashed(walked + [f], probe) == Hashed(walked, probe) + if probe(f.path).Some? then [f] else []
    ensures HashKeys(walked + [f], probe)
         == HashKeys(walked, probe) + if probe(f.path).Some? then [Key(f.size, probe(f.path).value)] else []
  {
    assert (walked + [f])[..|walked|] == walked;
  }

  /** What the counters and the groups say about the files looked at so far. */
  ghost predicate Tallied(
      walked: seq<File>, probe: Probe, cap: nat, hashed: nat, errors: nat, byHash: map<Key<Text>, seq<Text>>)
  {
    && hashed == |Hashed(walked, probe)| <= cap
    && hashed + errors == |walked|
    && GroupedByHash(HashKeys(walked, probe), byHash)
  }

  lemma TallyHash(
      walked: seq<File>, probe: Probe, cap: nat, hashed: nat, errors: nat, byHash: map<Key<Text>, seq<Text>>,
      f: File, k: Key<Text>)
    requires Tallied(walked, probe, cap, hashed, errors, byHash)
    requires probe(f.path) == Some(k.tag) && f.size == k.size && hashed < cap
    ensures Tallied(walked + [f], probe, cap, hashed + 1, errors, PushTo(byHash, k, f.path))
  {
    HashKeysSnoc(walked, f, probe);
    GroupedByHashSnoc(HashKeys(walked, probe), byHash, k, f.path);
  }

  lemma TallyError(
      walked: seq<File>, probe: Probe, cap: nat, hashed: nat, errors: nat, byHash: map<Key<Text>, seq<Text>>, f: File)
    requires Tallied(walked, probe, cap, hashed, errors, byHash) && probe(f.path).None?
    ensures Tallied(walked + [f], probe, cap, hashed, errors + 1, byHash)
  {
    HashKeysSnoc(walked, f, probe);
    assert HashKeys(walked + [f], probe) == HashKeys(walked, probe);
  }

  /** Quick-hash the candidates, group by group, until the cap is reached. */
  method QuickHash(groups: seq<Group>, cap: nat, probe: Probe)
    returns (hashed: nat, errors: nat, byHash: map<Key<Text>, seq<Text>>, ghost walked: seq<File>)
    ensures hashed <= cap && hashed + errors <= |AllFiles(groups)|
    ensures hashed + errors < |AllFiles(groups)| ==> hashed == cap
    ensures walked <= AllFiles(groups)
    ensures Tallied(walked, probe, cap, hashed, errors, byHash)
  {
    hashed, errors, byHash, walked := 0, 0, map[], [];
    var i := 0;
    assert groups[..0] == [];
    while i < |groups|
      invariant i <= |groups|
      invariant walked == AllFiles(groups[..i])
      invariant Tallied(walked, probe, cap, hashed, errors, byHash)
    {
      var g := groups[i];
      assert groups[..i + 1] == groups[..i] + [g];
      AllFilesSnoc(groups[..i], g);
      AllFilesPrefix(groups, i + 1);
      hashed, errors, byHash, walked := QuickHashGroup(g, cap, probe, hashed, errors, byHash, walked);
      if hashed >= cap {
        return;
      }
      i := i + 1;
    }
    assert groups[..|groups|] == groups;
  }

  /** The first `j` files of group `g` have been looked at. */
  ghost predicate Reached(before: seq<File>, g: Group, j: nat, walked: seq<File>) {
    j <= |g.paths| && walked == before + FilesOf(g)[..j]
  }

  lemma ReachNext(before: seq<File>, g: Group, j: nat, walked: seq<File>)
    requires Reached(before, g, j, walked) && j < |g.paths|
    ensures Reached(before, g, j + 1, walked + [File(g.paths[j], g.size)])
  {
    assert FilesOf(g)[..j + 1] == FilesOf(g)[..j] + [File(g.paths[j], g.size)];
  }

  lemma ReachedIsPrefix(before: seq<File>, g: Group, j: nat, walked: seq<File>)
    requires Reached(before, g, j, walked)
    ensures before <= walked <= before + FilesOf(g)
    ensures j == |g.paths| ==> walked == before + FilesOf(g)
  {}

  /** The inner loop: one group, given up as soon as the cap is reached. */
  method QuickHashGroup(
      g: Group, cap: nat, probe: Probe,
      hashed0: nat, errors0: nat, byHash0: map<Key<Text>, seq<Text>>, ghost walked0: seq<File>)
    returns (hashed: nat, errors: nat, byHash: map<Key<Text>, seq<Text>>, ghost walked: seq<File>)
    requires Tallied(walked0, probe, cap, hashed0, errors0, byHash0)
    ensures walked0 <= walked <= walked0 + FilesOf(g)
    ensures Tallied(walked, probe, cap, hashed, errors, byHash)
    ensures walked != walked0 + FilesOf(g) ==> hashed == cap
  {
    hashed, errors, byHash, walked := hashed0, errors0, byHash0, walked0;
    var j := 0;
    while j < |g.paths|
      invariant Reached(walked0, g, j, walked)
      invariant Tallied(walked, probe, cap, hashed, errors, byHash)
    {
      if hashed >= cap {
        break;
      }
      var path := g.paths[j];
      ghost var f := File(path, g.size);
      match probe(path) {
        case Some(hash) =>
          TallyHash(walked, probe, cap, hashed, errors, byHash, f, Key(g.size, hash));
          byHash := PushTo(byHash, Key(g.size, hash), path);
          hashed := hashed + 1;
        case None =>
          TallyError(walked, probe, cap, hashed, errors, byHash, f);
          errors := errors + 1;
      }
      ReachNext(walked0, g, j, walked);
      walked := walked + [f];
      j := j + 1;
    }
    ReachedIsPrefix(walked0, g, j, walked);
  }

  /** Keys shared by more than one file, out of those looked at. */
  ghost function Confirmed(keys: seq<Key<Text>>, among: set<Key<Text>>): set<Key<Text>> {
    set k | k in among && multiset(keys)[k] > 1
  }

  lemma ConfirmedMore(keys: seq<Key<Text>>, among: set<Key<Text>>, k: Key<Text>)
    ensures Confirmed(keys, among + {k}) == Confirmed(keys, among) + if multiset(keys)[k] > 1 then {k} else {}
  {}

  /** What one group adds to the number of groups and to the sum. */
  lemma GroupAdds(
      keys: seq<Key<Text>>, byHash: map<Key<Text>, seq<Text>>, seen: set<Key<Text>>, order: seq<Key<Text>>,
      k: Key<Text>)
    requires GroupedByHash(keys, byHash) && k in byHash && k !in seen
    ensures var n := |byHash[k]|;
            && SumOfClasses(keys, order + [k]) == SumOfClasses(keys, order) + (if n > 1 then (n - 1) * k.size else 0)
            && |Confirmed(keys, seen + {k})| == |Confirmed(keys, seen)| + if n > 1 then 1 else 0
  {
    assert (order + [k])[..|order|] == order;
    ConfirmedMore(keys, seen, k);
  }

  /** Sum `(n - 1) * size` over the groups of more than one path, in any order. */
  method Reclaimable(ghost keys: seq<Key<Text>>, byHash: map<Key<Text>, seq<Text>>)
    returns (groups: nat, bytes: nat)
    requires GroupedByHash(keys, byHash)
    ensures groups == |Confirmed(keys, set k | k in keys)|
    ensures bytes == Redundant(keys)
  {
    groups, bytes := 0, 0;
    var order := HashOrder(byHash.Keys);
    ghost var seen: set<Key<Text>> := {};
    for i := 0 to |order|
      invariant Seen(seen, order, i)
      invariant groups == |Confirmed(keys, seen)|
      invariant bytes == SumOfClasses(keys, order[..i])
    {
      var k := order[i];
      assert order[..i + 1] == order[..i] + [k];
      SeenNext(seen, order, i);
      GroupAdds(keys, byHash, seen, order[..i], k);
      seen := seen + {k};
      var n := |byHash[k]|;
      if n > 1 {
        groups := groups + 1;
        bytes := bytes + (n - 1) * k.size;
      }
    }
    SeenAll(seen, order);
    assert order[..|order|] == order;
    assert seen == set k | k in keys;
    SumIsRedundant(keys, order);
  }

  /** What the counters of the duplicate section promise about the files of the walk. */
  ghost predicate SoundCounts(files: seq<File>, cap: nat, e: DuplicateEstimate) {
    && e.filesHashed + e.hashErrors + e.notExamined == |Candidates(files)|
    && e.filesHashed <= e.hashCap == cap
    && (e.notExamined > 0 ==> e.filesHashed == cap)
    && e.sizeCandidateGroups == |SharedSizes(files)|
    && e.reclaimable <= TotalBytes(files)
  }

  /** `walked` are the candidates that were looked at; the rest of the section is about them. */
  ghost predicate SoundEstimate(files: seq<File>, probe: Probe, e: DuplicateEstimate, walked: seq<File>) {
    && multiset(walked) <= multiset(Candidates(files))
    && e.filesHashed == |Hashed(walked, probe)| && e.filesHashed + e.hashErrors == |walked|
    && e.confirmedGroups == |Confirmed(HashKeys(walked, probe), set k | k in HashKeys(walked, probe))|
    && e.reclaimable == Redundant(HashKeys(walked, probe))
  }

  /** `walked` is in the order the hash map gave. */
  method EstimateDuplicates(ghost files: seq<File>, bySize: map<nat, seq<Text>>, cap: nat, probe: Probe)
    returns (e: DuplicateEstimate, ghost walked: seq<File>)
    requires GroupedBySize(files, bySize)
    ensures SoundCounts(files, cap, e)
    ensures SoundEstimate(files, probe, e, walked)
  {
    var groups := SizeCandidates(files, bySize);
    var hashed, errors, byHash, w := QuickHash(groups, cap, probe);
    walked := w;
    var confirmed, bytes := Reclaimable(HashKeys(walked, probe), byHash);
    var candidates := CountPaths(groups);
    e := DuplicateEstimate(|groups|, confirmed, hashed, cap,
                           if candidates >= hashed + errors then candidates - (hashed + errors) else 0,
                           errors, bytes);
    WalkedFacts(files, AllFiles(groups), walked, probe);
  }

  lemma SameSize(a: seq<File>, b: seq<File>)
    requires multiset(a) == multiset(b)
    ensures |a| == |b|
  {
    assert |multiset(a)| == |a| && |multiset(b)| == |b|;
  }

  lemma WalkedFacts(files: seq<File>, all: seq<File>, walked: seq<File>, probe: Probe)
    requires multiset(all) == multiset(Candidates(files)) && walked <= all
    ensures |walked| <= |all| == |Candidates(files)|
    ensures multiset(walked) <= multiset(Candidates(files))
    ensures Redundant(HashKeys(walked, probe)) <= TotalBytes(files)
  {
    SameSize(all, Candidates(files));
    assert all == walked + all[|walked|..];
    InSizesSound(files, SharedSizes(files));
    TotalBytesOfSome(walked, files);
    RedundantIsBounded(Hashed(walked, probe), Tag(probe));
    HashedIsLess(walked, probe);
  }

  method CountPaths(groups: seq<Group>) returns (n: nat)
    ensures n == |AllFiles(groups)|
  {
    n := 0;
    assert groups[..0] == [];
    for i := 0 to |groups|
      invariant n == |AllFiles(groups[..i])|
    {
      assert groups[..i + 1] == groups[..i] + [groups[i]];
      AllFilesSnoc(groups[..i], groups[i]);
      n := n + |groups[i].paths|;
    }
    assert groups[..|groups|] == groups;
  }
}
