/** The profile scan: one pass over the tree, then the duplicate estimate. */
module Scanner {
  import opened Domain
  import opened Largest
  import opened Duplicates

  const MAX_LARGEST: nat := 50
  const LARGEST_SHOWN: nat := 15
  const U64_MAX: nat := 0xFFFF_FFFF_FFFF_FFFF

  /** What the directory walk yields. */
  datatype Entry =
    | WalkError(path: Text)
    | Symlink
    | Directory
    | Unreadable(path: Text)  // a file whose metadata cannot be read
    | Regular(file: File)
    | Special                 // neither link, directory nor file

  /** The files of the walk, in walk order. */
  function Files(entries: seq<Entry>): seq<File> {
    if entries == [] then []
    else
      var e := entries[|entries| - 1];
      Files(entries[..|entries| - 1]) + if e.Regular? then [e.file] else []
  }

  function Errors(entries: seq<Entry>): seq<Text> {
    if entries == [] then []
    else
      var e := entries[|entries| - 1];
      Errors(entries[..|entries| - 1]) + if e.WalkError? || e.Unreadable? then [e.path] else []
  }

  function Number(entries: seq<Entry>, e: Entry): nat {
    multiset(entries)[e]
  }

  function Empty(files: seq<File>): nat {
    |OfSize(files, 0)|
  }

  /** Aggregated statistics of one group of files. */
  class GroupStats {
    var count: nat
    var totalBytes: nat
    var minBytes: nat
    var maxBytes: nat
    var largestPath: Text
    ghost var added: seq<File>

    ghost predicate Counted()
      reads this
    {
      && count == |added| && totalBytes == TotalBytes(added)
      && (added != [] ==> Extremes(added, minBytes, maxBytes, largestPath))
    }

    ghost predicate Valid()
      reads this
    {
      && count == |added| && totalBytes == TotalBytes(added)
      && Running(added, minBytes, maxBytes, largestPath)
    }

    constructor ()
      ensures Valid() && added == []
    {
      count, totalBytes, minBytes, maxBytes, largestPath := 0, 0, U64_MAX, 0, [];
      added := [];
    }

    /** The largest path is the first one of the largest size; empty files never become it. */
    method Add(size: nat, path: Text)
      requires Valid() && size <= U64_MAX
      modifies this
      ensures Valid()
      ensures added == old(added) + [File(path, size)]
    {
      ghost var f := File(path, size);
      TotalBytesSnoc(added, f);
      RunningSnoc(added, f, minBytes, maxBytes, largestPath);
      count := count + 1;
      totalBytes := totalBytes + size;
      if size < minBytes {
        minBytes := size;
      }
      if size > maxBytes {
        maxBytes := size;
        largestPath := path;
      }
      added := added + [f];
    }

    /** Without any file the minimum is reported as zero. */
    method Finalize()
      requires Valid()
      modifies this
      ensures added == old(added) && Counted()
      ensures added == [] ==> minBytes == maxBytes == totalBytes == 0
      ensures added != [] ==> minBytes == old(minBytes) <= maxBytes == old(maxBytes) && largestPath == old(largestPath)
    {
      if added != [] {
        assert added[0] in added;
      }
      if count == 0 {
        minBytes := 0;
      }
    }
  }

  /** `lo` and `hi` are the smallest and largest size, `path` the first file of the largest, non-zero size. */
  ghost predicate Extremes(files: seq<File>, lo: nat, hi: nat, path: Text) {
    && (forall f :: f in files ==> lo <= f.size <= hi)
    && (exists f :: f in files && f.size == lo)
    && (if hi == 0 then path == [] else FirstOfSize(files, File(path, hi)))
  }

  /** The same while files are being added; before the first one the minimum is the largest number. */
  ghost predicate Running(files: seq<File>, lo: nat, hi: nat, path: Text) {
    if files == [] then lo == U64_MAX && hi == 0 && path == [] else Extremes(files, lo, hi, path)
  }

  lemma RunningSnoc(files: seq<File>, f: File, lo: nat, hi: nat, path: Text)
    requires Running(files, lo, hi, path) && f.size <= U64_MAX
    ensures Running(files + [f],
                    if f.size < lo then f.size else lo,
                    if f.size > hi then f.size else hi,
                    if f.size > hi then f.path else path)
  {
    if files == [] {
      assert files + [f] == [f];
      FirstExtremes(f);
    } else {
      NextExtremes(files, f, lo, hi, path);
    }
  }

  lemma FirstExtremes(f: File)
    ensures Extremes([f], f.size, f.size, if f.size > 0 then f.path else [])
  {
    assert [] + [f] == [f];
    assert f in [f];
    FirstOfNew([], f);
  }

  lemma NextExtremes(files: seq<File>, f: File, lo: nat, hi: nat, path: Text)
    requires Extremes(files, lo, hi, path)
    ensures Extremes(files + [f],
                     if f.size < lo then f.size else lo,
                     if f.size > hi then f.size else hi,
                     if f.size > hi then f.path else path)
  {
    var all := files + [f];
    var g :| g in files && g.size == lo;
    assert g in all && f in all;
    if f.size > hi {
      FirstOfNew(files, f);
    } else if hi > 0 {
      FirstStays(files, File(path, hi), f);
    }
  }

  ghost predicate FirstOfSize(s: seq<File>, f: File) {
    OfSize(s, f.size) != [] && OfSize(s, f.size)[0] == f
  }

  lemma FirstOfNew(s: seq<File>, f: File)
    requires forall g :: g in s ==> g.size < f.size
    ensures FirstOfSize(s + [f], f)
  {
    NoneOfSize(s, f.size);
    assert (s + [f])[..|s|] == s;
  }

  lemma FirstStays(s: seq<File>, f: File, g: File)
    requires FirstOfSize(s, f)
    ensures FirstOfSize(s + [g], f)
  {
    assert (s + [g])[..|s|] == s;
  }

  class ProfileResult {
    var fileCount: nat
    var dirCount: nat
    var symlinkCount: nat
    var totalBytes: nat
    var zeroByteCount: nat
    var largestFiles: seq<File>
    var duplicates: Option<DuplicateEstimate>
    var errors: seq<Text>

    constructor ()
      ensures fileCount == dirCount == symlinkCount == totalBytes == zeroByteCount == 0
      ensures largestFiles == [] && duplicates.None? && errors == []
    {
      fileCount, dirCount, symlinkCount, totalBytes, zeroByteCount := 0, 0, 0, 0, 0;
      largestFiles, duplicates, errors := [], None, [];
    }

    method Finalize()
      modifies this`largestFiles
      ensures IsTop(old(largestFiles), largestFiles, LARGEST_SHOWN)
    {
      TopIsTheOnlyOne(largestFiles, Take(StableSort(largestFiles), LARGEST_SHOWN), LARGEST_SHOWN);
      largestFiles := Take(StableSort(largestFiles), LARGEST_SHOWN);
    }

    /** Count one more entry of the walk. */
    method CountEntry(ghost before: seq<Entry>, e: Entry)
      requires Counts(before)
      modifies this`fileCount, this`dirCount, this`symlinkCount, this`totalBytes, this`zeroByteCount, this`errors
      ensures Counts(before + [e])
    {
      EntriesSnoc(before, e);
      match e
      case WalkError(path) => errors := errors + [path];
      case Symlink => symlinkCount := symlinkCount + 1;
      case Directory => dirCount := dirCount + 1;
      case Unreadable(path) => errors := errors + [path];
      case Special =>
      case Regular(f) =>
        FilesSnoc(Files(before), f);
        fileCount := fileCount + 1;
        totalBytes := totalBytes + f.size;
        if f.size == 0 {
          zeroByteCount := zeroByteCount + 1;
        }
    }

    /** The counters are the numbers of entries of each kind. */
    ghost predicate Counts(entries: seq<Entry>)
      reads this
    {
      && fileCount == |Files(entries)|
      && dirCount == Number(entries, Directory)
      && symlinkCount == Number(entries, Symlink)
      && totalBytes == TotalBytes(Files(entries))
      && zeroByteCount == Empty(Files(entries))
      && errors == Errors(entries)
    }
  }

  /** Every entry is counted once. */
  lemma {:induction false} EveryEntryIsCounted(entries: seq<Entry>)
    ensures |Files(entries)| + |Errors(entries)| + Number(entries, Directory) + Number(entries, Symlink)
              + Number(entries, Special) == |entries|
  {
    if entries != [] {
      var init := entries[..|entries| - 1];
      EveryEntryIsCounted(init);
      assert entries == init + [entries[|entries| - 1]];
      EntriesSnoc(init, entries[|entries| - 1]);
    }
  }

  lemma EntriesSnoc(entries: seq<Entry>, e: Entry)
    ensures Files(entries + [e]) == if e.Regular? then Files(entries) + [e.file] else Files(entries)
    ensures Errors(entries + [e])
         == if e.WalkError? || e.Unreadable? then Errors(entries) + [e.path] else Errors(entries)
    ensures forall k :: Number(entries + [e], k) == Number(entries, k) + if e == k then 1 else 0
  {
    assert (entries + [e])[..|entries|] == entries;
  }

  lemma FilesSnoc(files: seq<File>, f: File)
    ensures TotalBytes(files + [f]) == TotalBytes(files) + f.size
    ensures Empty(files + [f]) == Empty(files) + if f.size == 0 then 1 else 0
    ensures forall k :: OfSize(files + [f], k) == if f.size == k then OfSize(files, k) + [f] else OfSize(files, k)
  {
    assert (files + [f])[..|files|] == files;
  }

  lemma GroupedBySizeSnoc(files: seq<File>, bySize: map<nat, seq<Text>>, f: File)
    requires GroupedBySize(files, bySize)
    ensures GroupedBySize(files + [f],
                          if f.size == 0 then bySize else PushTo(bySize, f.size, f.path))
  {
    var now := if f.size == 0 then bySize else PushTo(bySize, f.size, f.path);
    forall k
      ensures GroupedAt(files + [f], now, k)
    {
      GroupedAtSnoc(files, bySize, f, k);
    }
  }

  lemma GroupedAtSnoc(files: seq<File>, bySize: map<nat, seq<Text>>, f: File, k: nat)
    requires GroupedAt(files, bySize, k)
    ensures GroupedAt(files + [f], if f.size == 0 then bySize else PushTo(bySize, f.size, f.path), k)
  {
    assert (files + [f])[..|files|] == files;
    if k == f.size > 0 {
      var was := if k in bySize then bySize[k] else [];
      assert FilesOf(Group(k, was + [f.path])) == FilesOf(Group(k, was)) + [f];
      assert FilesOf(Group(k, was)) == OfSize(files, k);
    } else {
      assert OfSize(files + [f], k) == OfSize(files, k) + if f.size == k then [f] else [];
    }
  }

  /** One entry of the walk. */
  method Visit(
      result: ProfileResult, ghost done: seq<Entry>, e: Entry, largest: seq<File>, bySize: map<nat, seq<Text>>,
      detectDuplicates: bool)
    returns (largest': seq<File>, bySize': map<nat, seq<Text>>)
    requires result.Counts(done) && Tracked(Files(done), largest, bySize, detectDuplicates)
    modifies result
    ensures result.Counts(done + [e]) && Tracked(Files(done + [e]), largest', bySize', detectDuplicates)
    ensures result.largestFiles == old(result.largestFiles) && result.duplicates == old(result.duplicates)
  {
    result.CountEntry(done, e);
    largest', bySize' := TrackEntry(Files(done), largest, bySize, detectDuplicates, e);
    FilesNext(done, e);
  }

  function FileOf(e: Entry): seq<File> {
    if e.Regular? then [e.file] else []
  }

  lemma FilesNext(entries: seq<Entry>, e: Entry)
    ensures Files(entries + [e]) == Files(entries) + FileOf(e)
  {
    EntriesSnoc(entries, e);
  }

  /** Only files are tracked. */
  method TrackEntry(
      ghost files: seq<File>, largest: seq<File>, bySize: map<nat, seq<Text>>, detectDuplicates: bool, e: Entry)
    returns (largest': seq<File>, bySize': map<nat, seq<Text>>)
    requires Tracked(files, largest, bySize, detectDuplicates)
    ensures Tracked(files + FileOf(e), largest', bySize', detectDuplicates)
  {
    largest', bySize' := largest, bySize;
    if e.Regular? {
      largest', bySize' := TrackFile(files, largest, bySize, detectDuplicates, e.file);
    } else {
      assert files + FileOf(e) == files;
    }
  }

  /** The walk: count every entry, and track every file. */
  method Walk(entries: seq<Entry>, detectDuplicates: bool)
    returns (result: ProfileResult, largest: seq<File>, bySize: map<nat, seq<Text>>)
    ensures fresh(result) && result.Counts(entries) && result.largestFiles == [] && result.duplicates.None?
    ensures Tracked(Files(entries), largest, bySize, detectDuplicates)
  {
    result := new ProfileResult();
    largest, bySize := [], map[];
    ghost var done: seq<Entry> := [];
    for i := 0 to |entries|
      invariant done == entries[..i]
      invariant fresh(result) && result.Counts(done)
      invariant result.largestFiles == [] && result.duplicates.None?
      invariant Tracked(Files(done), largest, bySize, detectDuplicates)
    {
      largest, bySize := Visit(result, done, entries[i], largest, bySize, detectDuplicates);
      done := done + [entries[i]];
    }
    assert done == entries;
  }

  method DuplicateSection(
      ghost files: seq<File>, bySize: map<nat, seq<Text>>, detectDuplicates: bool, maxHashFiles: nat, probe: Probe)
    returns (duplicates: Option<DuplicateEstimate>, ghost walked: seq<File>)
    requires detectDuplicates ==> GroupedBySize(files, bySize)
    ensures duplicates.Some? <==> detectDuplicates
    ensures detectDuplicates ==>
              && SoundCounts(files, maxHashFiles, duplicates.value)
              && SoundEstimate(files, probe, duplicates.value, walked)
  {
    duplicates, walked := None, [];
    if detectDuplicates {
      var e;
      e, walked := EstimateDuplicates(files, bySize, maxHashFiles, probe);
      duplicates := Some(e);
    }
  }

  /** The whole scan. `walked` lists the files the quick hash looked at. */
  method Scan(entries: seq<Entry>, detectDuplicates: bool, maxHashFiles: nat, probe: Probe)
    returns (result: ProfileResult, ghost walked: seq<File>)
    ensures fresh(result) && result.Counts(entries)
    ensures IsTop(Files(entries), result.largestFiles, LARGEST_SHOWN)
    ensures result.duplicates.Some? <==> detectDuplicates
    ensures detectDuplicates ==>
              && SoundCounts(Files(entries), maxHashFiles, result.duplicates.value)
              && SoundEstimate(Files(entries), probe, result.duplicates.value, walked)
  {
    var largest, bySize;
    result, largest, bySize := Walk(entries, detectDuplicates);
    result.largestFiles := Take(StableSort(largest), LARGEST_SHOWN);
    result.duplicates, walked := DuplicateSection(Files(entries), bySize, detectDuplicates, maxHashFiles, probe);
    result.Finalize();
    ShownIsTop(largest, Files(entries), result.largestFiles);
  }

  /** Sorting and cutting the pruned list twice shows the top of all files. */
  lemma ShownIsTop(largest: seq<File>, files: seq<File>, shown: seq<File>)
    requires SameTop(largest, files, MAX_LARGEST)
    requires IsTop(Take(StableSort(largest), LARGEST_SHOWN), shown, LARGEST_SHOWN)
    ensures IsTop(files, shown, LARGEST_SHOWN)
  {
    SameTopFewer(largest, files, LARGEST_SHOWN, MAX_LARGEST);
    TopIsTheOnlyOne(Take(StableSort(largest), LARGEST_SHOWN), shown, LARGEST_SHOWN);
    TopIsSettled(largest, LARGEST_SHOWN);
    TopIsTheOnlyOne(files, shown, LARGEST_SHOWN);
  }

  /** The two lists the walk builds: enough of the largest files, and the paths of every size. */
  ghost predicate Tracked(files: seq<File>, largest: seq<File>, bySize: map<nat, seq<Text>>, detectDuplicates: bool) {
    && SameTop(largest, files, MAX_LARGEST) && |largest| <= 2 * MAX_LARGEST
    && (detectDuplicates ==> GroupedBySize(files, bySize))
  }

  /** Push one file on both; the largest are pruned when there are more than twice the limit. */
  method TrackFile(
      ghost files: seq<File>, largest: seq<File>, bySize: map<nat, seq<Text>>, detectDuplicates: bool, f: File)
    returns (largest': seq<File>, bySize': map<nat, seq<Text>>)
    requires Tracked(files, largest, bySize, detectDuplicates)
    ensures Tracked(files + [f], largest', bySize', detectDuplicates)
  {
    SameTopPush(largest, files, f, MAX_LARGEST);
    largest' := largest + [f];
    if |largest'| > MAX_LARGEST * 2 {
      SameTopPrune(largest', MAX_LARGEST);
      largest' := Take(StableSort(largest'), MAX_LARGEST);
    }
    bySize' := bySize;
    if detectDuplicates {
      GroupedBySizeSnoc(files, bySize, f);
      if f.size > 0 {
        bySize' := PushTo(bySize, f.size, f.path);
      }
    }
  }
}
