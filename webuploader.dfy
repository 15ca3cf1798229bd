/**
 * The browser front end `Webuploader` (src/webuploader.ts), as far as it
 * decides what enters the queue and how much of it is dispatched at once:
 * the admission filter `getFilteredFiles` (a count cap, then a size cap, then
 * the user's filter), the initial dispatch count `getLoopStartCount`, and the
 * part of the input handler that appends the admitted records to the queue
 * and starts it. Building records from files and splitting them into chunks
 * happen elsewhere, so the handler takes the new records as given.
 */
module Webuploader {
  import opened Entities
  import opened Utils
  import S = UploaderState
  import P = UploaderProps
  import UploaderCore

  /** What the user's `filter` hands back: an array of files, or any other value. */
  datatype FilterReturn = FileArray(files: seq<File>) | NotAnArray

  /** The two lists `getFilteredFiles` returns. */
  datatype Filtered = Filtered(validFiles: seq<File>, inValidFiles: seq<File>)

  const FilterMustReturnArray: string := "The filter function must return an array of files"

  // ---------------------------------------------------------------------
  // getFilteredFiles
  // ---------------------------------------------------------------------

  /**
   * Where `splice(maxCount, n - maxCount)` starts cutting a list of length
   * `n`: at `maxCount`, or for a negative `maxCount` that many places from
   * the end (at 0 when that is before the start). Everything from there on
   * is cut, because the delete count always reaches the end.
   */
  function SpliceStart(maxCount: int, n: nat): (k: nat)
    requires maxCount < n
    ensures k <= n
  {
    if maxCount >= 0 then maxCount else if n + maxCount >= 0 then n + maxCount else 0
  }

  /** The list after the `maxCount` cap: cut only when `maxCount` is a number below the length. */
  function CountCapped(files: seq<File>, maxCount: Option<int>): seq<File>
  {
    if maxCount.Some? && maxCount.value < |files| then files[..SpliceStart(maxCount.value, |files|)] else files
  }

  /** The files of at most `maxSize` bytes, in list order: what the size filter keeps. */
  function WithinSize(files: seq<File>, maxSize: int): seq<File>
  {
    if |files| == 0 then []
    else WithinSize(files[..|files| - 1], maxSize) + (if files[|files| - 1].size <= maxSize then [files[|files| - 1]] else [])
  }

  /** The files over `maxSize` bytes, in list order: what the size filter pushes onto `inValidFiles`. */
  function OverSize(files: seq<File>, maxSize: int): seq<File>
  {
    if |files| == 0 then []
    else OverSize(files[..|files| - 1], maxSize) + (if files[|files| - 1].size <= maxSize then [] else [files[|files| - 1]])
  }

  /** The valid files before the user's filter: the capped list, size-filtered when `maxSize` is a number. */
  function SizeAdmitted(files: seq<File>, maxSize: Option<int>, maxCount: Option<int>): seq<File>
  {
    if maxSize.Some? then WithinSize(CountCapped(files, maxCount), maxSize.value) else CountCapped(files, maxCount)
  }

  /** The files rejected by size: none without `maxSize`. */
  function SizeRejected(files: seq<File>, maxSize: Option<int>, maxCount: Option<int>): seq<File>
  {
    if maxSize.Some? then OverSize(CountCapped(files, maxCount), maxSize.value) else []
  }

  /**
   * `getFilteredFiles(files, {maxSize, maxCount, filter})`: the size-admitted
   * files, replaced by what `filter` returns when one is given; a filter that
   * returns something other than an array makes the call throw.
   */
  function FilteredFiles(files: seq<File>, maxSize: Option<int>, maxCount: Option<int>,
                         filter: Option<seq<File> -> FilterReturn>): (r: Outcome<Filtered>)
    ensures r.Throw? ==> filter.Some? && r.message == FilterMustReturnArray
    ensures r.Return? ==> r.value.inValidFiles == SizeRejected(files, maxSize, maxCount)
    ensures filter.None? ==> r == Return(Filtered(SizeAdmitted(files, maxSize, maxCount), SizeRejected(files, maxSize, maxCount)))
  {
    var valid := SizeAdmitted(files, maxSize, maxCount);
    var invalid := SizeRejected(files, maxSize, maxCount);
    if filter.None? then Return(Filtered(valid, invalid))
    else match filter.value(valid)
      case NotAnArray => Throw(FilterMustReturnArray)
      case FileArray(fs) => Return(Filtered(fs, invalid))
  }

  /**
   * The source's steps: a copy of the input, cut in place by `splice`, then
   * one pass of `filter` whose callback pushes each oversized file onto
   * `inValidFiles`, then the user's filter.
   */
  method GetFilteredFiles(files: seq<File>, maxSize: Option<int>, maxCount: Option<int>,
                          filter: Option<seq<File> -> FilterReturn>) returns (out: Outcome<Filtered>)
    ensures out == FilteredFiles(files, maxSize, maxCount, filter)
  {
    var validFiles := files;
    var inValidFiles: seq<File> := [];
    if maxCount.Some? && maxCount.value < |validFiles| {
      validFiles := validFiles[..SpliceStart(maxCount.value, |validFiles|)];
    }
    if maxSize.Some? {
      var kept: seq<File> := [];
      var i := 0;
      while i < |validFiles|
        invariant 0 <= i <= |validFiles|
        invariant kept == WithinSize(validFiles[..i], maxSize.value)
        invariant inValidFiles == OverSize(validFiles[..i], maxSize.value)
      {
        assert validFiles[..i + 1][..i] == validFiles[..i];
        if validFiles[i].size <= maxSize.value {
          kept := kept + [validFiles[i]];
        } else {
          inValidFiles := inValidFiles + [validFiles[i]];
        }
        i := i + 1;
      }
      assert validFiles[..i] == validFiles;
      validFiles := kept;
    }
    if filter.Some? {
      var r := filter.value(validFiles);
      if r.NotAnArray? {
        return Throw(FilterMustReturnArray);
      }
      validFiles := r.files;
    }
    out := Return(Filtered(validFiles, inValidFiles));
  }

  /**
   * The `maxCount` cap keeps a prefix of the list: the first `maxCount`
   * files when `maxCount` is a number in `0..n`, the whole list when it is
   * not a number or not below the length.
   */
  lemma CountCapKeepsPrefix(files: seq<File>, maxCount: Option<int>)
    ensures var r := CountCapped(files, maxCount);
      && |r| <= |files| && r == files[..|r|]
      && (maxCount.None? ==> r == files)
      && (maxCount.Some? && maxCount.value >= 0 ==> |r| == S.Min(|files|, maxCount.value))
  {
  }

  /**
   * The size filter splits a list in two: every kept file is within
   * `maxSize`, every rejected file is over it, and together they hold
   * exactly the files of the list.
   */
  lemma SizeSplit(files: seq<File>, maxSize: int)
    ensures forall f :: f in WithinSize(files, maxSize) ==> f.size <= maxSize
    ensures forall f :: f in OverSize(files, maxSize) ==> f.size > maxSize
    ensures multiset(WithinSize(files, maxSize)) + multiset(OverSize(files, maxSize)) == multiset(files)
  {
    WithinSizeBound(files, maxSize);
    OverSizeBound(files, maxSize);
    SizeSplitCounts(files, maxSize);
  }

  lemma {:induction false} WithinSizeBound(files: seq<File>, maxSize: int)
    ensures forall f :: f in WithinSize(files, maxSize) ==> f.size <= maxSize
  {
    if |files| > 0 {
      WithinSizeBound(files[..|files| - 1], maxSize);
    }
  }

  lemma {:induction false} OverSizeBound(files: seq<File>, maxSize: int)
    ensures forall f :: f in OverSize(files, maxSize) ==> f.size > maxSize
  {
    if |files| > 0 {
      OverSizeBound(files[..|files| - 1], maxSize);
    }
  }

  lemma {:induction false} SizeSplitCounts(files: seq<File>, maxSize: int)
    ensures multiset(WithinSize(files, maxSize)) + multiset(OverSize(files, maxSize)) == multiset(files)
  {
    if |files| > 0 {
      var init := files[..|files| - 1];
      var x := files[|files| - 1];
      assert files == init + [x];
      SizeSplitCounts(init, maxSize);
      SizeSnoc(init, x, maxSize);
      MultisetSnoc(WithinSize(init, maxSize), OverSize(init, maxSize), init, x, x.size <= maxSize);
    }
  }

  /** One more file at the end of the list lands at the end of exactly one half. */
  lemma SizeSnoc(init: seq<File>, x: File, maxSize: int)
    ensures WithinSize(init + [x], maxSize) == WithinSize(init, maxSize) + (if x.size <= maxSize then [x] else [])
    ensures OverSize(init + [x], maxSize) == OverSize(init, maxSize) + (if x.size <= maxSize then [] else [x])
  {
    assert (init + [x])[..|init|] == init;
  }

  lemma MultisetSnoc(w: seq<File>, v: seq<File>, init: seq<File>, x: File, kept: bool)
    requires multiset(w) + multiset(v) == multiset(init)
    ensures multiset(w + (if kept then [x] else [])) + multiset(v + (if kept then [] else [x])) == multiset(init + [x])
  {
  }

  /**
   * Both halves of the size filter keep list order: filtering a
   * concatenation is concatenating the filtered parts.
   */
  lemma {:induction false} SizeFilterKeepsOrder(a: seq<File>, b: seq<File>, maxSize: int)
    ensures WithinSize(a + b, maxSize) == WithinSize(a, maxSize) + WithinSize(b, maxSize)
    ensures OverSize(a + b, maxSize) == OverSize(a, maxSize) + OverSize(b, maxSize)
  {
    if |b| > 0 {
      var init := b[..|b| - 1];
      SizeFilterKeepsOrder(a, init, maxSize);
      assert (a + b)[..|a + b| - 1] == a + init;
      assert (a + b)[|a + b| - 1] == b[|b| - 1];
    } else {
      assert a + b == a;
    }
  }

  /**
   * Without a user filter the call returns, and the two lists partition the
   * capped list: the files cut by `maxCount` appear in neither, the lengths
   * add up to the capped length (`min(n, maxCount)` for a number
   * `maxCount >= 0`), every valid file is within `maxSize` and every capped
   * file over it is invalid.
   */
  lemma FilteredPartitionsCapped(files: seq<File>, maxSize: Option<int>, maxCount: Option<int>)
    ensures var out := FilteredFiles(files, maxSize, maxCount, None);
      var capped := CountCapped(files, maxCount);
      && out.Return?
      && multiset(out.value.validFiles) + multiset(out.value.inValidFiles) == multiset(capped)
      && |out.value.validFiles| + |out.value.inValidFiles| == |capped|
      && (maxCount.Some? && maxCount.value >= 0 ==> |capped| == S.Min(|files|, maxCount.value))
      && (maxSize.Some? ==>
            && (forall f :: f in out.value.validFiles ==> f.size <= maxSize.value)
            && (forall f :: f in capped && f.size > maxSize.value ==> f in out.value.inValidFiles))
      && (maxSize.None? ==> out.value == Filtered(capped, []))
  {
    var capped := CountCapped(files, maxCount);
    CountCapKeepsPrefix(files, maxCount);
    if maxSize.Some? {
      SizeSplit(capped, maxSize.value);
      var w := WithinSize(capped, maxSize.value);
      var o := OverSize(capped, maxSize.value);
      assert |multiset(w) + multiset(o)| == |multiset(capped)|;
      forall f | f in capped && f.size > maxSize.value ensures f in o {
        assert f in multiset(capped);
        assert f !in multiset(w);
      }
    }
  }

  /**
   * With a user filter, the call throws exactly when the filter returns
   * something other than an array; otherwise its array becomes the valid
   * list and the size-rejected files stay invalid.
   */
  lemma UserFilterDecides(files: seq<File>, maxSize: Option<int>, maxCount: Option<int>, filter: seq<File> -> FilterReturn)
    ensures var out := FilteredFiles(files, maxSize, maxCount, Some(filter));
      var ret := filter(SizeAdmitted(files, maxSize, maxCount));
      && (out.Throw? <==> ret.NotAnArray?)
      && (out.Throw? ==> out.message == FilterMustReturnArray)
      && (ret.FileArray? ==> out.value == Filtered(ret.files, SizeRejected(files, maxSize, maxCount)))
  {
  }

  // ---------------------------------------------------------------------
  // getLoopStartCount
  // ---------------------------------------------------------------------

  /** The units a list of files makes: each chunked file its chunks, each other file 1 (the `reduce`). */
  function Units(files: seq<Id>, fileInfos: map<Id, FileInfo>): nat
    requires FilesIn(files, fileInfos)
  {
    if |files| == 0 then 0
    else (if fileInfos[files[0]].chunks.Some? then |fileInfos[files[0]].chunks.value| else 1) + Units(files[1..], fileInfos)
  }

  function Min3(a: int, b: int, c: int): int
  {
    S.Min(S.Min(a, b), c)
  }

  /**
   * `getLoopStartCount(filesInfo)`: 0 for an empty list; when the first file
   * is chunked, the least of the thread count, its chunk count and the
   * remaining threads; else the least of the thread count, the units of the
   * whole list and the remaining threads.
   */
  function LoopStartCount(threads: int, remaining: int, files: seq<Id>, fileInfos: map<Id, FileInfo>): (r: int)
    requires FilesIn(files, fileInfos)
    ensures |files| == 0 ==> r == 0
    ensures |files| > 0 ==> r <= threads && r <= remaining && (r == threads || r == remaining || r == StartUnits(files, fileInfos))
    ensures |files| > 0 ==> r <= StartUnits(files, fileInfos)
  {
    if |files| == 0 then 0
    else
      Min3IsLeast(threads, StartUnits(files, fileInfos), remaining);
      Min3(threads, StartUnits(files, fileInfos), remaining)
  }

  /** What a dispatch may start: the first file's chunks when it is chunked, else the units of the whole list. */
  function StartUnits(files: seq<Id>, fileInfos: map<Id, FileInfo>): nat
    requires FilesIn(files, fileInfos) && |files| > 0
  {
    if fileInfos[files[0]].chunks.Some? then |fileInfos[files[0]].chunks.value| else Units(files, fileInfos)
  }

  /** `Min3` is the least of its arguments: no larger than each, and equal to one of them. */
  lemma Min3IsLeast(a: int, b: int, c: int)
    ensures Min3(a, b, c) <= a && Min3(a, b, c) <= b && Min3(a, b, c) <= c
    ensures Min3(a, b, c) == a || Min3(a, b, c) == b || Min3(a, b, c) == c
  {
  }

  /** A list with no chunked file has one unit per file. */
  lemma {:induction false} UnitsOfUnchunked(files: seq<Id>, fileInfos: map<Id, FileInfo>)
    requires FilesIn(files, fileInfos)
    requires forall f :: f in files ==> fileInfos[f].chunks.None?
    ensures Units(files, fileInfos) == |files|
  {
    if |files| > 0 {
      UnitsOfUnchunked(files[1..], fileInfos);
    }
  }

  /**
   * The dispatch count never exceeds the thread count nor the remaining
   * threads, is 0 for an empty list, is bounded by the first file's chunks
   * when it is chunked and by the list's units otherwise, and when the
   * remaining threads are what the uploader computes, the units in flight
   * after dispatching it stay within the effective thread count.
   */
  lemma LoopStartCountBounds(o: S.Options, s: S.State, files: seq<Id>, fileInfos: map<Id, FileInfo>)
    requires FilesIn(files, fileInfos)
    ensures var r := LoopStartCount(o.threads, S.RemainingThreads(o, s), files, fileInfos);
      && (|files| == 0 ==> r == 0)
      && (|files| > 0 ==> r <= o.threads && r <= S.RemainingThreads(o, s))
      && (|files| > 0 ==> s.uploadingCount + r <= S.EffectiveThreads(o))
      && (|files| > 0 && fileInfos[files[0]].chunks.Some? ==>
            r <= |fileInfos[files[0]].chunks.value| &&
            (r == o.threads || r == |fileInfos[files[0]].chunks.value| || r == S.RemainingThreads(o, s)))
      && (|files| > 0 && fileInfos[files[0]].chunks.None? ==>
            r <= Units(files, fileInfos) &&
            (r == o.threads || r == Units(files, fileInfos) || r == S.RemainingThreads(o, s)))
  {
    if |files| > 0 {
      var rem := S.RemainingThreads(o, s);
      if fileInfos[files[0]].chunks.Some? {
        Min3IsLeast(o.threads, |fileInfos[files[0]].chunks.value|, rem);
      } else {
        Min3IsLeast(o.threads, Units(files, fileInfos), rem);
      }
    }
  }

  // ---------------------------------------------------------------------
  // handleInputChange: appending the admitted records
  // ---------------------------------------------------------------------

  /**
   * The records of one input change: fresh files listed in `order`, with
   * their chunks, consistent with the records already stored.
   */
  predicate NewRecords(s: S.State, order: seq<Id>, batch: map<Id, FileInfo>, batchChunks: map<Id, ChunkInfo>)
  {
    && batch.Keys !! s.fileInfos.Keys && batchChunks.Keys !! s.chunkInfos.Keys
    && FilesIn(order, batch)
    && S.StoreWf(s.fileInfos + batch, s.chunkInfos + batchChunks)
  }

  /** `allFiles` and `waitingUploadFiles` extended by the new records, which join the stores. */
  function Appended(s: S.State, order: seq<Id>, batch: map<Id, FileInfo>, batchChunks: map<Id, ChunkInfo>): S.State
  {
    s.(fileInfos := s.fileInfos + batch, chunkInfos := s.chunkInfos + batchChunks,
       allFiles := s.allFiles + order, waitingUploadFiles := s.waitingUploadFiles + order)
  }

  lemma AppendedKeepsWf(s: S.State, order: seq<Id>, batch: map<Id, FileInfo>, batchChunks: map<Id, ChunkInfo>)
    requires S.Wf(s) && NewRecords(s, order, batch, batchChunks)
    ensures S.Wf(Appended(s, order, batch, batchChunks))
  {
  }

  /**
   * The synchronous effect of `handleInputChange` once the records are
   * built: they are appended to `allFiles` and `waitingUploadFiles`, and with
   * `autoUpload` the loop is started with `getLoopStartCount` of the waiting
   * files. Rejected files are recorded nowhere: the source concatenates them
   * onto `invalidFiles` and discards the result.
   */
  function InputChange(o: S.Options, s: S.State, order: seq<Id>, batch: map<Id, FileInfo>,
                       batchChunks: map<Id, ChunkInfo>, autoUpload: bool): (r: S.Step<()>)
    requires S.Wf(s) && NewRecords(s, order, batch, batchChunks)
    ensures S.Wf(r.state)
  {
    AppendedKeepsWf(s, order, batch, batchChunks);
    var t := Appended(s, order, batch, batchChunks);
    if autoUpload then S.LoopStart(t, LoopStartCount(o.threads, S.RemainingThreads(o, t), t.waitingUploadFiles, t.fileInfos))
    else S.Step(t, Return(()))
  }

  /**
   * An input change appends the new files, in order, to the end of
   * `allFiles` and of `waitingUploadFiles`; the other file buckets, the
   * in-flight count, the byte counters and every record already stored stay
   * as they were, and nothing is thrown.
   */
  lemma InputChangeAppends(o: S.Options, s: S.State, order: seq<Id>, batch: map<Id, FileInfo>,
                           batchChunks: map<Id, ChunkInfo>, autoUpload: bool)
    requires S.Wf(s) && NewRecords(s, order, batch, batchChunks)
    ensures var r := InputChange(o, s, order, batch, batchChunks, autoUpload);
      && r.out == Return(())
      && r.state.allFiles == s.allFiles + order
      && r.state.waitingUploadFiles == s.waitingUploadFiles + order
      && r.state.uploadingFiles == s.uploadingFiles && r.state.uploadedFiles == s.uploadedFiles
      && r.state.errorUploadFiles == s.errorUploadFiles && r.state.invalidFiles == s.invalidFiles
      && r.state.uploadingCount == s.uploadingCount
      && r.state.loadedSize == s.loadedSize && r.state.prevLoaded == s.prevLoaded
      && (forall f :: f in s.fileInfos ==> f in r.state.fileInfos && r.state.fileInfos[f] == s.fileInfos[f])
  {
    AppendedKeepsWf(s, order, batch, batchChunks);
    var t := Appended(s, order, batch, batchChunks);
    if autoUpload {
      var count := LoopStartCount(o.threads, S.RemainingThreads(o, t), t.waitingUploadFiles, t.fileInfos);
      if |t.waitingUploadFiles| > 0 {
        P.LoopStartDoesNotThrow(t, count);
      }
      P.LoopStartMakesCountAttempts(t, count);
    }
  }

  /**
   * Fresh waiting files without duplicates keep the partition of the listed
   * files into status buckets.
   */
  lemma InputChangeKeepsPartition(o: S.Options, s: S.State, order: seq<Id>, batch: map<Id, FileInfo>,
                                  batchChunks: map<Id, ChunkInfo>, autoUpload: bool)
    requires S.Wf(s) && NewRecords(s, order, batch, batchChunks) && P.FilesPartitioned(s)
    requires NoDup(order) && forall f :: f in order ==> batch[f].status == Waiting
    ensures P.FilesPartitioned(InputChange(o, s, order, batch, batchChunks, autoUpload).state)
  {
    AppendedKeepsWf(s, order, batch, batchChunks);
    var t := Appended(s, order, batch, batchChunks);
    AppendedPartitioned(s, order, batch, batchChunks);
    if autoUpload {
      var count := LoopStartCount(o.threads, S.RemainingThreads(o, t), t.waitingUploadFiles, t.fileInfos);
      P.LoopStartMakesCountAttempts(t, count);
      P.FilesUntouchedPartitioned(t, S.LoopStart(t, count).state);
    }
  }

  lemma AppendedPartitioned(s: S.State, order: seq<Id>, batch: map<Id, FileInfo>, batchChunks: map<Id, ChunkInfo>)
    requires S.Wf(s) && NewRecords(s, order, batch, batchChunks) && P.FilesPartitioned(s)
    requires NoDup(order) && forall f :: f in order ==> batch[f].status == Waiting
    ensures P.FilesPartitioned(Appended(s, order, batch, batchChunks))
  {
    var t := Appended(s, order, batch, batchChunks);
    AppendedBuckets(s, order, batch, t);
  }

  /** The bucket-level argument, with only the facts it needs in scope. */
  lemma AppendedBuckets(s: S.State, order: seq<Id>, batch: map<Id, FileInfo>, t: S.State)
    requires P.FilesPartitioned(s) && batch.Keys !! s.fileInfos.Keys && FilesIn(order, batch)
    requires NoDup(order) && forall f :: f in order ==> batch[f].status == Waiting
    requires t == s.(fileInfos := s.fileInfos + batch, chunkInfos := t.chunkInfos,
                     allFiles := s.allFiles + order, waitingUploadFiles := s.waitingUploadFiles + order)
    ensures P.FilesPartitioned(t)
  {
    P.AllBucketsWf(s);
    NoDupAppend(s.allFiles, order);
    NoDupAppend(s.waitingUploadFiles, order);
    forall st ensures P.BucketWf(t, st) {
      if st == Waiting {
        WaitingAppendedWf(s, order, batch, t);
      } else {
        assert P.Bucket(t, st) == P.Bucket(s, st);
        assert P.BucketWf(s, st);
      }
    }
    forall f | f in t.allFiles ensures f in t.fileInfos && f in P.Bucket(t, t.fileInfos[f].status) {
      if f in s.allFiles {
        assert f in P.Bucket(s, s.fileInfos[f].status);
      } else {
        assert f in order;
      }
    }
  }

  lemma WaitingAppendedWf(s: S.State, order: seq<Id>, batch: map<Id, FileInfo>, t: S.State)
    requires P.BucketWf(s, Waiting) && batch.Keys !! s.fileInfos.Keys && FilesIn(order, batch)
    requires NoDup(t.waitingUploadFiles) && forall f :: f in order ==> batch[f].status == Waiting
    requires t.fileInfos == s.fileInfos + batch && t.allFiles == s.allFiles + order
    requires t.waitingUploadFiles == s.waitingUploadFiles + order
    ensures P.BucketWf(t, Waiting)
  {
    forall f | f in t.waitingUploadFiles ensures f in t.allFiles && f in t.fileInfos && t.fileInfos[f].status == Waiting {
      if f in s.waitingUploadFiles {
        assert f in s.fileInfos;
      } else {
        assert f in order;
      }
    }
  }

  lemma NoDupAppend(a: seq<Id>, b: seq<Id>)
    requires NoDup(a) && NoDup(b) && forall x :: x in b ==> x !in a
    ensures NoDup(a + b)
  {
    forall i, j | 0 <= i < j < |a + b| ensures (a + b)[i] != (a + b)[j] {
      if j >= |a| && i < |a| {
        assert (a + b)[j] in b;
      }
    }
  }

  /**
   * `handleInputChange` on an uploader object: the two list fields are
   * reassigned to their concatenations, then with `autoUpload` the loop
   * runs with the count computed from the waiting files.
   */
  method HandleInputChange(u: UploaderCore.Uploader, order: seq<Id>, batch: map<Id, FileInfo>,
                           batchChunks: map<Id, ChunkInfo>, autoUpload: bool) returns (out: Outcome<()>)
    requires u.Valid() && NewRecords(u.Snapshot(), order, batch, batchChunks)
    modifies u
    ensures u.Valid()
    ensures (u.Snapshot(), out) == (InputChange(u.options, old(u.Snapshot()), order, batch, batchChunks, autoUpload).state,
                                    InputChange(u.options, old(u.Snapshot()), order, batch, batchChunks, autoUpload).out)
  {
    AppendedKeepsWf(u.Snapshot(), order, batch, batchChunks);
    AppendRecords(u, order, batch, batchChunks);
    if autoUpload {
      var count := LoopStartCount(u.options.threads, S.RemainingThreads(u.options, u.Snapshot()), u.waitingUploadFiles, u.fileInfos);
      out := u.LoopStart(count);
    } else {
      out := Return(());
    }
  }

  method AppendRecords(u: UploaderCore.Uploader, order: seq<Id>, batch: map<Id, FileInfo>, batchChunks: map<Id, ChunkInfo>)
    modifies u
    ensures u.Snapshot() == Appended(old(u.Snapshot()), order, batch, batchChunks)
  {
    u.fileInfos := u.fileInfos + batch;
    u.chunkInfos := u.chunkInfos + batchChunks;
    u.allFiles := u.allFiles + order;
    u.waitingUploadFiles := u.waitingUploadFiles + order;
  }
}
