/**
 * Properties of the byte accounting and the public mutators of module
 * UploaderState: `handleProgressChange` and its single `prevLoaded`, the
 * `totalSize` getter, `remove`, `clearStats`, `toSuccessful`, and the
 * answers of the pre-flight gate.
 */
module UploaderAccounting {
  import opened Entities
  import opened Utils
  import opened UploaderState
  import opened UploaderProps

  // ---------------------------------------------------------------------
  // totalSize
  // ---------------------------------------------------------------------

  lemma {:induction false} SumSizesAppend(a: seq<Id>, b: seq<Id>, fileInfos: map<Id, FileInfo>)
    requires FilesIn(a, fileInfos) && FilesIn(b, fileInfos)
    ensures SumSizes(a + b, fileInfos) == SumSizes(a, fileInfos) + SumSizes(b, fileInfos)
    decreases |a|
  {
    if |a| > 0 {
      assert (a + b)[1..] == a[1..] + b;
      SumSizesAppend(a[1..], b, fileInfos);
    } else {
      assert a + b == b;
    }
  }

  /** Taking a file out of a list takes its size off the sum, once. */
  lemma SumSizesRemove(id: Id, ids: seq<Id>, fileInfos: map<Id, FileInfo>)
    requires FilesIn(ids, fileInfos) && id in ids
    ensures SumSizes(RemoveFirst(id, ids).1, fileInfos) == SumSizes(ids, fileInfos) - fileInfos[id].size
  {
    var k := IndexOf(id, ids);
    assert ids == ids[..k] + ([ids[k]] + ids[k + 1..]);
    SumSizesAppend(ids[..k], [ids[k]] + ids[k + 1..], fileInfos);
    SumSizesAppend([ids[k]], ids[k + 1..], fileInfos);
    SumSizesAppend(ids[..k], ids[k + 1..], fileInfos);
  }

  // ---------------------------------------------------------------------
  // handleProgressChange
  // ---------------------------------------------------------------------

  /** The byte size of a file or a chunk. */
  function UnitSize(s: State, kind: UploadType, id: Id): nat
    requires Stored(s, kind, id)
  {
    if kind == FileUnit then s.fileInfos[id].size else s.chunkInfos[id].size
  }

  /** Only the records and the two byte counters differ. */
  predicate SampleFrame(s: State, t: State)
  {
    t == s.(fileInfos := t.fileInfos, chunkInfos := t.chunkInfos, loadedSize := t.loadedSize, prevLoaded := t.prevLoaded)
  }

  /**
   * A partial sample replaces the last partial sample in `loadedSize` and
   * becomes `prevLoaded`; the unit records it as loaded, and the file's
   * percentage (its owner's, for a chunk) is the bytes so far over the
   * total. No status and no bucket changes.
   */
  lemma PartialSampleAccounting(s: State, kind: UploadType, id: Id, loaded: int, total: int)
    requires Wf(s) && Stored(s, kind, id) && loaded != total
    ensures var t := ProgressChange(s, kind, id, loaded, total);
      && t.loadedSize == s.loadedSize + (loaded - s.prevLoaded)
      && t.prevLoaded == loaded
      && SameFiles(s, t) && SampleFrame(s, t)
      && UnitSize(t, kind, id) == UnitSize(s, kind, id)
      && (kind == FileUnit ==>
            && t.fileInfos == s.fileInfos[id := s.fileInfos[id].(loaded := loaded, progress := Ratio(loaded, total))]
            && t.chunkInfos == s.chunkInfos)
      && (kind == ChunkUnit ==>
            var c := s.chunkInfos[id]; var owner := s.fileInfos[c.belongFile];
            && t.chunkInfos == s.chunkInfos[id := c.(loaded := loaded)]
            && t.fileInfos == s.fileInfos[c.belongFile := owner.(progress := Ratio(c.index * c.size + loaded, owner.size))])
  {
    if kind == FileUnit {
      PartialFileAccounting(s, id, loaded, total);
    } else {
      PartialChunkAccounting(s, id, loaded);
    }
  }

  lemma PartialFileAccounting(s: State, id: Id, loaded: int, total: int)
    requires Wf(s) && id in s.fileInfos
    ensures var t := PartialFileSample(s, id, loaded, total);
      && t.loadedSize == s.loadedSize + (loaded - s.prevLoaded) && t.prevLoaded == loaded
      && SameFiles(s, t) && SampleFrame(s, t)
      && t.fileInfos == s.fileInfos[id := s.fileInfos[id].(loaded := loaded, progress := Ratio(loaded, total))]
      && t.chunkInfos == s.chunkInfos
  {
    PartialFileSampleKeepsWf(s, id, loaded, total);
  }

  lemma PartialChunkAccounting(s: State, id: Id, loaded: int)
    requires Wf(s) && id in s.chunkInfos
    ensures s.chunkInfos[id].belongFile in s.fileInfos
    ensures var t := PartialChunkSample(s, id, loaded); var c := s.chunkInfos[id]; var owner := s.fileInfos[c.belongFile];
      && t.loadedSize == s.loadedSize + (loaded - s.prevLoaded) && t.prevLoaded == loaded
      && SameFiles(s, t) && SampleFrame(s, t)
      && t.chunkInfos == s.chunkInfos[id := c.(loaded := loaded)]
      && t.fileInfos == s.fileInfos[c.belongFile := owner.(progress := Ratio(c.index * c.size + loaded, owner.size))]
  {
    PartialChunkSampleKeepsWf(s, id, loaded);
  }

  /**
   * A completing sample (`loaded == total`) credits the unit's own size in
   * place of the last partial sample and clears `prevLoaded`; a file's
   * percentage becomes 100, a chunk's owner's becomes 100 at its last chunk
   * and the share of the chunks so far otherwise. No status and no bucket
   * changes.
   */
  lemma CompletingSampleAccounting(s: State, kind: UploadType, id: Id, total: int)
    requires Wf(s) && Stored(s, kind, id)
    ensures var t := ProgressChange(s, kind, id, total, total);
      && t.loadedSize == s.loadedSize - s.prevLoaded + UnitSize(s, kind, id)
      && t.prevLoaded == 0
      && SameFiles(s, t) && SampleFrame(s, t)
      && (kind == FileUnit ==>
            && t.fileInfos == s.fileInfos[id := s.fileInfos[id].(loaded := s.fileInfos[id].size, progress := Literal(100))]
            && t.chunkInfos == s.chunkInfos)
      && (kind == ChunkUnit ==>
            var c := s.chunkInfos[id]; var owner := s.fileInfos[c.belongFile];
            && t.chunkInfos == s.chunkInfos[id := c.(loaded := c.size)]
            && t.fileInfos == s.fileInfos[c.belongFile := owner.(progress :=
                 if c.index + 1 == |ChunksOf(owner)| then Literal(100) else Ratio(c.size * (c.index + 1), owner.size))])
  {
    if kind == FileUnit {
      CompleteFileAccounting(s, id);
    } else {
      CompleteChunkAccounting(s, id);
    }
  }

  lemma CompleteFileAccounting(s: State, id: Id)
    requires Wf(s) && id in s.fileInfos
    ensures var t := CompleteFileSample(s, id);
      && t.loadedSize == s.loadedSize - s.prevLoaded + s.fileInfos[id].size && t.prevLoaded == 0
      && SameFiles(s, t) && SampleFrame(s, t)
      && t.fileInfos == s.fileInfos[id := s.fileInfos[id].(loaded := s.fileInfos[id].size, progress := Literal(100))]
      && t.chunkInfos == s.chunkInfos
  {
    CompleteFileSampleKeepsWf(s, id);
  }

  lemma CompleteChunkAccounting(s: State, id: Id)
    requires Wf(s) && id in s.chunkInfos
    ensures s.chunkInfos[id].belongFile in s.fileInfos
    ensures var t := CompleteChunkSample(s, id); var c := s.chunkInfos[id]; var owner := s.fileInfos[c.belongFile];
      && t.loadedSize == s.loadedSize - s.prevLoaded + c.size && t.prevLoaded == 0
      && SameFiles(s, t) && SampleFrame(s, t)
      && t.chunkInfos == s.chunkInfos[id := c.(loaded := c.size)]
      && t.fileInfos == s.fileInfos[c.belongFile := owner.(progress :=
           if c.index + 1 == |ChunksOf(owner)| then Literal(100) else Ratio(c.size * (c.index + 1), owner.size))]
  {
    CompleteChunkSampleKeepsWf(s, id);
  }

  lemma ProgressPreservesPartition(s: State, kind: UploadType, id: Id, loaded: int, total: int)
    requires Wf(s) && FilesPartitioned(s) && Stored(s, kind, id)
    ensures FilesPartitioned(ProgressChange(s, kind, id, loaded, total))
  {
    if loaded == total {
      CompletingSampleAccounting(s, kind, id, total);
    } else {
      PartialSampleAccounting(s, kind, id, loaded, total);
    }
    SameFilesPartitioned(s, ProgressChange(s, kind, id, loaded, total));
  }

  /** The states a run of samples `ls` passes through, one `step` per sample. */
  function Feed(step: (State, int) -> State, s: State, ls: seq<int>): State
    decreases |ls|
  {
    if |ls| == 0 then s else Feed(step, step(s, ls[0]), ls[1..])
  }

  /**
   * Whatever the step, when every sample keeps `inv` and replaces the last
   * partial sample by itself, a run of samples leaves only the first
   * `prevLoaded` and the last sample in `loadedSize`.
   */
  lemma {:induction false} FeedTelescopes(step: (State, int) -> State, inv: State -> bool, s: State, ls: seq<int>)
    requires inv(s) && |ls| > 0
    requires forall t, l :: inv(t) && l in ls ==>
      && inv(step(t, l))
      && step(t, l).loadedSize == t.loadedSize - t.prevLoaded + l
      && step(t, l).prevLoaded == l
    ensures inv(Feed(step, s, ls))
    ensures Feed(step, s, ls).loadedSize == s.loadedSize - s.prevLoaded + ls[|ls| - 1]
    ensures Feed(step, s, ls).prevLoaded == ls[|ls| - 1]
    decreases |ls|
  {
    var t := step(s, ls[0]);
    assert ls[0] in ls;
    assert inv(t) && t.loadedSize == s.loadedSize - s.prevLoaded + ls[0] && t.prevLoaded == ls[0];
    if |ls| > 1 {
      assert forall l :: l in ls[1..] ==> l in ls;
      FeedTelescopes(step, inv, t, ls[1..]);
    }
  }

  /** One `handleProgressChange` call for the unit, ignored where it would not apply. */
  function SampleStep(kind: UploadType, id: Id, total: int): (State, int) -> State
  {
    (t: State, l: int) => if Wf(t) && Stored(t, kind, id) && l != total then ProgressChange(t, kind, id, l, total) else t
  }

  /** The partial samples `ls` of one unit, in order. */
  function Samples(s: State, kind: UploadType, id: Id, ls: seq<int>, total: int): State
  {
    Feed(SampleStep(kind, id, total), s, ls)
  }

  /**
   * Over a run of partial samples only the first `prevLoaded` and the last
   * sample remain in `loadedSize`; the records stay well formed and the
   * unit's size is unchanged.
   */
  lemma SamplesTelescope(s: State, kind: UploadType, id: Id, ls: seq<int>, total: int)
    requires Wf(s) && Stored(s, kind, id) && |ls| > 0
    requires forall l :: l in ls ==> l != total
    ensures var t := Samples(s, kind, id, ls, total);
      && Wf(t) && Stored(t, kind, id) && UnitSize(t, kind, id) == UnitSize(s, kind, id)
      && t.loadedSize == s.loadedSize - s.prevLoaded + ls[|ls| - 1]
      && t.prevLoaded == ls[|ls| - 1]
  {
    var n := UnitSize(s, kind, id);
    var inv: State -> bool := (t: State) => Wf(t) && Stored(t, kind, id) && UnitSize(t, kind, id) == n;
    var step := SampleStep(kind, id, total);
    forall t, l | inv(t) && l in ls
      ensures && inv(step(t, l))
              && step(t, l).loadedSize == t.loadedSize - t.prevLoaded + l
              && step(t, l).prevLoaded == l
    {
      PartialSampleAccounting(t, kind, id, l, total);
    }
    FeedTelescopes(step, inv, s, ls);
  }

  /**
   * One unit uploaded alone, starting from a cleared `prevLoaded`: however
   * many partial samples arrive, once its completing sample arrives exactly
   * its own size has been added to `loadedSize`, and `prevLoaded` is clear
   * again.
   */
  lemma OneUnitCreditsItsSize(s: State, kind: UploadType, id: Id, ls: seq<int>, total: int)
    requires Wf(s) && Stored(s, kind, id) && s.prevLoaded == 0
    requires forall l :: l in ls ==> l != total
    ensures var p := Samples(s, kind, id, ls, total);
      && Wf(p) && Stored(p, kind, id)
      && var t := ProgressChange(p, kind, id, total, total);
      && t.loadedSize == s.loadedSize + UnitSize(s, kind, id) && t.prevLoaded == 0
  {
    var p := Samples(s, kind, id, ls, total);
    if |ls| > 0 {
      SamplesTelescope(s, kind, id, ls, total);
    }
    CompletingSampleAccounting(p, kind, id, total);
  }

  /**
   * `prevLoaded` is one field for all units: when a partial sample of file
   * `a` is followed by one of file `b` and then `a` completes, `loadedSize`
   * counts only `a`'s size, although `b`'s record has `lb` bytes loaded.
   */
  lemma InterleavedSamplesUndercount(s: State, a: Id, b: Id, la: int, ta: int, lb: int, tb: int)
    requires Wf(s) && a in s.fileInfos && b in s.fileInfos && a != b && s.prevLoaded == 0
    requires la != ta && lb != tb
    ensures var t1 := ProgressChange(s, FileUnit, a, la, ta);
      var t2 := ProgressChange(t1, FileUnit, b, lb, tb);
      var t3 := ProgressChange(t2, FileUnit, a, ta, ta);
      && t3.loadedSize == s.loadedSize + s.fileInfos[a].size
      && t3.fileInfos[b].loaded == lb
  {
    var t1 := ProgressChange(s, FileUnit, a, la, ta);
    PartialSampleAccounting(s, FileUnit, a, la, ta);
    var t2 := ProgressChange(t1, FileUnit, b, lb, tb);
    PartialSampleAccounting(t1, FileUnit, b, lb, tb);
    CompletingSampleAccounting(t2, FileUnit, a, ta);
  }

  // ---------------------------------------------------------------------
  // remove
  // ---------------------------------------------------------------------

  /** An empty id throws; an id no bucket holds returns false and changes nothing. */
  lemma RemoveRejects(s: State, id: Id)
    requires Wf(s) && FilesPartitioned(s)
    ensures id == "" ==> Remove(s, id) == Step(s, Throw("uploader.remove(id: string): The id must be a string."))
    ensures id != "" && id !in s.allFiles ==> Remove(s, id) == Step(s, Return(false))
  {
    if id != "" && id !in s.allFiles {
      AllBucketsWf(s);
      assert forall st :: id !in Bucket(s, st);
      assert id !in s.waitingUploadFiles && id !in s.uploadingFiles && id !in s.uploadedFiles;
      assert id !in s.errorUploadFiles && id !in s.invalidFiles;
    }
  }

  /** The state `remove` leaves when it finds a listed file. */
  function Removed(s: State, id: Id): State
    requires id in s.fileInfos
  {
    s.(loadedSize := s.loadedSize - s.fileInfos[id].size,
       allFiles := RemoveFirst(id, s.allFiles).1,
       waitingUploadFiles := RemoveFirst(id, s.waitingUploadFiles).1,
       uploadingFiles := RemoveFirst(id, s.uploadingFiles).1,
       uploadedFiles := RemoveFirst(id, s.uploadedFiles).1,
       errorUploadFiles := RemoveFirst(id, s.errorUploadFiles).1,
       invalidFiles := RemoveFirst(id, s.invalidFiles).1)
  }

  lemma RemoveSteps(s: State, id: Id)
    requires Wf(s) && id != "" && id in s.allFiles
    ensures Remove(s, id) == Step(Removed(s, id), Return(true))
  {
    forall f | f in s.allFiles ensures id !in ChunksOf(s.fileInfos[f]) {
      ListedChunksStored(s, f);
    }
    FindInfoFindsFile(id, s.allFiles, s.fileInfos);
  }

  /** One bucket after `remove`: the same files less `id`, still without duplicates. */
  lemma RemovedBucket(s: State, id: Id, st: UploadStatus)
    requires id in s.fileInfos && NoDup(Bucket(s, st))
    ensures NoDup(Bucket(Removed(s, id), st))
    ensures forall x :: x in Bucket(Removed(s, id), st) <==> x in Bucket(s, st) && x != id
  {
    RemoveFirstExactly(id, Bucket(s, st));
    match st
    case Waiting => assert Bucket(Removed(s, id), st) == RemoveFirst(id, s.waitingUploadFiles).1;
    case Uploading => assert Bucket(Removed(s, id), st) == RemoveFirst(id, s.uploadingFiles).1;
    case Uploaded => assert Bucket(Removed(s, id), st) == RemoveFirst(id, s.uploadedFiles).1;
    case Error => assert Bucket(Removed(s, id), st) == RemoveFirst(id, s.errorUploadFiles).1;
    case Invalid => assert Bucket(Removed(s, id), st) == RemoveFirst(id, s.invalidFiles).1;
  }

  /** Dropping one file from the list and from every bucket keeps the partition. */
  lemma DropPartitioned(s: State, t: State, id: Id)
    requires FilesPartitioned(s)
    requires t.fileInfos == s.fileInfos
    requires NoDup(t.allFiles) && forall x :: x in t.allFiles <==> x in s.allFiles && x != id
    requires forall st :: NoDup(Bucket(t, st))
    requires forall st, x :: x in Bucket(t, st) <==> x in Bucket(s, st) && x != id
    ensures FilesPartitioned(t)
  {
    AllBucketsWf(s);
    forall st ensures BucketWf(t, st) {
      assert BucketWf(s, st);
    }
    assert forall st :: BucketWf(t, st);
  }

  lemma RemovedPartitioned(s: State, id: Id)
    requires FilesPartitioned(s) && id in s.fileInfos
    ensures FilesPartitioned(Removed(s, id))
    ensures forall st, x :: x in Bucket(Removed(s, id), st) <==> x in Bucket(s, st) && x != id
    ensures forall x :: x in Removed(s, id).allFiles <==> x in s.allFiles && x != id
  {
    AllBucketsWf(s);
    forall st ensures NoDup(Bucket(Removed(s, id), st))
      && forall x :: x in Bucket(Removed(s, id), st) <==> x in Bucket(s, st) && x != id
    {
      assert BucketWf(s, st);
      RemovedBucket(s, id, st);
    }
    RemoveFirstExactly(id, s.allFiles);
    DropPartitioned(s, Removed(s, id), id);
  }

  /**
   * Removing a listed file deletes it from `allFiles` and from every status
   * bucket, keeps every other file where it was, takes its size off
   * `loadedSize` once and off `totalSize`, keeps the partition, and returns
   * true.
   */
  lemma RemoveDeletes(s: State, id: Id)
    requires Wf(s) && FilesPartitioned(s) && id != "" && id in s.allFiles
    ensures var r := Remove(s, id); var size := s.fileInfos[id].size;
      && r.out == Return(true)
      && id !in r.state.allFiles
      && (forall st :: id !in Bucket(r.state, st))
      && (forall x :: x != id ==> (x in r.state.allFiles <==> x in s.allFiles))
      && (forall x, st :: x != id ==> (x in Bucket(r.state, st) <==> x in Bucket(s, st)))
      && r.state.fileInfos == s.fileInfos
      && r.state.loadedSize == s.loadedSize - size
      && TotalSize(r.state) == TotalSize(s) - size
      && FilesPartitioned(r.state)
  {
    RemoveSteps(s, id);
    RemovedPartitioned(s, id);
    SumSizesRemove(id, s.allFiles, s.fileInfos);
  }

  /** A second `remove` of the same id returns false and leaves `loadedSize` alone. */
  lemma RemoveTwice(s: State, id: Id)
    requires Wf(s) && FilesPartitioned(s)
    requires Remove(s, id).out == Return(true)
    ensures var t := Remove(s, id).state;
      Remove(t, id) == Step(t, Return(false))
  {
    RemoveRejects(s, id);
    RemoveDeletes(s, id);
    RemoveRejects(Remove(s, id).state, id);
  }

  // ---------------------------------------------------------------------
  // clearStats
  // ---------------------------------------------------------------------

  /**
   * `clearStats` empties every bucket and zeroes both byte counters, so the
   * total size is 0 and the (empty) partition holds; the in-flight count
   * and the records themselves are kept.
   */
  lemma ClearStatsEmpties(s: State)
    requires Wf(s)
    ensures var t := ClearStats(s);
      && (forall st :: Bucket(t, st) == []) && t.allFiles == []
      && t.allChunks == [] && t.waitingUploadChunks == [] && t.uploadingChunks == []
      && t.uploadedChunks == [] && t.errorUploadChunks == []
      && t.loadedSize == 0 && t.prevLoaded == 0 && TotalSize(t) == 0
      && t.uploadingCount == s.uploadingCount
      && t.fileInfos == s.fileInfos && t.chunkInfos == s.chunkInfos
      && FilesPartitioned(t)
  {
    var t := ClearStats(s);
    forall st ensures Bucket(t, st) == [] {
    }
  }

  // ---------------------------------------------------------------------
  // toSuccessful
  // ---------------------------------------------------------------------

  /** An id the lookup does not find throws and changes nothing. */
  lemma ToSuccessfulUnknown(o: Options, s: State, id: Id)
    requires Wf(s) && FindInfo(id, s.allFiles, s.fileInfos).None?
    ensures ToSuccessful(o, s, id) ==
              Step(s, Throw("The id passed in when the toSuccessful method is called does not exist"))
  {
  }

  /** On a listed file, `toSuccessful` is a file start, a completing sample and a success. */
  lemma ToSuccessfulSteps(o: Options, s: State, id: Id)
    requires Wf(s) && id in s.allFiles
    ensures id in StartUpload(o, s, FileUnit).state.fileInfos
    ensures var p := StartUpload(o, s, FileUnit).state;
      ToSuccessful(o, s, id) == SuccessUpload(o, ProgressChange(p, FileUnit, id, 1, 1), FileUnit, id)
  {
    forall g | g in s.allFiles ensures id !in ChunksOf(s.fileInfos[g]) {
      ListedChunksStored(s, g);
    }
    FindInfoFindsFile(id, s.allFiles, s.fileInfos);
  }

  /** A file's success that finds it uploading refills at most the chunk queue and the log. */
  lemma SuccessFileFrame(o: Options, s: State, id: Id)
    requires Wf(s) && id in s.fileInfos && id in s.uploadingFiles
    ensures var t := SuccessFile(o, s, id).state;
      && t.waitingUploadFiles == s.waitingUploadFiles
      && t.loadedSize == s.loadedSize && t.prevLoaded == s.prevLoaded
  {
    var rm := RemoveFirst(id, s.uploadingFiles);
    var s1 := s.(uploadingFiles := rm.1);
    var s2 := SetFileStatus(s1, id, Uploaded).(uploadedFiles := s1.uploadedFiles + [id]);
    assert SuccessFile(o, s, id) == Refill(o, s2);
  }

  /**
   * `toSuccessful` on the head waiting file, not chunked and not already
   * uploading: the file is started, credited with its full size and
   * recorded as uploaded, and the in-flight count is back where it was.
   */
  lemma ToSuccessfulOnHeadFile(o: Options, s: State, id: Id)
    requires Wf(s) && NoDup(s.uploadingFiles) && id in s.allFiles
    requires |s.waitingUploadFiles| > 0 && s.waitingUploadFiles[0] == id && id !in s.uploadingFiles
    requires s.uploadingCount >= 0
    ensures var r := ToSuccessful(o, s, id); var f := s.fileInfos[id];
      && r.out == Return(())
      && r.state.uploadedFiles == s.uploadedFiles + [id]
      && r.state.waitingUploadFiles == s.waitingUploadFiles[1..]
      && id !in r.state.uploadingFiles
      && (forall x :: x != id ==> (x in r.state.uploadingFiles <==> x in s.uploadingFiles))
      && r.state.fileInfos == s.fileInfos[id := f.(status := Uploaded, loaded := f.size, progress := Literal(100))]
      && r.state.loadedSize == s.loadedSize - s.prevLoaded + f.size
      && r.state.prevLoaded == 0
      && r.state.uploadingCount == s.uploadingCount
  {
    ToSuccessfulHeadSteps(o, s, id);
    HeadCreditedIs(o, s, id);
    HeadRecordSucceeds(o, s, id);
    HeadRecordKeepsCounters(o, s, id);
  }

  /** The head file started and credited, with the in-flight count back where it was. */
  function HeadCredited(o: Options, s: State, id: Id): (q: State)
    requires Wf(s) && id in s.allFiles && |s.waitingUploadFiles| > 0
    ensures Wf(q)
  {
    StartFileMovesHead(o, s);
    ProgressChange(StartUpload(o, s, FileUnit).state, FileUnit, id, 1, 1).(uploadingCount := s.uploadingCount)
  }

  /** The same state spelled field by field. */
  function HeadRecord(s: State, id: Id): State
    requires id in s.fileInfos && |s.waitingUploadFiles| > 0
  {
    var f := s.fileInfos[id];
    s.(waitingUploadFiles := s.waitingUploadFiles[1..],
       uploadingFiles := s.uploadingFiles + [id],
       fileInfos := s.fileInfos[id := f.(status := Uploading, loaded := f.size, progress := Literal(100))],
       loadedSize := s.loadedSize - s.prevLoaded + f.size,
       prevLoaded := 0)
  }

  lemma HeadCreditedIs(o: Options, s: State, id: Id)
    requires Wf(s) && id in s.allFiles
    requires |s.waitingUploadFiles| > 0 && s.waitingUploadFiles[0] == id
    ensures HeadCredited(o, s, id) == HeadRecord(s, id)
  {
    StartFileMovesHead(o, s);
    CompletingSampleAccounting(StartUpload(o, s, FileUnit).state, FileUnit, id, 1);
  }

  lemma HeadRecordSucceeds(o: Options, s: State, id: Id)
    requires Wf(s) && NoDup(s.uploadingFiles) && id in s.fileInfos && id !in s.uploadingFiles
    requires |s.waitingUploadFiles| > 0 && Wf(HeadRecord(s, id))
    ensures var r := SuccessFile(o, HeadRecord(s, id), id); var f := s.fileInfos[id];
      && r.out == Return(())
      && r.state.uploadedFiles == s.uploadedFiles + [id]
      && id !in r.state.uploadingFiles
      && (forall x :: x != id ==> (x in r.state.uploadingFiles <==> x in s.uploadingFiles))
      && r.state.fileInfos == s.fileInfos[id := f.(status := Uploaded, loaded := f.size, progress := Literal(100))]
      && r.state.uploadingCount == s.uploadingCount
  {
    var q := HeadRecord(s, id);
    var f := s.fileInfos[id];
    assert q.uploadingFiles == s.uploadingFiles + [id] && id in q.uploadingFiles;
    assert q.fileInfos[id := q.fileInfos[id].(status := Uploaded)] ==
           s.fileInfos[id := f.(status := Uploaded, loaded := f.size, progress := Literal(100))];
    NoDupAdd(s.uploadingFiles, id);
    SuccessFileLaw(o, q, id);
  }

  lemma HeadRecordKeepsCounters(o: Options, s: State, id: Id)
    requires Wf(s) && id in s.fileInfos && |s.waitingUploadFiles| > 0 && Wf(HeadRecord(s, id))
    ensures var r := SuccessFile(o, HeadRecord(s, id), id); var f := s.fileInfos[id];
      && r.state.waitingUploadFiles == s.waitingUploadFiles[1..]
      && r.state.loadedSize == s.loadedSize - s.prevLoaded + f.size
      && r.state.prevLoaded == 0
  {
    SuccessFileFrame(o, HeadRecord(s, id), id);
  }

  lemma ToSuccessfulHeadSteps(o: Options, s: State, id: Id)
    requires Wf(s) && id in s.allFiles
    requires |s.waitingUploadFiles| > 0 && s.waitingUploadFiles[0] == id
    requires s.uploadingCount >= 0
    ensures id in HeadCredited(o, s, id).fileInfos
    ensures ToSuccessful(o, s, id) == SuccessFile(o, HeadCredited(o, s, id), id)
  {
    ToSuccessfulSteps(o, s, id);
    StartFileMovesHead(o, s);
    var p := StartUpload(o, s, FileUnit).state;
    var q := ProgressChange(p, FileUnit, id, 1, 1);
    SuccessDecrementsUnlessZero(o, q, FileUnit, id);
  }

  /**
   * `toSuccessful` on a listed file that is not the head waiting file
   * starts the head file instead, credits the named file with its full
   * size, and then throws because the named file is not uploading: the head
   * file is left uploading.
   */
  lemma ToSuccessfulNotAtHead(o: Options, s: State, id: Id)
    requires Wf(s) && id in s.allFiles && id !in s.uploadingFiles
    requires |s.waitingUploadFiles| > 0 && s.waitingUploadFiles[0] != id
    ensures var r := ToSuccessful(o, s, id); var h := s.waitingUploadFiles[0];
      && r.out == Throw(NotInUploading("files", id, "uploadingFiles"))
      && r.state.uploadingFiles == s.uploadingFiles + [h]
      && r.state.waitingUploadFiles == s.waitingUploadFiles[1..]
      && r.state.fileInfos[h].status == Uploading
      && r.state.loadedSize == s.loadedSize - s.prevLoaded + s.fileInfos[id].size
  {
    ToSuccessfulSteps(o, s, id);
    StartFileMovesHead(o, s);
    var p := StartUpload(o, s, FileUnit).state;
    var q := ProgressChange(p, FileUnit, id, 1, 1);
    CompletingSampleAccounting(p, FileUnit, id, 1);
    SuccessDecrementsUnlessZero(o, q, FileUnit, id);
    var q1 := q.(uploadingCount := if q.uploadingCount != 0 then q.uploadingCount - 1 else 0);
    assert id !in q1.uploadingFiles;
    assert SuccessFile(o, q1, id) == Step(q1, Throw(NotInUploading("files", id, "uploadingFiles")));
  }

  // ---------------------------------------------------------------------
  // The pre-flight gate's answers
  // ---------------------------------------------------------------------

  /**
   * The file gate: a rejection moves the head waiting file to the tail of
   * `invalidFiles` with status invalid (and keeps the partition); a pass
   * calls the transport for the head waiting file and changes nothing else.
   */
  lemma GateRejectionInvalidatesHead(s: State, errorMessage: Option<string>)
    requires Wf(s) && FilesPartitioned(s)
    ensures var t := BeforeUploadCallback(s, errorMessage);
      && FilesPartitioned(t)
      && (Truthy(errorMessage) && |s.waitingUploadFiles| > 0 ==>
            var h := s.waitingUploadFiles[0];
            && t.waitingUploadFiles == s.waitingUploadFiles[1..]
            && t.invalidFiles == s.invalidFiles + [h]
            && t.fileInfos == s.fileInfos[h := s.fileInfos[h].(status := Invalid)])
      && (!Truthy(errorMessage) ==>
            t == s.(events := s.events + [AdapterCalled(FileUnit,
                      if |s.waitingUploadFiles| > 0 then Some(s.waitingUploadFiles[0]) else None)]))
  {
    var t := BeforeUploadCallback(s, errorMessage);
    if Truthy(errorMessage) && |s.waitingUploadFiles| > 0 {
      var h := s.waitingUploadFiles[0];
      AllBucketsWf(s);
      ExactlyOneBucket(s, h, Invalid);
      assert BucketWf(s, Waiting);
      NoDupTail(s.waitingUploadFiles);
      NoDupAdd(s.invalidFiles, h);
      MovePartitioned(s, t, h, Waiting, Invalid);
    } else {
      FilesUntouchedPartitioned(s, t);
    }
  }

  /**
   * The chunk gate's rejection moves the head waiting FILE to
   * `invalidFiles` but leaves its status waiting, so from a partitioned
   * state with a file waiting it never yields a partitioned state.
   */
  lemma ChunkGateRejectionBreaksPartition(s: State, errorMessage: Option<string>)
    requires Wf(s) && FilesPartitioned(s) && Truthy(errorMessage) && |s.waitingUploadFiles| > 0
    ensures var t := BeforeChunkUploadCallback(s, errorMessage);
      && t.invalidFiles == s.invalidFiles + [s.waitingUploadFiles[0]]
      && t.fileInfos == s.fileInfos
      && !FilesPartitioned(t)
  {
    var t := BeforeChunkUploadCallback(s, errorMessage);
    var h := s.waitingUploadFiles[0];
    AllBucketsWf(s);
    assert BucketWf(s, Waiting);
    assert h in Bucket(t, Invalid) && t.fileInfos[h].status == Waiting;
    assert !BucketWf(t, Invalid);
  }

  /** A passing chunk gate calls the transport for the head waiting chunk and changes nothing else. */
  lemma ChunkGatePassCallsAdapter(s: State, errorMessage: Option<string>)
    requires Wf(s) && !Truthy(errorMessage)
    ensures BeforeChunkUploadCallback(s, errorMessage) ==
              s.(events := s.events + [AdapterCalled(ChunkUnit,
                   if |s.waitingUploadChunks| > 0 then Some(s.waitingUploadChunks[0]) else None)])
  {
  }
}
