/**
 * The `Uploader` class itself: the bucket arrays, the record stores and the
 * counters are fields, and every handler is a method that updates them step
 * by step in the order the class does. Each method is proved to leave the
 * object in exactly the state (and to return or throw exactly what) the
 * transition function of module UploaderState prescribes, so every property
 * proved about those functions holds of the object.
 */
module UploaderCore {
  import opened Entities
  import opened Utils
  import S = UploaderState
  import P = UploaderProps
  import F = UploaderFailure

  /** One dispatch attempt, field by field. */
  lemma LoopStartAttemptIs(s: S.State)
    requires S.Wf(s)
    ensures |s.waitingUploadChunks| > 0 ==> S.LoopStartAttempt(s) == S.Step(S.Upload(s, ChunkUnit), Return(()))
    ensures |s.waitingUploadChunks| == 0 && |s.waitingUploadFiles| > 0 ==>
      var head := s.fileInfos[s.waitingUploadFiles[0]];
      S.LoopStartAttempt(s) ==
        if head.chunks.Some? then
          S.Step(S.Upload(s.(waitingUploadChunks := head.chunks.value, allChunks := head.chunks.value), ChunkUnit), Return(()))
        else S.Step(S.Upload(s, FileUnit), Return(()))
  {
  }

  /** One more iteration of a loop that has not thrown is one more attempt. */
  lemma LoopStartNext(s: S.State, i: nat)
    requires S.Wf(s) && S.LoopStartN(s, i).out == Return(())
    ensures S.LoopStartN(s, i + 1) == S.LoopStartAttempt(S.LoopStartN(s, i).state)
    ensures S.LoopStart(s, i) == S.LoopStartN(s, i)
  {
  }

  /** With nothing waiting, a loop of at least one iteration throws at once and changes nothing. */
  lemma LoopStartThrows(s: S.State, count: int)
    requires S.Wf(s) && count >= 1 && |s.waitingUploadChunks| == 0 && |s.waitingUploadFiles| == 0
    ensures S.LoopStart(s, count) == S.Step(s, Throw(S.TypeErrorReading("chunks")))
  {
    P.FirstAttemptThrows(s, count);
  }

  /** The chunk bookkeeping after a chunk success, case by case. */
  lemma AfterChunkSuccessIs(o: S.Options, s: S.State)
    requires S.Wf(s) && |s.uploadedChunks| > 0
    ensures |s.waitingUploadChunks| > 0 && S.RemainingThreads(o, s) > 0 ==>
      S.AfterChunkSuccess(o, s) == S.LoopStart(s, S.Min(S.RemainingThreads(o, s), |s.waitingUploadChunks|))
    ensures |s.waitingUploadChunks| == 0 && |s.uploadingChunks| == 0 ==>
      S.AfterChunkSuccess(o, s) ==
        S.Step(s.(uploadingCount := 0, allChunks := [], uploadedChunks := [], events := s.events + [S.ChunksComplete(S.BatchOwner(s))]), Return(()))
    ensures (|s.waitingUploadChunks| > 0 && S.RemainingThreads(o, s) <= 0) || (|s.waitingUploadChunks| == 0 && |s.uploadingChunks| > 0) ==>
      S.AfterChunkSuccess(o, s) == S.Step(s, Return(()))
  {
  }

  /** The chunk part of a start, case by case and field by field. */
  lemma ShiftChunkIs(o: S.Options, s: S.State)
    requires S.Wf(s)
    ensures o.onStart && |s.allChunks| == |s.waitingUploadChunks| && |s.waitingUploadChunks| == 0 ==>
      S.ShiftChunk(o, s) == S.Step(s, Throw(S.TypeErrorReading("belongFile")))
    ensures (!o.onStart || |s.allChunks| != 0) && |s.waitingUploadChunks| == 0 ==> S.ShiftChunk(o, s) == S.Step(s, Return(()))
    ensures |s.waitingUploadChunks| > 0 ==>
      var c := s.waitingUploadChunks[0];
      S.ShiftChunk(o, s) == S.Step(s.(waitingUploadChunks := s.waitingUploadChunks[1..], uploadingChunks := s.uploadingChunks + [c],
                                   chunkInfos := s.chunkInfos[c := s.chunkInfos[c].(status := Uploading)]), Return(()))
  {
  }

  /** A file success, split at the removal from `uploadingFiles`. */
  lemma SuccessFileIs(o: S.Options, s: S.State, id: Id)
    requires S.Wf(s) && id in s.fileInfos
    ensures var rm := RemoveFirst(id, s.uploadingFiles);
      var s1 := s.(uploadingFiles := rm.1);
      var s2 := s1.(fileInfos := s.fileInfos[id := s.fileInfos[id].(status := Uploaded)], uploadedFiles := s.uploadedFiles + [id]);
      && S.Wf(s2)
      && S.SuccessFile(o, s, id) ==
           if rm.0.None? then S.Step(s1, Throw(S.NotInUploading("files", id, "uploadingFiles"))) else S.Refill(o, s2)
  {
    var s1 := s.(uploadingFiles := RemoveFirst(id, s.uploadingFiles).1);
    assert S.Wf(s1);
    assert S.SetFileStatus(s1, id, Uploaded).(uploadedFiles := s1.uploadedFiles + [id]) ==
           s1.(fileInfos := s.fileInfos[id := s.fileInfos[id].(status := Uploaded)], uploadedFiles := s.uploadedFiles + [id]);
  }

  /** A chunk success, split at the removal from `uploadingChunks`. */
  lemma SuccessChunkIs(o: S.Options, s: S.State, id: Id)
    requires S.Wf(s) && id in s.chunkInfos
    ensures var rm := RemoveFirst(id, s.uploadingChunks);
      var s1 := s.(uploadingChunks := rm.1);
      var s2 := s1.(chunkInfos := s.chunkInfos[id := s.chunkInfos[id].(status := Uploaded)], uploadedChunks := s.uploadedChunks + [id]);
      && S.Wf(s2)
      && S.SuccessChunk(o, s, id) ==
           if rm.0.None? then S.Step(s1, Throw(S.NotInUploading("chunks", id, "uploadingChunks"))) else S.AfterChunkSuccess(o, s2)
  {
    var s1 := s.(uploadingChunks := RemoveFirst(id, s.uploadingChunks).1);
    assert S.Wf(s1);
    assert S.SetChunkStatus(s1, id, Uploaded).(uploadedChunks := s1.uploadedChunks + [id]) ==
           s1.(chunkInfos := s.chunkInfos[id := s.chunkInfos[id].(status := Uploaded)], uploadedChunks := s.uploadedChunks + [id]);
  }

  /** A file retry, split at the removal from `uploadingFiles`. */
  lemma RetryFileIs(o: S.Options, s: S.State, id: Id)
    requires S.Wf(s) && id in s.fileInfos
    ensures var f := s.fileInfos[id];
      var s1 := s.(fileInfos := s.fileInfos[id := f.(retryCount := S.NextRetryCount(o, f.retryCount))]);
      var rm := RemoveFirst(id, s.uploadingFiles);
      var s2 := s1.(uploadingFiles := rm.1);
      var s3 := s2.(fileInfos := s1.fileInfos[id := s1.fileInfos[id].(status := Waiting)],
                    waitingUploadFiles := [id] + s.waitingUploadFiles, events := s.events + [S.Retried(FileUnit, id)]);
      && S.Wf(s3)
      && S.RetryFile(o, s, id) ==
           if rm.0.None? then S.Step(s2, Throw(S.NotInUploading("files", id, "uploadingFiles"))) else S.AfterRetry(o, s3)
  {
    var f := s.fileInfos[id];
    var s1 := S.SetFile(s, id, f.(retryCount := S.NextRetryCount(o, f.retryCount)));
    var s2 := s1.(uploadingFiles := RemoveFirst(id, s1.uploadingFiles).1);
    assert S.Wf(s2);
    assert S.Log(S.SetFileStatus(s2, id, Waiting).(waitingUploadFiles := [id] + s2.waitingUploadFiles), S.Retried(FileUnit, id)) ==
           s2.(fileInfos := s1.fileInfos[id := s1.fileInfos[id].(status := Waiting)],
               waitingUploadFiles := [id] + s.waitingUploadFiles, events := s.events + [S.Retried(FileUnit, id)]);
  }

  /** A chunk retry, split at the removal from `uploadingChunks`. */
  lemma RetryChunkIs(o: S.Options, s: S.State, id: Id)
    requires S.Wf(s) && id in s.chunkInfos
    ensures var c := s.chunkInfos[id];
      var s1 := s.(chunkInfos := s.chunkInfos[id := c.(retryCount := S.NextRetryCount(o, c.retryCount))]);
      var rm := RemoveFirst(id, s.uploadingChunks);
      var s2 := s1.(uploadingChunks := rm.1);
      var s3 := s2.(chunkInfos := s1.chunkInfos[id := s1.chunkInfos[id].(status := Waiting)],
                    waitingUploadChunks := [id] + s.waitingUploadChunks, events := s.events + [S.Retried(ChunkUnit, id)]);
      && S.Wf(s3)
      && S.RetryChunk(o, s, id) ==
           if rm.0.None? then S.Step(s2, Throw(S.NotInUploading("files", id, "uploadingFiles"))) else S.AfterRetry(o, s3)
  {
    var c := s.chunkInfos[id];
    var s1 := S.SetChunk(s, id, c.(retryCount := S.NextRetryCount(o, c.retryCount)));
    var s2 := s1.(uploadingChunks := RemoveFirst(id, s1.uploadingChunks).1);
    assert S.Wf(s2);
    assert S.Log(S.SetChunkStatus(s2, id, Waiting).(waitingUploadChunks := [id] + s2.waitingUploadChunks), S.Retried(ChunkUnit, id)) ==
           s2.(chunkInfos := s1.chunkInfos[id := s1.chunkInfos[id].(status := Waiting)],
               waitingUploadChunks := [id] + s.waitingUploadChunks, events := s.events + [S.Retried(ChunkUnit, id)]);
  }

  class Uploader {
    const options: S.Options

    var fileInfos: map<Id, FileInfo>
    var chunkInfos: map<Id, ChunkInfo>

    var allFiles: seq<Id>
    var waitingUploadFiles: seq<Id>
    var uploadingFiles: seq<Id>
    var uploadedFiles: seq<Id>
    var errorUploadFiles: seq<Id>
    var invalidFiles: seq<Id>

    var allChunks: seq<Id>
    var waitingUploadChunks: seq<Id>
    var uploadingChunks: seq<Id>
    var uploadedChunks: seq<Id>
    var errorUploadChunks: seq<Id>

    var uploadingCount: int
    var loadedSize: int
    var prevLoaded: int

    /** The callbacks the engine has invoked, in order. */
    var events: seq<S.Event>

    /** The object's fields as a value of the transition functions' state type. */
    function Snapshot(): S.State
      reads this
    {
      S.State(fileInfos, chunkInfos,
              allFiles, waitingUploadFiles, uploadingFiles, uploadedFiles, errorUploadFiles, invalidFiles,
              allChunks, waitingUploadChunks, uploadingChunks, uploadedChunks, errorUploadChunks,
              uploadingCount, loadedSize, prevLoaded, events)
    }

    predicate Valid()
      reads this
    {
      S.Wf(Snapshot())
    }

    /** A fresh uploader: empty stores, empty buckets, zero counters. */
    constructor (options: S.Options)
      ensures Valid() && this.options == options
      ensures Snapshot() == S.State(map[], map[], [], [], [], [], [], [], [], [], [], [], [], 0, 0, 0, [])
    {
      this.options := options;
      fileInfos := map[];
      chunkInfos := map[];
      allFiles := [];
      waitingUploadFiles := [];
      uploadingFiles := [];
      uploadedFiles := [];
      errorUploadFiles := [];
      invalidFiles := [];
      allChunks := [];
      waitingUploadChunks := [];
      uploadingChunks := [];
      uploadedChunks := [];
      errorUploadChunks := [];
      uploadingCount := 0;
      loadedSize := 0;
      prevLoaded := 0;
      events := [];
    }

    // -------------------------------------------------------------------
    // upload() and loopStart(count)
    // -------------------------------------------------------------------

    /** The synchronous part of `upload(kind)`: a warning, or the gate scheduled. */
    method Upload(kind: UploadType)
      requires Valid()
      modifies this
      ensures Valid() && Snapshot() == S.Upload(old(Snapshot()), kind)
    {
      if kind == FileUnit {
        if |waitingUploadFiles| == 0 {
          events := events + [S.NothingWaiting(FileUnit)];
        } else {
          events := events + [S.GateRequested(FileUnit)];
        }
      } else {
        if |waitingUploadChunks| == 0 {
          events := events + [S.NothingWaiting(ChunkUnit)];
        } else {
          events := events + [S.GateRequested(ChunkUnit)];
        }
      }
    }

    /** `loopStart(count)`: the `for` loop, left by the first attempt that throws. */
    method LoopStart(count: int) returns (out: Outcome<()>)
      requires Valid()
      modifies this
      ensures Valid() && (Snapshot(), out) == (S.LoopStart(old(Snapshot()), count).state, S.LoopStart(old(Snapshot()), count).out)
    {
      ghost var s0 := Snapshot();
      var i := 0;
      while i < count
        invariant 0 <= i <= (if count > 0 then count else 0)
        invariant Snapshot() == S.LoopStartN(s0, i).state && S.LoopStartN(s0, i).out == Return(())
        invariant i > 0 ==> |waitingUploadChunks| > 0 || |waitingUploadFiles| > 0
      {
        ghost var p := Snapshot();
        var attempt := Attempt();
        if attempt.Throw? {
          // nothing ever leaves a queue here, so only the first attempt can find both empty
          assert p == s0;
          LoopStartThrows(s0, count);
          return attempt;
        }
        LoopStartNext(s0, i);
        i := i + 1;
      }
      out := Return(());
    }

    /**
     * One iteration of the loop: a waiting chunk is requested; else the head
     * waiting file's chunk list (when it has one) becomes the chunk queue and
     * a chunk is requested; else the head file is requested. Reading the
     * head of an empty file queue throws.
     */
    method Attempt() returns (out: Outcome<()>)
      requires Valid()
      modifies this
      ensures Valid() && (Snapshot(), out) == (S.LoopStartAttempt(old(Snapshot())).state, S.LoopStartAttempt(old(Snapshot())).out)
      ensures out.Return? ==> |waitingUploadChunks| > 0 || |waitingUploadFiles| > 0
    {
      ghost var p := Snapshot();
      LoopStartAttemptIs(p);
      if |waitingUploadChunks| > 0 {
        Upload(ChunkUnit);
      } else if |waitingUploadFiles| == 0 {
        return Throw(S.TypeErrorReading("chunks"));
      } else {
        var head := fileInfos[waitingUploadFiles[0]];
        if head.chunks.Some? {
          S.ListedChunksStored(p, waitingUploadFiles[0]);
          waitingUploadChunks := head.chunks.value;
          allChunks := head.chunks.value;
          Upload(ChunkUnit);
        } else {
          Upload(FileUnit);
        }
      }
      out := Return(());
    }

    // -------------------------------------------------------------------
    // handleStartUpload
    // -------------------------------------------------------------------

    /** `waitingUploadFiles.shift()` pushed onto `uploadingFiles`, status uploading. */
    method PromoteHead()
      requires Valid()
      modifies this
      ensures Valid() && Snapshot() == S.PromoteHead(old(Snapshot()))
    {
      if |waitingUploadFiles| > 0 {
        S.PromotedKeepsWf(Snapshot());
        Promote();
      }
    }

    method Promote()
      requires |waitingUploadFiles| > 0 && waitingUploadFiles[0] in fileInfos
      modifies this
      ensures Snapshot() == S.Promoted(old(Snapshot()))
    {
      var h := waitingUploadFiles[0];
      waitingUploadFiles := waitingUploadFiles[1..];
      uploadingFiles := uploadingFiles + [h];
      fileInfos := fileInfos[h := fileInfos[h].(status := Uploading)];
    }

    method StartUpload(kind: UploadType) returns (out: Outcome<()>)
      requires Valid()
      modifies this
      ensures Valid() && (Snapshot(), out) == (S.StartUpload(options, old(Snapshot()), kind).state, S.StartUpload(options, old(Snapshot()), kind).out)
    {
      uploadingCount := uploadingCount + 1;
      if kind == FileUnit {
        PromoteHead();
        out := Return(());
      } else {
        if |uploadingFiles| == 0 {
          PromoteHead();
        }
        out := ShiftChunk();
      }
    }

    method ShiftChunk() returns (out: Outcome<()>)
      requires Valid()
      modifies this
      ensures Valid() && (Snapshot(), out) == (S.ShiftChunk(options, old(Snapshot())).state, S.ShiftChunk(options, old(Snapshot())).out)
    {
      ghost var s := Snapshot();
      ShiftChunkIs(options, s);
      if options.onStart && |allChunks| == |waitingUploadChunks| && |waitingUploadChunks| == 0 {
        return Throw(S.TypeErrorReading("belongFile"));
      }
      if |waitingUploadChunks| > 0 {
        ShiftHeadChunk();
      }
      out := Return(());
    }

    /** `waitingUploadChunks.shift()` pushed onto `uploadingChunks`, status uploading. */
    method ShiftHeadChunk()
      requires Valid() && |waitingUploadChunks| > 0
      modifies this
      ensures var s := old(Snapshot()); var c := s.waitingUploadChunks[0];
        Snapshot() == s.(waitingUploadChunks := s.waitingUploadChunks[1..], uploadingChunks := s.uploadingChunks + [c],
                         chunkInfos := s.chunkInfos[c := s.chunkInfos[c].(status := Uploading)])
    {
      var c := waitingUploadChunks[0];
      waitingUploadChunks := waitingUploadChunks[1..];
      uploadingChunks := uploadingChunks + [c];
      chunkInfos := chunkInfos[c := chunkInfos[c].(status := Uploading)];
    }

    // -------------------------------------------------------------------
    // Refilling freed slots
    // -------------------------------------------------------------------

    method Refill() returns (out: Outcome<()>)
      requires Valid()
      modifies this
      ensures Valid() && (Snapshot(), out) == (S.Refill(options, old(Snapshot())).state, S.Refill(options, old(Snapshot())).out)
    {
      out := Return(());
      if |waitingUploadFiles| > 0 {
        var remaining := S.RemainingThreads(options, Snapshot());
        if remaining > 0 {
          out := LoopStart(remaining);
        }
      } else if |uploadingFiles| == 0 {
        events := events + [S.Complete(uploadedFiles)];
      }
    }
    // -------------------------------------------------------------------
    // handleSuccessUpload
    // -------------------------------------------------------------------

    method SuccessUpload(kind: UploadType, id: Id) returns (out: Outcome<()>)
      requires Valid() && S.Stored(Snapshot(), kind, id)
      modifies this
      ensures Valid() && (Snapshot(), out) == (S.SuccessUpload(options, old(Snapshot()), kind, id).state, S.SuccessUpload(options, old(Snapshot()), kind, id).out)
    {
      if uploadingCount != 0 {
        uploadingCount := uploadingCount - 1;
      }
      if kind == FileUnit {
        out := SuccessFile(id);
      } else {
        out := SuccessChunk(id);
      }
    }

    method SuccessFile(id: Id) returns (out: Outcome<()>)
      requires Valid() && id in fileInfos
      modifies this
      ensures Valid() && (Snapshot(), out) == (S.SuccessFile(options, old(Snapshot()), id).state, S.SuccessFile(options, old(Snapshot()), id).out)
    {
      SuccessFileIs(options, Snapshot(), id);
      var removed := DropUploadingFile(id);
      if removed.None? {
        return Throw(S.NotInUploading("files", id, "uploadingFiles"));
      }
      SettleFile(id);
      out := Refill();
    }

    method SuccessChunk(id: Id) returns (out: Outcome<()>)
      requires Valid() && id in chunkInfos
      modifies this
      ensures Valid() && (Snapshot(), out) == (S.SuccessChunk(options, old(Snapshot()), id).state, S.SuccessChunk(options, old(Snapshot()), id).out)
    {
      SuccessChunkIs(options, Snapshot(), id);
      var removed := DropUploadingChunk(id);
      if removed.None? {
        return Throw(S.NotInUploading("chunks", id, "uploadingChunks"));
      }
      SettleChunk(id);
      out := AfterChunkSuccess();
    }

    /** `removeInfoById(id, uploadingFiles)`, the remainder assigned back. */
    method DropUploadingFile(id: Id) returns (removed: Option<Id>)
      modifies this
      ensures var rm := RemoveFirst(id, old(uploadingFiles));
        removed == rm.0 && Snapshot() == old(Snapshot()).(uploadingFiles := rm.1)
    {
      var rest;
      removed, rest := RemoveInfoById(id, uploadingFiles);
      uploadingFiles := rest;
    }

    /** `removeInfoById(id, uploadingChunks)`, the remainder assigned back. */
    method DropUploadingChunk(id: Id) returns (removed: Option<Id>)
      modifies this
      ensures var rm := RemoveFirst(id, old(uploadingChunks));
        removed == rm.0 && Snapshot() == old(Snapshot()).(uploadingChunks := rm.1)
    {
      var rest;
      removed, rest := RemoveInfoById(id, uploadingChunks);
      uploadingChunks := rest;
    }

    /** The file marked uploaded and pushed onto `uploadedFiles`. */
    method SettleFile(id: Id)
      requires id in fileInfos
      modifies this
      ensures var s := old(Snapshot());
        Snapshot() == s.(fileInfos := s.fileInfos[id := s.fileInfos[id].(status := Uploaded)], uploadedFiles := s.uploadedFiles + [id])
    {
      fileInfos := fileInfos[id := fileInfos[id].(status := Uploaded)];
      uploadedFiles := uploadedFiles + [id];
    }

    /** The chunk marked uploaded and pushed onto `uploadedChunks`. */
    method SettleChunk(id: Id)
      requires id in chunkInfos
      modifies this
      ensures var s := old(Snapshot());
        Snapshot() == s.(chunkInfos := s.chunkInfos[id := s.chunkInfos[id].(status := Uploaded)], uploadedChunks := s.uploadedChunks + [id])
    {
      chunkInfos := chunkInfos[id := chunkInfos[id].(status := Uploaded)];
      uploadedChunks := uploadedChunks + [id];
    }

    /** The last chunk is done: counter and chunk lists reset, the file handed to `onChunkComplete`. */
    method HandOnFile()
      requires |uploadedChunks| > 0 && uploadedChunks[0] in chunkInfos
      modifies this
      ensures var s := old(Snapshot());
        Snapshot() == s.(uploadingCount := 0, allChunks := [], uploadedChunks := [],
                         events := s.events + [S.ChunksComplete(s.chunkInfos[s.uploadedChunks[0]].belongFile)])
    {
      var owner := chunkInfos[uploadedChunks[0]].belongFile;
      uploadingCount := 0;
      allChunks := [];
      uploadedChunks := [];
      events := events + [S.ChunksComplete(owner)];
    }

    /** Refill from the chunk queue, or reset the chunk bookkeeping and hand the file on. */
    method AfterChunkSuccess() returns (out: Outcome<()>)
      requires Valid() && |uploadedChunks| > 0
      modifies this
      ensures Valid() && (Snapshot(), out) == (S.AfterChunkSuccess(options, old(Snapshot())).state, S.AfterChunkSuccess(options, old(Snapshot())).out)
    {
      AfterChunkSuccessIs(options, Snapshot());
      out := Return(());
      if |waitingUploadChunks| > 0 {
        var remaining := S.RemainingThreads(options, Snapshot());
        if remaining > 0 {
          out := LoopStart(S.Min(remaining, |waitingUploadChunks|));
        }
      } else if |uploadingChunks| == 0 {
        HandOnFile();
      }
    }
    // -------------------------------------------------------------------
    // retry
    // -------------------------------------------------------------------

    /** `retry(id)`: look the id up, then retry it as the kind of entity it was found as. */
    method Retry(id: Id) returns (out: Outcome<bool>)
      requires Valid()
      modifies this
      ensures Valid() && (Snapshot(), out) == (S.Retry(options, old(Snapshot()), id).state, S.Retry(options, old(Snapshot()), id).out)
    {
      var info := GetInfoById(id, allFiles, fileInfos);
      if info.None? {
        return Throw("The retry upload file does not exist");
      }
      S.FoundIsStored(Snapshot(), id);
      if info.value.kind == FileUnit {
        out := RetryFile(id);
      } else {
        out := RetryChunk(id);
      }
    }

    method RetryFile(id: Id) returns (out: Outcome<bool>)
      requires Valid() && id in fileInfos
      modifies this
      ensures Valid() && (Snapshot(), out) == (S.RetryFile(options, old(Snapshot()), id).state, S.RetryFile(options, old(Snapshot()), id).out)
    {
      RetryFileIs(options, Snapshot(), id);
      RechargeFile(id);
      var removed := DropUploadingFile(id);
      if removed.None? {
        return Throw(S.NotInUploading("files", id, "uploadingFiles"));
      }
      RequeueFile(id);
      out := AfterRetry();
    }

    method RetryChunk(id: Id) returns (out: Outcome<bool>)
      requires Valid() && id in chunkInfos
      modifies this
      ensures Valid() && (Snapshot(), out) == (S.RetryChunk(options, old(Snapshot()), id).state, S.RetryChunk(options, old(Snapshot()), id).out)
    {
      RetryChunkIs(options, Snapshot(), id);
      RechargeChunk(id);
      var removed := DropUploadingChunk(id);
      if removed.None? {
        return Throw(S.NotInUploading("files", id, "uploadingFiles"));
      }
      RequeueChunk(id);
      out := AfterRetry();
    }

    /** One retry taken from the file's budget, refilled first when it is spent. */
    method RechargeFile(id: Id)
      requires id in fileInfos
      modifies this
      ensures var s := old(Snapshot()); var f := s.fileInfos[id];
        Snapshot() == s.(fileInfos := s.fileInfos[id := f.(retryCount := S.NextRetryCount(options, f.retryCount))])
    {
      fileInfos := fileInfos[id := fileInfos[id].(retryCount := S.NextRetryCount(options, fileInfos[id].retryCount))];
    }

    /** One retry taken from the chunk's budget, refilled first when it is spent. */
    method RechargeChunk(id: Id)
      requires id in chunkInfos
      modifies this
      ensures var s := old(Snapshot()); var c := s.chunkInfos[id];
        Snapshot() == s.(chunkInfos := s.chunkInfos[id := c.(retryCount := S.NextRetryCount(options, c.retryCount))])
    {
      chunkInfos := chunkInfos[id := chunkInfos[id].(retryCount := S.NextRetryCount(options, chunkInfos[id].retryCount))];
    }

    /** The file marked waiting, put at the front of `waitingUploadFiles`, and `onRetry` called. */
    method RequeueFile(id: Id)
      requires id in fileInfos
      modifies this
      ensures var s := old(Snapshot());
        Snapshot() == s.(fileInfos := s.fileInfos[id := s.fileInfos[id].(status := Waiting)],
                         waitingUploadFiles := [id] + s.waitingUploadFiles, events := s.events + [S.Retried(FileUnit, id)])
    {
      fileInfos := fileInfos[id := fileInfos[id].(status := Waiting)];
      waitingUploadFiles := [id] + waitingUploadFiles;
      events := events + [S.Retried(FileUnit, id)];
    }

    /** The chunk marked waiting, put at the front of `waitingUploadChunks`, and `onChunkRetry` called. */
    method RequeueChunk(id: Id)
      requires id in chunkInfos
      modifies this
      ensures var s := old(Snapshot());
        Snapshot() == s.(chunkInfos := s.chunkInfos[id := s.chunkInfos[id].(status := Waiting)],
                         waitingUploadChunks := [id] + s.waitingUploadChunks, events := s.events + [S.Retried(ChunkUnit, id)])
    {
      chunkInfos := chunkInfos[id := chunkInfos[id].(status := Waiting)];
      waitingUploadChunks := [id] + waitingUploadChunks;
      events := events + [S.Retried(ChunkUnit, id)];
    }

    /** Free slots refilled; an exception of the loop passes through, otherwise `true`. */
    method AfterRetry() returns (out: Outcome<bool>)
      requires Valid()
      modifies this
      ensures Valid() && (Snapshot(), out) == (S.AfterRetry(options, old(Snapshot())).state, S.AfterRetry(options, old(Snapshot())).out)
    {
      var remaining := S.RemainingThreads(options, Snapshot());
      if remaining > 0 {
        var p := LoopStart(remaining);
        out := if p.Throw? then Throw(p.message) else Return(true);
      } else {
        out := Return(true);
      }
    }
    // -------------------------------------------------------------------
    // handleErrorUpload
    // -------------------------------------------------------------------

    method ErrorUpload(kind: UploadType, id: Id) returns (out: Outcome<()>)
      requires Valid() && S.Stored(Snapshot(), kind, id)
      modifies this
      ensures Valid() && (Snapshot(), out) == (S.ErrorUpload(options, old(Snapshot()), kind, id).state, S.ErrorUpload(options, old(Snapshot()), kind, id).out)
    {
      ghost var s := Snapshot();
      var loaded := if kind == FileUnit then fileInfos[id].loaded else chunkInfos[id].loaded;
      var retryCount := if kind == FileUnit then fileInfos[id].retryCount else chunkInfos[id].retryCount;
      TakeBack(loaded);
      assert Snapshot() == S.Charged(s, kind, id);
      if retryCount != 0 {
        F.ErrorUploadRetries(options, s, kind, id);
        var p := Retry(id);
        out := if p.Throw? then Throw(p.message) else Return(());
      } else if kind == FileUnit {
        F.ErrorUploadFailsFile(options, s, id);
        out := FailFile(id, loaded);
      } else {
        F.ErrorUploadFailsChunk(options, s, id);
        out := FailChunk(id);
      }
    }

    /** The unit's loaded bytes taken back from `loadedSize`, one unit fewer in flight. */
    method TakeBack(loaded: int)
      modifies this
      ensures Snapshot() == old(Snapshot()).(loadedSize := old(loadedSize) - loaded, uploadingCount := old(uploadingCount) - 1)
    {
      loadedSize := loadedSize - loaded;
      uploadingCount := uploadingCount - 1;
    }

    method FailFile(id: Id, loaded: int) returns (out: Outcome<()>)
      requires Valid() && id in fileInfos
      modifies this
      ensures Valid() && (Snapshot(), out) == (S.FailFile(options, old(Snapshot()), id, loaded).state, S.FailFile(options, old(Snapshot()), id, loaded).out)
    {
      var removed := DropUploadingFileKeepsValid(id);
      if removed.None? {
        return Throw(S.NotInUploading("files", id, "uploadingFiles"));
      }
      MarkFileFailed(id, loaded);
      out := Refill();
    }

    method FailChunk(id: Id) returns (out: Outcome<()>)
      requires Valid() && id in chunkInfos
      modifies this
      ensures Valid() && (Snapshot(), out) == (S.FailChunk(options, old(Snapshot()), id).state, S.FailChunk(options, old(Snapshot()), id).out)
    {
      var removed := DropUploadingChunkKeepsValid(id);
      if removed.None? {
        return Throw(S.NotInUploading("chunks", id, "uploadingChunks"));
      }
      MarkChunkFailed(id);
      var owner := chunkInfos[id].belongFile;
      var removedFile := DropUploadingFileKeepsValid(owner);
      if removedFile.None? {
        return Throw(S.NotInUploading("files", id, "uploadingFiles"));
      }
      TearDownFile(owner, id);
      out := Refill();
    }

    /** `removeInfoById(id, uploadingFiles)` on a valid object. */
    method DropUploadingFileKeepsValid(id: Id) returns (removed: Option<Id>)
      requires Valid()
      modifies this
      ensures Valid()
      ensures var rm := RemoveFirst(id, old(uploadingFiles));
        removed == rm.0 && Snapshot() == old(Snapshot()).(uploadingFiles := rm.1)
    {
      removed := DropUploadingFile(id);
    }

    /** `removeInfoById(id, uploadingChunks)` on a valid object. */
    method DropUploadingChunkKeepsValid(id: Id) returns (removed: Option<Id>)
      requires Valid()
      modifies this
      ensures Valid()
      ensures var rm := RemoveFirst(id, old(uploadingChunks));
        removed == rm.0 && Snapshot() == old(Snapshot()).(uploadingChunks := rm.1)
    {
      removed := DropUploadingChunk(id);
    }

    /** The file marked error with progress 100, pushed onto `errorUploadFiles`, its bytes counted, `onError` called. */
    method MarkFileFailed(id: Id, loaded: int)
      requires Valid() && id in fileInfos
      modifies this
      ensures Valid() && Snapshot() == S.FileMarkedFailed(old(Snapshot()), id, loaded)
    {
      S.FileFailureKeepsWf(Snapshot(), id, loaded);
      MarkFileFailedFields(id, loaded);
    }

    /** The field updates of `MarkFileFailed`. */
    method MarkFileFailedFields(id: Id, loaded: int)
      requires id in fileInfos
      modifies this
      ensures Snapshot() == S.FileFailure(old(Snapshot()), id, loaded)
    {
      var f := fileInfos[id];
      fileInfos := fileInfos[id := f.(status := Error, progress := Literal(100))];
      errorUploadFiles := errorUploadFiles + [id];
      loadedSize := loadedSize + S.FailedCredit(f, loaded);
      events := events + [S.Failed(FileUnit, id)];
    }

    /** The chunk marked error and pushed onto `errorUploadChunks`. */
    method MarkChunkFailed(id: Id)
      requires Valid() && id in chunkInfos
      modifies this
      ensures Valid() && Snapshot() == S.ChunkMarkedFailed(old(Snapshot()), id)
    {
      S.ChunkFailureKeepsWf(Snapshot(), id);
      MarkChunkFailedFields(id);
    }

    /** The field updates of `MarkChunkFailed`. */
    method MarkChunkFailedFields(id: Id)
      requires id in chunkInfos
      modifies this
      ensures Snapshot() == S.ChunkFailure(old(Snapshot()), id)
    {
      chunkInfos := chunkInfos[id := chunkInfos[id].(status := Error)];
      errorUploadChunks := errorUploadChunks + [id];
    }

    /** The owner failed: error with progress 100, chunk lists emptied, full size counted, `onError` called. */
    method TearDownFile(owner: Id, id: Id)
      requires Valid() && owner in fileInfos
      modifies this
      ensures Valid() && Snapshot() == S.FileTornDown(old(Snapshot()), owner, id)
    {
      S.TearDownKeepsWf(Snapshot(), owner, id);
      TearDownFileFields(owner, id);
    }

    /** The field updates of `TearDownFile`. */
    method TearDownFileFields(owner: Id, id: Id)
      requires owner in fileInfos
      modifies this
      ensures Snapshot() == S.TearDown(old(Snapshot()), owner, id)
    {
      var f := fileInfos[owner];
      fileInfos := fileInfos[owner := f.(status := Error, progress := Literal(100))];
      allChunks := [];
      waitingUploadChunks := [];
      uploadingChunks := [];
      errorUploadChunks := [];
      errorUploadFiles := errorUploadFiles + [owner];
      loadedSize := loadedSize + f.size;
      events := events + [S.Failed(ChunkUnit, id)];
    }
    // -------------------------------------------------------------------
    // chunkCompleteCallback
    // -------------------------------------------------------------------

    /** The continuation handed to `onChunkComplete`. */
    method ChunkCompleteCallback(errorMessage: Option<string>, fileId: Id, isRetry: bool) returns (out: Outcome<()>)
      requires Valid() && fileId in fileInfos
      modifies this
      ensures Valid()
      ensures (Snapshot(), out) == (S.ChunkCompleteCallback(options, old(Snapshot()), errorMessage, fileId, isRetry).state,
                                    S.ChunkCompleteCallback(options, old(Snapshot()), errorMessage, fileId, isRetry).out)
    {
      if S.Truthy(errorMessage) {
        S.ResetBudgetKeepsWf(options, Snapshot(), fileId, isRetry);
        ResetBudget(fileId, isRetry);
        out := ErrorUpload(FileUnit, fileId);
      } else {
        out := SuccessUpload(FileUnit, fileId);
      }
    }

    /** A rejected completion: a fresh budget and no loaded bytes when `isRetry`, no budget otherwise. */
    method ResetBudget(fileId: Id, isRetry: bool)
      requires fileId in fileInfos
      modifies this
      ensures Snapshot() == S.ResetBudget(options, old(Snapshot()), fileId, isRetry)
    {
      var f := fileInfos[fileId];
      if isRetry {
        fileInfos := fileInfos[fileId := f.(loaded := 0, retryCount := S.RetryBudget(options))];
        loadedSize := loadedSize - f.loaded;
      } else {
        fileInfos := fileInfos[fileId := f.(retryCount := 0)];
      }
    }

    // -------------------------------------------------------------------
    // handleProgressChange
    // -------------------------------------------------------------------

    method ProgressChange(kind: UploadType, id: Id, loaded: int, total: int)
      requires Valid() && S.Stored(Snapshot(), kind, id)
      modifies this
      ensures Valid() && Snapshot() == S.ProgressChange(old(Snapshot()), kind, id, loaded, total)
    {
      ghost var s := Snapshot();
      if loaded == total && kind == FileUnit {
        S.CompleteFileSampleKeepsWf(s, id);
        CompleteFileSample(id);
      } else if loaded == total {
        S.CompleteChunkSampleKeepsWf(s, id);
        CompleteChunkSample(id);
      } else if kind == FileUnit {
        S.PartialFileSampleKeepsWf(s, id, loaded, total);
        PartialFileSample(id, loaded, total);
      } else {
        S.PartialChunkSampleKeepsWf(s, id, loaded);
        PartialChunkSample(id, loaded);
      }
    }

    /** A completing file sample: fully loaded, progress 100, its size credited. */
    method CompleteFileSample(id: Id)
      requires id in fileInfos
      modifies this
      ensures Snapshot() == S.CompleteFileSample(old(Snapshot()), id)
    {
      var infoSize := fileInfos[id].size;
      fileInfos := fileInfos[id := fileInfos[id].(loaded := infoSize, progress := Literal(100))];
      loadedSize := loadedSize - prevLoaded + infoSize;
      prevLoaded := 0;
    }

    /** A completing chunk sample: fully loaded, its owner's share of chunks so far, its size credited. */
    method CompleteChunkSample(id: Id)
      requires id in chunkInfos && chunkInfos[id].belongFile in fileInfos
      modifies this
      ensures Snapshot() == S.CompleteChunkSample(old(Snapshot()), id)
    {
      var c := chunkInfos[id];
      var owner := fileInfos[c.belongFile];
      chunkInfos := chunkInfos[id := c.(loaded := c.size)];
      fileInfos := fileInfos[c.belongFile := owner.(progress := S.ChunkDoneProgress(owner, c))];
      loadedSize := loadedSize - prevLoaded + c.size;
      prevLoaded := 0;
    }

    /** A partial file sample: the bytes so far and their share of the total. */
    method PartialFileSample(id: Id, loaded: int, total: int)
      requires id in fileInfos
      modifies this
      ensures Snapshot() == S.PartialFileSample(old(Snapshot()), id, loaded, total)
    {
      loadedSize := loadedSize - prevLoaded + loaded;
      prevLoaded := loaded;
      fileInfos := fileInfos[id := fileInfos[id].(loaded := loaded, progress := Ratio(loaded, total))];
    }

    /** A partial chunk sample: the chunk's bytes so far, its owner's share of bytes so far. */
    method PartialChunkSample(id: Id, loaded: int)
      requires id in chunkInfos && chunkInfos[id].belongFile in fileInfos
      modifies this
      ensures Snapshot() == S.PartialChunkSample(old(Snapshot()), id, loaded)
    {
      var c := chunkInfos[id];
      var owner := fileInfos[c.belongFile];
      chunkInfos := chunkInfos[id := c.(loaded := loaded)];
      fileInfos := fileInfos[c.belongFile := owner.(progress := S.ChunkPartialProgress(owner, c, loaded))];
      loadedSize := loadedSize - prevLoaded + loaded;
      prevLoaded := loaded;
    }
      // -------------------------------------------------------------------
    // toSuccessful, remove, clearStats
    // -------------------------------------------------------------------

    /** `toSuccessful(id)`: the lookup, then the start, a completing sample and the success of what it found. */
    method ToSuccessful(id: Id) returns (out: Outcome<()>)
      requires Valid()
      modifies this
      ensures Valid() && (Snapshot(), out) == (S.ToSuccessful(options, old(Snapshot()), id).state, S.ToSuccessful(options, old(Snapshot()), id).out)
    {
      ghost var s := Snapshot();
      var info := GetInfoById(id, allFiles, fileInfos);
      if info.None? {
        return Throw("The id passed in when the toSuccessful method is called does not exist");
      }
      S.FoundIsStored(s, id);
      out := Replay(info.value.kind, id);
    }

    /** `handleStartUpload`, `handleProgressChange` with `{loaded: 1, total: 1}`, `handleSuccessUpload`. */
    method Replay(kind: UploadType, id: Id) returns (out: Outcome<()>)
      requires Valid() && S.Stored(Snapshot(), kind, id)
      modifies this
      ensures Valid() && (Snapshot(), out) == (S.Replay(options, old(Snapshot()), kind, id).state, S.Replay(options, old(Snapshot()), kind, id).out)
    {
      out := StartUpload(kind);
      if out.Throw? {
        return;
      }
      ProgressChange(kind, id, 1, 1);
      out := SuccessUpload(kind, id);
    }

    /** `remove(id)`: the id spliced out of each of the six file lists in turn, its size taken off once. */
    method Remove(id: Id) returns (out: Outcome<bool>)
      requires Valid()
      modifies this
      ensures Valid() && (Snapshot(), out) == (S.Remove(old(Snapshot()), id).state, S.Remove(old(Snapshot()), id).out)
    {
      ghost var s := Snapshot();
      if id == "" {
        return Throw("uploader.remove(id: string): The id must be a string.");
      }
      var info := GetInfoById(id, allFiles, fileInfos);
      if info.None? {
        return Return(false);
      }
      S.SplicedKeepsWf(s, id);
      var isRemove := SpliceOut(id);
      if !isRemove {
        return Return(false);
      }
      Debit(fileInfos[id].size);
      out := Return(true);
    }

    /** `loadedSize -= size`. */
    method Debit(size: int)
      modifies this
      ensures Snapshot() == old(Snapshot()).(loadedSize := old(loadedSize) - size)
    {
      loadedSize := loadedSize - size;
    }

    /** The six `removeInfoFromFilesInfoById` calls, in the order the source makes them: whether any removed something. */
    method SpliceOut(id: Id) returns (isRemove: bool)
      modifies this
      ensures Snapshot() == S.Spliced(old(Snapshot()), id)
      ensures isRemove == S.HeldAnywhere(old(Snapshot()), id)
    {
      var first := SpliceOutOfQueues(id);
      var second := SpliceOutOfResults(id);
      isRemove := first || second;
    }

    /** The splices from `allFiles`, `waitingUploadFiles` and `uploadingFiles`. */
    method SpliceOutOfQueues(id: Id) returns (removedAny: bool)
      modifies this
      ensures allFiles == RemoveFirst(id, old(allFiles)).1 && waitingUploadFiles == RemoveFirst(id, old(waitingUploadFiles)).1
      ensures uploadingFiles == RemoveFirst(id, old(uploadingFiles)).1
      ensures unchanged(`fileInfos, `chunkInfos, `uploadedFiles, `errorUploadFiles, `invalidFiles,
                        `allChunks, `waitingUploadChunks, `uploadingChunks, `uploadedChunks, `errorUploadChunks,
                        `uploadingCount, `loadedSize, `prevLoaded, `events)
      ensures removedAny == (RemoveFirst(id, old(allFiles)).0.Some? || RemoveFirst(id, old(waitingUploadFiles)).0.Some?
                             || RemoveFirst(id, old(uploadingFiles)).0.Some?)
    {
      var a, w, u;
      a, allFiles := RemoveInfoById(id, allFiles);
      w, waitingUploadFiles := RemoveInfoById(id, waitingUploadFiles);
      u, uploadingFiles := RemoveInfoById(id, uploadingFiles);
      removedAny := a.Some? || w.Some? || u.Some?;
    }

    /** The splices from `uploadedFiles`, `errorUploadFiles` and `invalidFiles`. */
    method SpliceOutOfResults(id: Id) returns (removedAny: bool)
      modifies this
      ensures uploadedFiles == RemoveFirst(id, old(uploadedFiles)).1 && errorUploadFiles == RemoveFirst(id, old(errorUploadFiles)).1
      ensures invalidFiles == RemoveFirst(id, old(invalidFiles)).1
      ensures unchanged(`fileInfos, `chunkInfos, `allFiles, `waitingUploadFiles, `uploadingFiles,
                        `allChunks, `waitingUploadChunks, `uploadingChunks, `uploadedChunks, `errorUploadChunks,
                        `uploadingCount, `loadedSize, `prevLoaded, `events)
      ensures removedAny == (RemoveFirst(id, old(uploadedFiles)).0.Some? || RemoveFirst(id, old(errorUploadFiles)).0.Some?
                             || RemoveFirst(id, old(invalidFiles)).0.Some?)
    {
      var d, e, v;
      d, uploadedFiles := RemoveInfoById(id, uploadedFiles);
      e, errorUploadFiles := RemoveInfoById(id, errorUploadFiles);
      v, invalidFiles := RemoveInfoById(id, invalidFiles);
      removedAny := d.Some? || e.Some? || v.Some?;
    }

    /** `clearStats()`: every list emptied, both byte counters zeroed. */
    method ClearStats()
      requires Valid()
      modifies this
      ensures Valid() && Snapshot() == S.ClearStats(old(Snapshot()))
    {
      ClearLists();
    }

    /** The assignments of `clearStats`: the file lists, the chunk lists, then the byte counters. */
    method ClearLists()
      modifies this
      ensures Snapshot() == S.ClearStats(old(Snapshot()))
    {
      ClearFileLists();
      ClearChunkLists();
      loadedSize := 0;
      prevLoaded := 0;
    }

    method ClearFileLists()
      modifies this
      ensures allFiles == [] && waitingUploadFiles == [] && uploadingFiles == [] && uploadedFiles == [] && errorUploadFiles == [] && invalidFiles == []
      ensures unchanged(`fileInfos, `chunkInfos, `allChunks, `waitingUploadChunks, `uploadingChunks, `uploadedChunks, `errorUploadChunks,
                        `uploadingCount, `loadedSize, `prevLoaded, `events)
    {
      allFiles := [];
      waitingUploadFiles := [];
      uploadingFiles := [];
      uploadedFiles := [];
      errorUploadFiles := [];
      invalidFiles := [];
    }

    method ClearChunkLists()
      modifies this
      ensures allChunks == [] && waitingUploadChunks == [] && uploadingChunks == [] && uploadedChunks == [] && errorUploadChunks == []
      ensures unchanged(`fileInfos, `chunkInfos, `allFiles, `waitingUploadFiles, `uploadingFiles, `uploadedFiles, `errorUploadFiles, `invalidFiles,
                        `uploadingCount, `loadedSize, `prevLoaded, `events)
    {
      allChunks := [];
      waitingUploadChunks := [];
      uploadingChunks := [];
      uploadedChunks := [];
      errorUploadChunks := [];
    }

    // -------------------------------------------------------------------
    // The pre-flight gate's answers
    // -------------------------------------------------------------------

    /** `beforeUploadCallback(errorMessage)`: a rejection invalidates the head waiting file, else the transport is called. */
    method BeforeUploadCallback(errorMessage: Option<string>)
      requires Valid()
      modifies this
      ensures Valid() && Snapshot() == S.BeforeUploadCallback(old(Snapshot()), errorMessage)
    {
      if S.Truthy(errorMessage) {
        if |waitingUploadFiles| > 0 {
          S.InvalidatedKeepsWf(Snapshot());
          Invalidate();
        }
        return;
      }
      var head := if |waitingUploadFiles| > 0 then Some(waitingUploadFiles[0]) else None;
      events := events + [S.AdapterCalled(FileUnit, head)];
    }

    /** `waitingUploadFiles.shift()`, status invalid, pushed onto `invalidFiles`. */
    method Invalidate()
      requires |waitingUploadFiles| > 0 && waitingUploadFiles[0] in fileInfos
      modifies this
      ensures Snapshot() == S.Invalidated(old(Snapshot()))
    {
      var h := waitingUploadFiles[0];
      waitingUploadFiles := waitingUploadFiles[1..];
      fileInfos := fileInfos[h := fileInfos[h].(status := Invalid)];
      invalidFiles := invalidFiles + [h];
    }

    /** `beforeChunkUploadCallback(errorMessage)`: a rejection moves the head waiting file to `invalidFiles`, status unchanged. */
    method BeforeChunkUploadCallback(errorMessage: Option<string>)
      requires Valid()
      modifies this
      ensures Valid() && Snapshot() == S.BeforeChunkUploadCallback(old(Snapshot()), errorMessage)
    {
      if S.Truthy(errorMessage) {
        if |waitingUploadFiles| > 0 {
          var h := waitingUploadFiles[0];
          waitingUploadFiles := waitingUploadFiles[1..];
          invalidFiles := invalidFiles + [h];
        }
        return;
      }
      var head := if |waitingUploadChunks| > 0 then Some(waitingUploadChunks[0]) else None;
      events := events + [S.AdapterCalled(ChunkUnit, head)];
    }
  }
}
