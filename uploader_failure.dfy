/**
 * Properties of failure handling in module UploaderState: `retry`, the
 * retry budget spent by `handleErrorUpload`, the teardown of a whole file
 * after a chunk's terminal failure, and the continuation handed to
 * `onChunkComplete`.
 */
module UploaderFailure {
  import opened Entities
  import opened Utils
  import opened UploaderState
  import opened UploaderProps

  // ---------------------------------------------------------------------
  // retry
  // ---------------------------------------------------------------------

  /** With something waiting, the refill after a retry only dispatches and returns true. */
  lemma AfterRetryOnlyDispatches(o: Options, s: State)
    requires Wf(s) && (|s.waitingUploadChunks| > 0 || |s.waitingUploadFiles| > 0)
    ensures AfterRetry(o, s).out == Return(true)
    ensures DispatchOnly(s, AfterRetry(o, s).state)
  {
    if RemainingThreads(o, s) > 0 {
      LoopStartDoesNotThrow(s, RemainingThreads(o, s));
    }
  }

  /** The record of file `id` with its budget consumed, as `retry` leaves it. */
  function FileRetried(o: Options, s: State, id: Id): FileInfo
    requires id in s.fileInfos
  {
    s.fileInfos[id].(retryCount := NextRetryCount(o, s.fileInfos[id].retryCount))
  }

  /** The record of chunk `id` with its budget consumed, as `retry` leaves it. */
  function ChunkRetried(o: Options, s: State, id: Id): ChunkInfo
    requires id in s.chunkInfos
  {
    s.chunkInfos[id].(retryCount := NextRetryCount(o, s.chunkInfos[id].retryCount))
  }

  /** The state a file retry hands to the refill. */
  function FileRequeued(o: Options, s: State, id: Id): (t: State)
    requires Wf(s) && id in s.fileInfos
    ensures Wf(t) && |t.waitingUploadFiles| > 0
  {
    Log(SetFile(s, id, FileRetried(o, s, id).(status := Waiting))
          .(uploadingFiles := RemoveFirst(id, s.uploadingFiles).1,
            waitingUploadFiles := [id] + s.waitingUploadFiles),
        Retried(FileUnit, id))
  }

  /** The state a chunk retry hands to the refill. */
  function ChunkRequeued(o: Options, s: State, id: Id): (t: State)
    requires Wf(s) && id in s.chunkInfos
    ensures Wf(t) && |t.waitingUploadChunks| > 0
  {
    Log(SetChunk(s, id, ChunkRetried(o, s, id).(status := Waiting))
          .(uploadingChunks := RemoveFirst(id, s.uploadingChunks).1,
            waitingUploadChunks := [id] + s.waitingUploadChunks),
        Retried(ChunkUnit, id))
  }

  lemma RetryFileSteps(o: Options, s: State, id: Id)
    requires Wf(s) && id in s.fileInfos
    ensures id !in s.uploadingFiles ==>
              RetryFile(o, s, id) == Step(SetFile(s, id, FileRetried(o, s, id)),
                                          Throw(NotInUploading("files", id, "uploadingFiles")))
    ensures id in s.uploadingFiles ==> RetryFile(o, s, id) == AfterRetry(o, FileRequeued(o, s, id))
  {
    var f := FileRetried(o, s, id);
    assert s.fileInfos[id := f][id := f.(status := Waiting)] == s.fileInfos[id := f.(status := Waiting)];
  }

  lemma RetryChunkSteps(o: Options, s: State, id: Id)
    requires Wf(s) && id in s.chunkInfos
    ensures id !in s.uploadingChunks ==>
              RetryChunk(o, s, id) == Step(SetChunk(s, id, ChunkRetried(o, s, id)),
                                           Throw(NotInUploading("files", id, "uploadingFiles")))
    ensures id in s.uploadingChunks ==> RetryChunk(o, s, id) == AfterRetry(o, ChunkRequeued(o, s, id))
  {
    var c := ChunkRetried(o, s, id);
    assert s.chunkInfos[id := c][id := c.(status := Waiting)] == s.chunkInfos[id := c.(status := Waiting)];
  }

  /**
   * Retrying a file consumes one unit of its budget (refilled first when it
   * was 0), even when the call then throws because the file is not
   * uploading. Otherwise the file leaves `uploadingFiles` by id, becomes
   * waiting at the FRONT of `waitingUploadFiles`, and the call returns true;
   * the other buckets and the counters are unchanged.
   */
  lemma RetryFileLaw(o: Options, s: State, id: Id)
    requires Wf(s) && id in s.fileInfos
    ensures var r := RetryFile(o, s, id); var f := s.fileInfos[id];
      && (r.out.Throw? <==> id !in s.uploadingFiles)
      && (id !in s.uploadingFiles ==>
            && r.out.message == NotInUploading("files", id, "uploadingFiles")
            && r.state == s.(fileInfos := s.fileInfos[id := f.(retryCount := NextRetryCount(o, f.retryCount))]))
      && (id in s.uploadingFiles ==>
            && r.out == Return(true)
            && r.state.fileInfos == s.fileInfos[id := f.(retryCount := NextRetryCount(o, f.retryCount), status := Waiting)]
            && r.state.waitingUploadFiles == [id] + s.waitingUploadFiles
            && |r.state.uploadingFiles| == |s.uploadingFiles| - 1
            && (forall x :: x != id ==> (x in r.state.uploadingFiles <==> x in s.uploadingFiles))
            && r.state.allFiles == s.allFiles && r.state.uploadedFiles == s.uploadedFiles
            && r.state.errorUploadFiles == s.errorUploadFiles && r.state.invalidFiles == s.invalidFiles
            && r.state.uploadingCount == s.uploadingCount && r.state.loadedSize == s.loadedSize
            && s.events + [Retried(FileUnit, id)] <= r.state.events)
  {
    RetryFileSteps(o, s, id);
    if id in s.uploadingFiles {
      var t := FileRequeued(o, s, id);
      AfterRetryOnlyDispatches(o, t);
      forall x | x != id ensures x in t.uploadingFiles <==> x in s.uploadingFiles {
        RemoveFirstMembers(id, s.uploadingFiles, x);
      }
    }
  }

  /**
   * Retrying a chunk consumes one unit of its budget (refilled from the
   * options when it was 0, as for files). A chunk that is not uploading
   * throws with the message that names the FILE queue; otherwise the chunk
   * leaves `uploadingChunks` by id and becomes waiting at the front of
   * `waitingUploadChunks`, the files are untouched, and the call returns
   * true.
   */
  lemma RetryChunkLaw(o: Options, s: State, id: Id)
    requires Wf(s) && id in s.chunkInfos
    ensures var r := RetryChunk(o, s, id); var c := s.chunkInfos[id];
      && (r.out.Throw? <==> id !in s.uploadingChunks)
      && FilesUntouched(s, r.state)
      && r.state.uploadingCount == s.uploadingCount && r.state.loadedSize == s.loadedSize
      && (id !in s.uploadingChunks ==>
            && r.out.message == NotInUploading("files", id, "uploadingFiles")
            && r.state == s.(chunkInfos := s.chunkInfos[id := c.(retryCount := NextRetryCount(o, c.retryCount))]))
      && (id in s.uploadingChunks ==>
            && r.out == Return(true)
            && r.state.chunkInfos == s.chunkInfos[id := c.(retryCount := NextRetryCount(o, c.retryCount), status := Waiting)]
            && r.state.waitingUploadChunks == [id] + s.waitingUploadChunks
            && |r.state.uploadingChunks| == |s.uploadingChunks| - 1
            && (forall x :: x != id ==> (x in r.state.uploadingChunks <==> x in s.uploadingChunks))
            && s.events + [Retried(ChunkUnit, id)] <= r.state.events)
  {
    RetryChunkSteps(o, s, id);
    if id in s.uploadingChunks {
      var t := ChunkRequeued(o, s, id);
      AfterRetryOnlyDispatches(o, t);
      LoopStartChunkWaiting(t, RemainingThreads(o, t));
      forall x | x != id ensures x in t.uploadingChunks <==> x in s.uploadingChunks {
        RemoveFirstMembers(id, s.uploadingChunks, x);
      }
    }
  }

  /**
   * The lookup of `retry`: an unknown id throws and changes nothing; a
   * listed file is retried as a file; a chunk whose owner is listed is
   * retried as a chunk (ids are unique across files and chunks).
   */
  lemma RetryDispatch(o: Options, s: State, id: Id)
    requires Wf(s)
    ensures FindInfo(id, s.allFiles, s.fileInfos).None? ==>
              Retry(o, s, id) == Step(s, Throw("The retry upload file does not exist"))
    ensures id in s.allFiles ==> Retry(o, s, id) == RetryFile(o, s, id)
    ensures id in s.chunkInfos && s.chunkInfos[id].belongFile in s.allFiles ==>
              Retry(o, s, id) == RetryChunk(o, s, id)
  {
    if id in s.allFiles {
      forall f | f in s.allFiles ensures id !in ChunksOf(s.fileInfos[f]) {
        ListedChunksStored(s, f);
      }
      FindInfoFindsFile(id, s.allFiles, s.fileInfos);
    } else if id in s.chunkInfos && s.chunkInfos[id].belongFile in s.allFiles {
      FindInfoFindsChunk(id, s.allFiles, s.fileInfos, s.chunkInfos[id].belongFile);
    }
  }

  /**
   * `retry(id)` throws exactly when the id is unknown or the unit it names
   * is not in its own uploading queue.
   */
  lemma RetryThrowsExactly(o: Options, s: State, id: Id)
    requires Wf(s)
    ensures var info := FindInfo(id, s.allFiles, s.fileInfos);
      Retry(o, s, id).out.Throw? <==>
        || info.None?
        || (info.value.kind == FileUnit && id !in s.uploadingFiles)
        || (info.value.kind == ChunkUnit && id !in s.uploadingChunks)
  {
    var info := FindInfo(id, s.allFiles, s.fileInfos);
    if info.Some? {
      FoundIsStored(s, id);
      if info.value.kind == FileUnit {
        RetryFileLaw(o, s, id);
      } else {
        RetryChunkLaw(o, s, id);
      }
    }
  }

  lemma FileRequeuedPartitioned(o: Options, s: State, id: Id)
    requires Wf(s) && FilesPartitioned(s) && id in s.fileInfos && id in s.uploadingFiles
    ensures FilesPartitioned(FileRequeued(o, s, id))
  {
    AllBucketsWf(s);
    ExactlyOneBucket(s, id, Waiting);
    assert BucketWf(s, Uploading);
    RemoveFirstExactly(id, s.uploadingFiles);
    NoDupAdd(s.waitingUploadFiles, id);
    MovePartitioned(s, FileRequeued(o, s, id), id, Uploading, Waiting);
  }

  /** `retry` keeps the partition of the listed files, whether it throws or not. */
  lemma RetryPreservesPartition(o: Options, s: State, id: Id)
    requires Wf(s) && FilesPartitioned(s)
    ensures FilesPartitioned(Retry(o, s, id).state)
  {
    var info := FindInfo(id, s.allFiles, s.fileInfos);
    if info.Some? {
      FoundIsStored(s, id);
      if info.value.kind == FileUnit {
        RetryFileSteps(o, s, id);
        if id in s.uploadingFiles {
          var t := FileRequeued(o, s, id);
          FileRequeuedPartitioned(o, s, id);
          AfterRetryOnlyDispatches(o, t);
          FilesUntouchedPartitioned(t, AfterRetry(o, t).state);
        } else {
          SameFilesPartitioned(s, SetFile(s, id, FileRetried(o, s, id)));
        }
      } else {
        RetryChunkLaw(o, s, id);
        FilesUntouchedPartitioned(s, Retry(o, s, id).state);
      }
    }
  }

  // ---------------------------------------------------------------------
  // handleErrorUpload
  // ---------------------------------------------------------------------

  /** Taking back an error report's bytes touches no file record or file bucket. */
  lemma ChargedUntouched(s: State, kind: UploadType, id: Id)
    requires Wf(s) && Stored(s, kind, id)
    ensures FilesUntouched(s, Charged(s, kind, id))
  {
  }

  /** An error report with budget left is a retry from the charged state. */
  lemma ErrorUploadRetries(o: Options, s: State, kind: UploadType, id: Id)
    requires Wf(s) && Stored(s, kind, id) && RetryCountOf(s, kind, id) != 0
    ensures ErrorUpload(o, s, kind, id) == Discard(Retry(o, Charged(s, kind, id), id))
  {
  }

  /** An error report on a file with no budget left fails it. */
  lemma ErrorUploadFailsFile(o: Options, s: State, id: Id)
    requires Wf(s) && id in s.fileInfos && s.fileInfos[id].retryCount == 0
    ensures ErrorUpload(o, s, FileUnit, id) == FailFile(o, Charged(s, FileUnit, id), id, s.fileInfos[id].loaded)
  {
  }

  /** An error report on a chunk with no budget left fails it. */
  lemma ErrorUploadFailsChunk(o: Options, s: State, id: Id)
    requires Wf(s) && id in s.chunkInfos && s.chunkInfos[id].retryCount == 0
    ensures ErrorUpload(o, s, ChunkUnit, id) == FailChunk(o, Charged(s, ChunkUnit, id), id)
  {
  }

  /**
   * A failed file with budget left is handed back to `retry`: its loaded
   * bytes are taken back, one unit less is in flight, and it waits again at
   * the front of the queue with one unit less of budget.
   */
  lemma ErrorRequeuesWhileBudgetLeft(o: Options, s: State, id: Id)
    requires Wf(s) && id in s.allFiles && s.fileInfos[id].retryCount != 0
    ensures var r := ErrorUpload(o, s, FileUnit, id); var f := s.fileInfos[id];
      && (r.out.Throw? <==> id !in s.uploadingFiles)
      && (id in s.uploadingFiles ==>
            && r.state.fileInfos == s.fileInfos[id := f.(retryCount := f.retryCount - 1, status := Waiting)]
            && r.state.waitingUploadFiles == [id] + s.waitingUploadFiles
            && |r.state.uploadingFiles| == |s.uploadingFiles| - 1
            && (forall x :: x != id ==> (x in r.state.uploadingFiles <==> x in s.uploadingFiles))
            && r.state.allFiles == s.allFiles && r.state.errorUploadFiles == s.errorUploadFiles
            && r.state.loadedSize == s.loadedSize - f.loaded
            && r.state.uploadingCount == s.uploadingCount - 1)
  {
    var t := Charged(s, FileUnit, id);
    ErrorUploadRetries(o, s, FileUnit, id);
    RetryDispatch(o, t, id);
    RetryFileLaw(o, t, id);
  }

  /** The same for a chunk whose file is listed: it waits again at the front of the chunk queue. */
  lemma ErrorRequeuesChunkWhileBudgetLeft(o: Options, s: State, id: Id)
    requires Wf(s) && id in s.chunkInfos && s.chunkInfos[id].belongFile in s.allFiles
    requires s.chunkInfos[id].retryCount != 0
    ensures var r := ErrorUpload(o, s, ChunkUnit, id); var c := s.chunkInfos[id];
      && (r.out.Throw? <==> id !in s.uploadingChunks)
      && FilesUntouched(s, r.state)
      && (id in s.uploadingChunks ==>
            && r.state.chunkInfos == s.chunkInfos[id := c.(retryCount := c.retryCount - 1, status := Waiting)]
            && r.state.waitingUploadChunks == [id] + s.waitingUploadChunks
            && (forall x :: x != id ==> (x in r.state.uploadingChunks <==> x in s.uploadingChunks))
            && r.state.loadedSize == s.loadedSize - c.loaded
            && r.state.uploadingCount == s.uploadingCount - 1)
  {
    var t := Charged(s, ChunkUnit, id);
    ChargedUntouched(s, ChunkUnit, id);
    ErrorUploadRetries(o, s, ChunkUnit, id);
    RetryDispatch(o, t, id);
    RetryChunkLaw(o, t, id);
  }

  /**
   * A failed file with its budget spent lands in `errorUploadFiles` with
   * status error and progress 100. The bytes taken back are added again when
   * the record had loaded some, else the file's full size is counted as
   * loaded; one unit less is in flight.
   */
  lemma ErrorFailsFileWhenBudgetSpent(o: Options, s: State, id: Id)
    requires Wf(s) && id in s.fileInfos && s.fileInfos[id].retryCount == 0
    ensures var r := ErrorUpload(o, s, FileUnit, id); var f := s.fileInfos[id];
      && (r.out.Throw? <==> id !in s.uploadingFiles)
      && (id !in s.uploadingFiles ==> r.out.message == NotInUploading("files", id, "uploadingFiles"))
      && (id in s.uploadingFiles ==>
            && r.state.fileInfos == s.fileInfos[id := f.(status := Error, progress := Literal(100))]
            && r.state.errorUploadFiles == s.errorUploadFiles + [id]
            && |r.state.uploadingFiles| == |s.uploadingFiles| - 1
            && (forall x :: x != id ==> (x in r.state.uploadingFiles <==> x in s.uploadingFiles))
            && r.state.waitingUploadFiles == s.waitingUploadFiles
            && r.state.loadedSize == (if f.loaded != 0 then s.loadedSize else s.loadedSize + f.size)
            && r.state.uploadingCount == s.uploadingCount - 1
            && s.events + [Failed(FileUnit, id)] <= r.state.events)
  {
    var t := Charged(s, FileUnit, id);
    ErrorUploadFailsFile(o, s, id);
    if id in s.uploadingFiles {
      var u := FileMarkedFailed(t.(uploadingFiles := RemoveFirst(id, s.uploadingFiles).1), id, s.fileInfos[id].loaded);
      RefillAnnouncesCompletion(o, u);
      forall x | x != id ensures x in u.uploadingFiles <==> x in s.uploadingFiles {
        RemoveFirstMembers(id, s.uploadingFiles, x);
      }
    }
  }

  /**
   * A chunk whose budget is spent fails its whole file: the file leaves
   * `uploadingFiles` by id for `errorUploadFiles` with status error and
   * progress 100, the chunk is marked error, the uploading and failed chunk
   * lists are emptied, and the file's full size is counted as loaded after
   * the chunk's loaded bytes are taken back. The chunk queue and `allChunks`
   * are emptied too, unless the refill that follows copies the next waiting
   * file's chunk list into them. Either lookup failing throws.
   */
  lemma ChunkFailureTearsDownFile(o: Options, s: State, id: Id)
    requires Wf(s) && id in s.chunkInfos && s.chunkInfos[id].retryCount == 0
    ensures var r := ErrorUpload(o, s, ChunkUnit, id); var c := s.chunkInfos[id];
      var owner := c.belongFile; var f := s.fileInfos[owner];
      && (id !in s.uploadingChunks ==> r.out == Throw(NotInUploading("chunks", id, "uploadingChunks")))
      && (id in s.uploadingChunks && owner !in s.uploadingFiles ==>
            r.out == Throw(NotInUploading("files", id, "uploadingFiles")))
      && (id in s.uploadingChunks && owner in s.uploadingFiles ==>
            && r.out == Return(())
            && r.state.chunkInfos == s.chunkInfos[id := c.(status := Error)]
            && r.state.fileInfos == s.fileInfos[owner := f.(status := Error, progress := Literal(100))]
            && r.state.errorUploadFiles == s.errorUploadFiles + [owner]
            && (forall x :: x != owner ==> (x in r.state.uploadingFiles <==> x in s.uploadingFiles))
            && r.state.uploadingChunks == [] && r.state.errorUploadChunks == []
            && ((r.state.allChunks == [] && r.state.waitingUploadChunks == [])
                || (|s.waitingUploadFiles| > 0 &&
                    r.state.allChunks == r.state.waitingUploadChunks == ChunksOf(s.fileInfos[s.waitingUploadFiles[0]])))
            && r.state.loadedSize == s.loadedSize - c.loaded + f.size
            && r.state.uploadingCount == s.uploadingCount - 1
            && s.events + [Failed(ChunkUnit, id)] <= r.state.events)
  {
    ChunkFailureSteps(o, s, id);
    var owner := s.chunkInfos[id].belongFile;
    if id in s.uploadingChunks && owner in s.uploadingFiles {
      TearDownResult(o, s, id);
    }
  }

  /** The torn-down state after the refill that follows it. */
  lemma TearDownResult(o: Options, s: State, id: Id)
    requires Wf(s) && id in s.chunkInfos
    ensures var r := Refill(o, TornDown(s, id)); var c := s.chunkInfos[id];
      var owner := c.belongFile; var f := s.fileInfos[owner];
      && r.out == Return(())
      && r.state.chunkInfos == s.chunkInfos[id := c.(status := Error)]
      && r.state.fileInfos == s.fileInfos[owner := f.(status := Error, progress := Literal(100))]
      && r.state.errorUploadFiles == s.errorUploadFiles + [owner]
      && (forall x :: x != owner ==> (x in r.state.uploadingFiles <==> x in s.uploadingFiles))
      && r.state.uploadingChunks == [] && r.state.errorUploadChunks == []
      && ((r.state.allChunks == [] && r.state.waitingUploadChunks == [])
          || (|s.waitingUploadFiles| > 0 &&
              r.state.allChunks == r.state.waitingUploadChunks == ChunksOf(s.fileInfos[s.waitingUploadFiles[0]])))
      && r.state.loadedSize == s.loadedSize - c.loaded + f.size
      && r.state.uploadingCount == s.uploadingCount - 1
      && s.events + [Failed(ChunkUnit, id)] <= r.state.events
  {
    var owner := s.chunkInfos[id].belongFile;
    var u := TornDown(s, id);
    TornDownFields(s, id);
    RefillAfterTearDown(o, u);
    forall x | x != owner ensures x in u.uploadingFiles <==> x in s.uploadingFiles {
      RemoveFirstMembers(owner, s.uploadingFiles, x);
    }
  }

  /** The state a chunk's terminal failure hands to the refill. */
  function TornDown(s: State, id: Id): (u: State)
    requires Wf(s) && id in s.chunkInfos
    ensures Wf(u)
  {
    var t := Charged(s, ChunkUnit, id);
    var owner := s.chunkInfos[id].belongFile;
    var t2 := ChunkMarkedFailed(t.(uploadingChunks := RemoveFirst(id, s.uploadingChunks).1), id);
    FileTornDown(t2.(uploadingFiles := RemoveFirst(owner, s.uploadingFiles).1), owner, id)
  }

  lemma ChunkFailureSteps(o: Options, s: State, id: Id)
    requires Wf(s) && id in s.chunkInfos && s.chunkInfos[id].retryCount == 0
    ensures var r := ErrorUpload(o, s, ChunkUnit, id); var owner := s.chunkInfos[id].belongFile;
      && (id !in s.uploadingChunks ==> r.out == Throw(NotInUploading("chunks", id, "uploadingChunks")))
      && (id in s.uploadingChunks && owner !in s.uploadingFiles ==>
            r.out == Throw(NotInUploading("files", id, "uploadingFiles")))
      && (id !in s.uploadingChunks || owner !in s.uploadingFiles ==> FilesUntouched(s, r.state))
      && (id in s.uploadingChunks && owner in s.uploadingFiles ==> r == Refill(o, TornDown(s, id)))
  {
    ChargedUntouched(s, ChunkUnit, id);
    ErrorUploadFailsChunk(o, s, id);
  }

  lemma TornDownFields(s: State, id: Id)
    requires Wf(s) && id in s.chunkInfos
    ensures var u := TornDown(s, id); var c := s.chunkInfos[id];
      var owner := c.belongFile; var f := s.fileInfos[owner];
      && u.chunkInfos == s.chunkInfos[id := c.(status := Error)]
      && u.fileInfos == s.fileInfos[owner := f.(status := Error, progress := Literal(100))]
      && u.errorUploadFiles == s.errorUploadFiles + [owner]
      && u.uploadingFiles == RemoveFirst(owner, s.uploadingFiles).1
      && u.waitingUploadFiles == s.waitingUploadFiles
      && u.allChunks == [] && u.waitingUploadChunks == [] && u.uploadingChunks == [] && u.errorUploadChunks == []
      && u.loadedSize == s.loadedSize - c.loaded + f.size
      && u.uploadingCount == s.uploadingCount - 1
      && u.events == s.events + [Failed(ChunkUnit, id)]
  {
  }

  lemma TornDownFiles(s: State, id: Id)
    requires Wf(s) && id in s.chunkInfos
    ensures var u := TornDown(s, id); var owner := s.chunkInfos[id].belongFile;
      && u.fileInfos == s.fileInfos[owner := s.fileInfos[owner].(status := Error, progress := Literal(100))]
      && u.allFiles == s.allFiles
      && u.waitingUploadFiles == s.waitingUploadFiles
      && u.uploadingFiles == RemoveFirst(owner, s.uploadingFiles).1
      && u.uploadedFiles == s.uploadedFiles
      && u.errorUploadFiles == s.errorUploadFiles + [owner]
      && u.invalidFiles == s.invalidFiles
  {
  }

  lemma RefillAfterTearDown(o: Options, u: State)
    requires Wf(u) && u.allChunks == [] && u.waitingUploadChunks == [] && u.uploadingChunks == [] && u.errorUploadChunks == []
    ensures var r := Refill(o, u);
      && r.out == Return(())
      && FilesUntouched(u, r.state) && r.state.chunkInfos == u.chunkInfos
      && r.state.loadedSize == u.loadedSize && r.state.uploadingCount == u.uploadingCount
      && r.state.uploadingChunks == [] && r.state.errorUploadChunks == []
      && ((r.state.allChunks == [] && r.state.waitingUploadChunks == [])
          || (|u.waitingUploadFiles| > 0 &&
              r.state.allChunks == r.state.waitingUploadChunks == ChunksOf(u.fileInfos[u.waitingUploadFiles[0]])))
      && u.events <= r.state.events
  {
    RefillAnnouncesCompletion(o, u);
    if |u.waitingUploadFiles| > 0 && RemainingThreads(o, u) > 0 {
      LoopStartMakesCountAttempts(u, RemainingThreads(o, u));
    }
  }

  /** An uploading file moved by id to the tail of `errorUploadFiles` with status error keeps the partition. */
  lemma MoveToErrorPartitioned(s: State, u: State, id: Id)
    requires FilesPartitioned(s) && id in s.uploadingFiles
    requires u.fileInfos == s.fileInfos[id := s.fileInfos[id].(status := Error, progress := Literal(100))]
    requires u.allFiles == s.allFiles && u.waitingUploadFiles == s.waitingUploadFiles
    requires u.uploadingFiles == RemoveFirst(id, s.uploadingFiles).1
    requires u.uploadedFiles == s.uploadedFiles && u.invalidFiles == s.invalidFiles
    requires u.errorUploadFiles == s.errorUploadFiles + [id]
    ensures FilesPartitioned(u)
  {
    AllBucketsWf(s);
    ExactlyOneBucket(s, id, Error);
    assert BucketWf(s, Uploading);
    RemoveFirstExactly(id, s.uploadingFiles);
    NoDupAdd(s.errorUploadFiles, id);
    MovePartitioned(s, u, id, Uploading, Error);
  }

  lemma FailFilePartitioned(o: Options, s: State, id: Id, loaded: int)
    requires Wf(s) && FilesPartitioned(s) && id in s.fileInfos
    ensures FilesPartitioned(FailFile(o, s, id, loaded).state)
  {
    if id in s.uploadingFiles {
      var u := FileMarkedFailed(s.(uploadingFiles := RemoveFirst(id, s.uploadingFiles).1), id, loaded);
      MoveToErrorPartitioned(s, u, id);
      RefillAnnouncesCompletion(o, u);
      FilesUntouchedPartitioned(u, Refill(o, u).state);
    }
  }

  lemma TornDownPartitioned(s: State, id: Id)
    requires Wf(s) && FilesPartitioned(s) && id in s.chunkInfos
    requires s.chunkInfos[id].belongFile in s.uploadingFiles
    ensures FilesPartitioned(TornDown(s, id))
  {
    TornDownFiles(s, id);
    MoveToErrorPartitioned(s, TornDown(s, id), s.chunkInfos[id].belongFile);
  }

  lemma TearDownPartitioned(o: Options, s: State, id: Id)
    requires Wf(s) && FilesPartitioned(s) && id in s.chunkInfos
    requires id in s.uploadingChunks && s.chunkInfos[id].belongFile in s.uploadingFiles
    ensures FilesPartitioned(Refill(o, TornDown(s, id)).state)
  {
    var u := TornDown(s, id);
    TornDownFields(s, id);
    TornDownPartitioned(s, id);
    RefillAfterTearDown(o, u);
    FilesUntouchedPartitioned(u, Refill(o, u).state);
  }

  /** `handleErrorUpload` keeps the partition of the listed files, whether it retries, fails or throws. */
  lemma ErrorPreservesPartition(o: Options, s: State, kind: UploadType, id: Id)
    requires Wf(s) && FilesPartitioned(s) && Stored(s, kind, id)
    ensures FilesPartitioned(ErrorUpload(o, s, kind, id).state)
  {
    var t := Charged(s, kind, id);
    ChargedUntouched(s, kind, id);
    FilesUntouchedPartitioned(s, t);
    if RetryCountOf(s, kind, id) != 0 {
      ErrorUploadRetries(o, s, kind, id);
      RetryPreservesPartition(o, t, id);
    } else if kind == FileUnit {
      ErrorUploadFailsFile(o, s, id);
      FailFilePartitioned(o, t, id, LoadedOf(s, kind, id));
    } else {
      ChunkFailureSteps(o, s, id);
      if id in s.uploadingChunks && s.chunkInfos[id].belongFile in s.uploadingFiles {
        TearDownPartitioned(o, s, id);
      } else {
        FilesUntouchedPartitioned(s, ErrorUpload(o, s, kind, id).state);
      }
    }
  }

  // ---------------------------------------------------------------------
  // The retry budget over repeated failures
  // ---------------------------------------------------------------------

  /** File `id` is listed, uploading and not waiting. */
  predicate InFlight(s: State, id: Id)
  {
    Wf(s) && id in s.allFiles && id in s.uploadingFiles && id !in s.waitingUploadFiles
  }

  /**
   * One failure of file `id` reported to `handleErrorUpload`, followed by
   * the restart of the file when the failure put it back at the front of
   * the waiting queue.
   */
  function FailAndRestart(o: Options, s: State, id: Id): (r: Step<()>)
    requires Wf(s) && id in s.fileInfos
    ensures Wf(r.state)
  {
    var e := ErrorUpload(o, s, FileUnit, id);
    if e.out.Return? && |e.state.waitingUploadFiles| > 0 && e.state.waitingUploadFiles[0] == id
    then StartUpload(o, e.state, FileUnit)
    else e
  }

  /** `n` applications of `round` from `s`, stopping at the first throw. */
  function Iterate(round: State -> Step<()>, s: State, n: nat): Step<()>
    decreases n
  {
    if n == 0 then Step(s, Return(()))
    else
      var c := round(s);
      if c.out.Throw? then c else Iterate(round, c.state, n - 1)
  }

  /** One round for file `id`, on any state (a state outside the model is left as it is). */
  function RoundFn(o: Options, id: Id): State -> Step<()>
  {
    t => if Wf(t) && id in t.fileInfos then FailAndRestart(o, t, id) else Step(t, Return(()))
  }

  /** `n` rounds of failure and restart of file `id`, stopping at a throw. */
  function Rounds(o: Options, s: State, id: Id, n: nat): Step<()>
  {
    Iterate(RoundFn(o, id), s, n)
  }

  /**
   * Induction over the rounds, for any round that, on a state satisfying
   * `inv` with budget left, keeps `inv` and costs one unit of budget.
   */
  lemma {:induction false} IterateSpendsBudget(round: State -> Step<()>, inv: State -> bool, budget: State -> int, s: State, n: nat)
    requires inv(s) && n <= budget(s)
    requires forall t :: inv(t) && budget(t) > 0 ==>
               round(t).out == Return(()) && inv(round(t).state) && budget(round(t).state) == budget(t) - 1
    ensures Iterate(round, s, n).out == Return(())
    ensures inv(Iterate(round, s, n).state) && budget(Iterate(round, s, n).state) == budget(s) - n
    decreases n
  {
    if n > 0 {
      IterateSpendsBudget(round, inv, budget, round(s).state, n - 1);
    }
  }

  /** While budget is left (or it is negative), a failure re-queues the file and costs one unit. */
  lemma RoundRequeues(o: Options, s: State, id: Id)
    requires InFlight(s, id) && s.fileInfos[id].retryCount != 0
    ensures var r := FailAndRestart(o, s, id);
      && r.out == Return(()) && InFlight(r.state, id)
      && r.state.fileInfos[id].retryCount == s.fileInfos[id].retryCount - 1
      && r.state.errorUploadFiles == s.errorUploadFiles
  {
    var e := ErrorUpload(o, s, FileUnit, id);
    ErrorRequeuesWhileBudgetLeft(o, s, id);
    StartFileMovesHead(o, e.state);
  }

  /** With the budget spent, a failure lands the file in `errorUploadFiles`. */
  lemma RoundFails(o: Options, s: State, id: Id)
    requires InFlight(s, id) && s.fileInfos[id].retryCount == 0
    ensures var r := FailAndRestart(o, s, id);
      && r.out == Return(())
      && r.state.errorUploadFiles == s.errorUploadFiles + [id]
      && r.state.fileInfos[id].status == Error
      && id !in r.state.waitingUploadFiles
  {
    var e := ErrorUpload(o, s, FileUnit, id);
    ErrorFailsFileWhenBudgetSpent(o, s, id);
    assert id !in e.state.waitingUploadFiles;
    assert FailAndRestart(o, s, id) == e;
  }

  lemma BudgetBoundsRequeues(o: Options, s: State, id: Id, n: nat)
    requires InFlight(s, id) && n <= s.fileInfos[id].retryCount
    ensures var r := Rounds(o, s, id, n);
      && r.out == Return(()) && InFlight(r.state, id)
      && r.state.fileInfos[id].retryCount == s.fileInfos[id].retryCount - n
      && r.state.errorUploadFiles == s.errorUploadFiles
  {
    var inv: State -> bool := (t: State) => InFlight(t, id) && t.errorUploadFiles == s.errorUploadFiles;
    var budget: State -> int := (t: State) => if id in t.fileInfos then t.fileInfos[id].retryCount else 0;
    forall t | inv(t) && budget(t) > 0
      ensures RoundFn(o, id)(t).out == Return(()) && inv(RoundFn(o, id)(t).state)
      ensures budget(RoundFn(o, id)(t).state) == budget(t) - 1
    {
      RoundRequeues(o, t, id);
    }
    IterateSpendsBudget(RoundFn(o, id), inv, budget, s, n);
  }

  /**
   * A file in flight with budget `r >= 0` is re-queued by exactly `r`
   * failures, none of which touches `errorUploadFiles`, and the next failure
   * lands it there with status error.
   */
  lemma BudgetExhaustedFails(o: Options, s: State, id: Id)
    requires InFlight(s, id) && s.fileInfos[id].retryCount >= 0
    ensures var t := Rounds(o, s, id, s.fileInfos[id].retryCount);
      && t.out == Return(()) && InFlight(t.state, id)
      && t.state.errorUploadFiles == s.errorUploadFiles
      && var r := FailAndRestart(o, t.state, id);
         && r.out == Return(())
         && r.state.errorUploadFiles == s.errorUploadFiles + [id]
         && r.state.fileInfos[id].status == Error
  {
    BudgetBoundsRequeues(o, s, id, s.fileInfos[id].retryCount);
    RoundFails(o, Rounds(o, s, id, s.fileInfos[id].retryCount).state, id);
  }

  /** Chunk `id` is uploading, not waiting, and its file is listed and uploading. */
  predicate ChunkInFlight(s: State, id: Id)
  {
    && Wf(s) && id in s.chunkInfos && id in s.uploadingChunks && id !in s.waitingUploadChunks
    && s.chunkInfos[id].belongFile in s.allFiles && s.chunkInfos[id].belongFile in s.uploadingFiles
  }

  /**
   * One failure of chunk `id` reported to `handleErrorUpload`, followed by
   * the start of the chunk when the failure put it back, still waiting, at
   * the front of the chunk queue.
   */
  function ChunkFailAndRestart(o: Options, s: State, id: Id): (r: Step<()>)
    requires Wf(s) && id in s.chunkInfos
    ensures Wf(r.state)
  {
    var e := ErrorUpload(o, s, ChunkUnit, id);
    if e.out.Return? && |e.state.waitingUploadChunks| > 0 && e.state.waitingUploadChunks[0] == id
       && e.state.chunkInfos[id].status == Waiting
    then StartUpload(o, e.state, ChunkUnit)
    else e
  }

  /** One round for chunk `id`, on any state (a state outside the model is left as it is). */
  function ChunkRoundFn(o: Options, id: Id): State -> Step<()>
  {
    t => if Wf(t) && id in t.chunkInfos then ChunkFailAndRestart(o, t, id) else Step(t, Return(()))
  }

  /** `n` rounds of failure and restart of chunk `id`, stopping at a throw. */
  function ChunkRounds(o: Options, s: State, id: Id, n: nat): Step<()>
  {
    Iterate(ChunkRoundFn(o, id), s, n)
  }

  /** While budget is left (or it is negative), a chunk failure re-queues and restarts the chunk and costs one unit. */
  lemma ChunkRoundRequeues(o: Options, s: State, id: Id)
    requires ChunkInFlight(s, id) && s.chunkInfos[id].retryCount != 0
    ensures var r := ChunkFailAndRestart(o, s, id);
      && r.out == Return(()) && ChunkInFlight(r.state, id)
      && r.state.chunkInfos[id].retryCount == s.chunkInfos[id].retryCount - 1
      && r.state.chunkInfos[id].belongFile == s.chunkInfos[id].belongFile
      && FilesUntouched(s, r.state)
  {
    var e := ErrorUpload(o, s, ChunkUnit, id);
    ErrorRequeuesChunkWhileBudgetLeft(o, s, id);
    assert e.state.chunkInfos[id].status == Waiting;
    RestartRequeuedChunk(o, e.state, id);
    assert ChunkFailAndRestart(o, s, id) == StartUpload(o, e.state, ChunkUnit);
  }

  /** Starting a chunk while a file uploads moves the head waiting chunk to uploading and leaves the files alone. */
  lemma RestartRequeuedChunk(o: Options, e: State, id: Id)
    requires Wf(e) && |e.waitingUploadChunks| > 0 && e.waitingUploadChunks[0] == id && |e.uploadingFiles| > 0
    ensures id in e.chunkInfos
    ensures var r := StartUpload(o, e, ChunkUnit);
      && r.out == Return(()) && FilesUntouched(e, r.state)
      && r.state.chunkInfos == e.chunkInfos[id := e.chunkInfos[id].(status := Uploading)]
      && r.state.uploadingChunks == e.uploadingChunks + [id]
      && r.state.waitingUploadChunks == e.waitingUploadChunks[1..]
  {
    var s1 := e.(uploadingCount := e.uploadingCount + 1);
    assert StartUpload(o, e, ChunkUnit) == ShiftChunk(o, s1);
    ShiftChunkMovesHeadChunk(o, s1);
  }

  /** With the budget spent, a chunk failure lands its file in `errorUploadFiles`, and nothing restarts. */
  lemma ChunkRoundFails(o: Options, s: State, id: Id)
    requires ChunkInFlight(s, id) && s.chunkInfos[id].retryCount == 0
    ensures var r := ChunkFailAndRestart(o, s, id); var owner := s.chunkInfos[id].belongFile;
      && r.out == Return(())
      && r.state.errorUploadFiles == s.errorUploadFiles + [owner]
      && r.state.fileInfos[owner].status == Error
      && r.state.chunkInfos[id].status == Error
  {
    ChunkFailureTearsDownFile(o, s, id);
    assert ChunkFailAndRestart(o, s, id) == ErrorUpload(o, s, ChunkUnit, id);
  }

  lemma ChunkBudgetBoundsRequeues(o: Options, s: State, id: Id, n: nat)
    requires ChunkInFlight(s, id) && n <= s.chunkInfos[id].retryCount
    ensures var r := ChunkRounds(o, s, id, n);
      && r.out == Return(()) && ChunkInFlight(r.state, id)
      && r.state.chunkInfos[id].retryCount == s.chunkInfos[id].retryCount - n
      && r.state.chunkInfos[id].belongFile == s.chunkInfos[id].belongFile
      && r.state.errorUploadFiles == s.errorUploadFiles
  {
    var owner := s.chunkInfos[id].belongFile;
    var inv: State -> bool := (t: State) =>
      ChunkInFlight(t, id) && t.chunkInfos[id].belongFile == owner && t.errorUploadFiles == s.errorUploadFiles;
    var budget: State -> int := (t: State) => if id in t.chunkInfos then t.chunkInfos[id].retryCount else 0;
    forall t | inv(t) && budget(t) > 0
      ensures ChunkRoundFn(o, id)(t).out == Return(()) && inv(ChunkRoundFn(o, id)(t).state)
      ensures budget(ChunkRoundFn(o, id)(t).state) == budget(t) - 1
    {
      ChunkRoundRequeues(o, t, id);
    }
    IterateSpendsBudget(ChunkRoundFn(o, id), inv, budget, s, n);
  }

  /**
   * A chunk in flight with budget `r >= 0` is re-queued by exactly `r`
   * failures, none of which touches `errorUploadFiles`, and the next failure
   * lands its file there with status error.
   */
  lemma ChunkBudgetExhaustedFails(o: Options, s: State, id: Id)
    requires ChunkInFlight(s, id) && s.chunkInfos[id].retryCount >= 0
    ensures var t := ChunkRounds(o, s, id, s.chunkInfos[id].retryCount); var owner := s.chunkInfos[id].belongFile;
      && t.out == Return(()) && ChunkInFlight(t.state, id)
      && t.state.errorUploadFiles == s.errorUploadFiles
      && var r := ChunkFailAndRestart(o, t.state, id);
         && r.out == Return(())
         && r.state.errorUploadFiles == s.errorUploadFiles + [owner]
         && r.state.fileInfos[owner].status == Error
  {
    ChunkBudgetBoundsRequeues(o, s, id, s.chunkInfos[id].retryCount);
    ChunkRoundFails(o, ChunkRounds(o, s, id, s.chunkInfos[id].retryCount).state, id);
  }

  // ---------------------------------------------------------------------
  // chunkCompleteCallback
  // ---------------------------------------------------------------------

  /** With no error message, the continuation records the file as a success. */
  lemma ChunkCompleteAccepts(o: Options, s: State, errorMessage: Option<string>, fileId: Id, isRetry: bool)
    requires Wf(s) && fileId in s.fileInfos && NoDup(s.uploadingFiles) && !Truthy(errorMessage)
    ensures var r := ChunkCompleteCallback(o, s, errorMessage, fileId, isRetry);
      && (r.out.Throw? <==> fileId !in s.uploadingFiles)
      && (fileId in s.uploadingFiles ==>
            && r.state.uploadedFiles == s.uploadedFiles + [fileId]
            && r.state.fileInfos == s.fileInfos[fileId := s.fileInfos[fileId].(status := Uploaded)]
            && fileId !in r.state.uploadingFiles
            && r.state.uploadingCount == (if s.uploadingCount != 0 then s.uploadingCount - 1 else 0))
  {
    var s1 := s.(uploadingCount := if s.uploadingCount != 0 then s.uploadingCount - 1 else 0);
    SuccessDecrementsUnlessZero(o, s, FileUnit, fileId);
    SuccessFileLaw(o, s1, fileId);
  }

  /**
   * With an error message and `isRetry`, the file's loaded bytes are taken
   * back, its budget is refilled from the options and one unit of it spent
   * at once, and it waits again at the front of the queue; one unit less is
   * in flight, with no guard against going below zero.
   */
  lemma ChunkCompleteRequeues(o: Options, s: State, errorMessage: Option<string>, fileId: Id)
    requires Wf(s) && fileId in s.allFiles && fileId in s.uploadingFiles && Truthy(errorMessage)
    ensures var r := ChunkCompleteCallback(o, s, errorMessage, fileId, true); var f := s.fileInfos[fileId];
      && r.out == Return(())
      && r.state.uploadingCount == s.uploadingCount - 1
      && r.state.waitingUploadFiles == [fileId] + s.waitingUploadFiles
      && r.state.fileInfos[fileId] == f.(loaded := 0, retryCount := RetryBudget(o) - 1, status := Waiting)
      && r.state.errorUploadFiles == s.errorUploadFiles
      && r.state.loadedSize == s.loadedSize - f.loaded
  {
    ResetBudgetKeepsWf(o, s, fileId, true);
    ErrorRequeuesWhileBudgetLeft(o, ResetBudget(o, s, fileId, true), fileId);
  }

  /**
   * With an error message and no `isRetry`, the file's budget is zeroed and
   * it fails for good: error bucket, status error, progress 100, its bytes
   * counted as done; one unit less is in flight.
   */
  lemma ChunkCompleteFails(o: Options, s: State, errorMessage: Option<string>, fileId: Id)
    requires Wf(s) && fileId in s.fileInfos && fileId in s.uploadingFiles && Truthy(errorMessage)
    ensures var r := ChunkCompleteCallback(o, s, errorMessage, fileId, false); var f := s.fileInfos[fileId];
      && r.out == Return(())
      && r.state.uploadingCount == s.uploadingCount - 1
      && r.state.errorUploadFiles == s.errorUploadFiles + [fileId]
      && r.state.fileInfos[fileId] == f.(retryCount := 0, status := Error, progress := Literal(100))
      && r.state.loadedSize == (if f.loaded != 0 then s.loadedSize else s.loadedSize + f.size)
  {
    ResetBudgetKeepsWf(o, s, fileId, false);
    ErrorFailsFileWhenBudgetSpent(o, ResetBudget(o, s, fileId, false), fileId);
  }
}
