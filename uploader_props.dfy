/**
 * Properties of the upload-queue transitions of module UploaderState: what
 * `loopStart` dispatches, the partition of the listed files into the status
 * buckets and its preservation, the retry budget, the teardown after a
 * chunk's terminal failure, the byte accounting and `remove`.
 */
module UploaderProps {
  import opened Entities
  import opened Utils
  import opened UploaderState

  // ---------------------------------------------------------------------
  // loopStart
  // ---------------------------------------------------------------------

  /** `t` differs from `s` at most in the copied chunk queue and a longer event log. */
  predicate DispatchOnly(s: State, t: State)
  {
    && t == s.(waitingUploadChunks := t.waitingUploadChunks, allChunks := t.allChunks, events := t.events)
    && s.events <= t.events
  }

  /** The chunk queues after a dispatch attempt: the head file's list when it is copied. */
  function AttemptQueues(s: State): State
    requires Wf(s) && |s.waitingUploadFiles| > 0
  {
    if |s.waitingUploadChunks| == 0 && s.fileInfos[s.waitingUploadFiles[0]].chunks.Some? then
      var cs := s.fileInfos[s.waitingUploadFiles[0]].chunks.value;
      s.(waitingUploadChunks := cs, allChunks := cs)
    else s
  }

  /** The request a dispatch attempt makes: which kind of unit, or a warning for an empty chunk list. */
  function AttemptEvent(s: State): Event
    requires Wf(s) && (|s.waitingUploadChunks| > 0 || |s.waitingUploadFiles| > 0)
  {
    if |s.waitingUploadChunks| > 0 then GateRequested(ChunkUnit)
    else
      var head := s.fileInfos[s.waitingUploadFiles[0]];
      if head.chunks.None? then GateRequested(FileUnit)
      else if |head.chunks.value| == 0 then NothingWaiting(ChunkUnit)
      else GateRequested(ChunkUnit)
  }

  function Repeat(e: Event, n: nat): (r: seq<Event>)
    ensures |r| == n && forall i :: 0 <= i < n ==> r[i] == e
  {
    seq(n, _ => e)
  }

  /**
   * `n >= 1` iterations of the loop with a chunk or a file waiting: the
   * queue copy of the first attempt and `n` identical requests, because a
   * request is only scheduled (nothing leaves a queue synchronously).
   */
  lemma {:induction false} LoopStartNAttempts(s: State, n: nat)
    requires Wf(s) && n >= 1
    requires |s.waitingUploadChunks| > 0 || |s.waitingUploadFiles| > 0
    ensures LoopStartN(s, n).out == Return(())
    ensures LoopStartN(s, n).state == s.(waitingUploadChunks := if |s.waitingUploadChunks| > 0 then s.waitingUploadChunks else (if s.fileInfos[s.waitingUploadFiles[0]].chunks.Some? then s.fileInfos[s.waitingUploadFiles[0]].chunks.value else []),
                                            allChunks := if |s.waitingUploadChunks| > 0 || s.fileInfos[s.waitingUploadFiles[0]].chunks.None? then s.allChunks else s.fileInfos[s.waitingUploadFiles[0]].chunks.value,
                                            events := s.events + Repeat(AttemptEvent(s), n))
  {
    if n == 1 {
      assert LoopStartN(s, 0) == Step(s, Return(()));
    } else {
      LoopStartNAttempts(s, n - 1);
      var p := LoopStartN(s, n - 1).state;
      assert |p.waitingUploadChunks| > 0 ==> |s.waitingUploadChunks| > 0 || s.fileInfos[s.waitingUploadFiles[0]].chunks.Some?;
      assert p.events + [AttemptEvent(s)] == s.events + Repeat(AttemptEvent(s), n);
    }
  }

  /**
   * `loopStart(count)` makes exactly `count` dispatch attempts (none for
   * `count <= 0`): with a chunk waiting each one requests a chunk; else the
   * head waiting file's chunk list, when it has one, becomes the chunk queue
   * and `allChunks`; else each requests the head file. Nothing else in the
   * state changes. With nothing waiting at all, the first attempt throws.
   */
  lemma LoopStartMakesCountAttempts(s: State, count: int)
    requires Wf(s)
    ensures count <= 0 ==> LoopStart(s, count) == Step(s, Return(()))
    ensures count > 0 && |s.waitingUploadChunks| == 0 && |s.waitingUploadFiles| == 0 ==>
              LoopStart(s, count) == Step(s, Throw(TypeErrorReading("chunks")))
    ensures count > 0 && |s.waitingUploadChunks| > 0 ==>
              LoopStart(s, count) == Step(s.(events := s.events + Repeat(GateRequested(ChunkUnit), count)), Return(()))
    ensures count > 0 && |s.waitingUploadChunks| == 0 && |s.waitingUploadFiles| > 0 ==>
              var head := s.fileInfos[s.waitingUploadFiles[0]];
              LoopStart(s, count).out == Return(()) &&
              LoopStart(s, count).state ==
                (if head.chunks.Some? then s.(waitingUploadChunks := head.chunks.value, allChunks := head.chunks.value)
                 else s).(events := s.events + Repeat(AttemptEvent(s), count))
    ensures DispatchOnly(s, LoopStart(s, count).state)
  {
    if count > 0 {
      if |s.waitingUploadChunks| == 0 && |s.waitingUploadFiles| == 0 {
        FirstAttemptThrows(s, count);
      } else {
        LoopStartNAttempts(s, count);
      }
    }
  }

  lemma {:induction false} FirstAttemptThrows(s: State, n: nat)
    requires Wf(s) && n >= 1
    requires |s.waitingUploadChunks| == 0 && |s.waitingUploadFiles| == 0
    ensures LoopStartN(s, n) == Step(s, Throw(TypeErrorReading("chunks")))
  {
    if n > 1 {
      FirstAttemptThrows(s, n - 1);
    }
  }

  /** Whenever a chunk or a file is waiting, `loopStart` does not throw. */
  lemma LoopStartDoesNotThrow(s: State, count: int)
    requires Wf(s)
    requires |s.waitingUploadChunks| > 0 || |s.waitingUploadFiles| > 0
    ensures LoopStart(s, count).out == Return(())
    ensures DispatchOnly(s, LoopStart(s, count).state)
  {
    if count > 0 {
      LoopStartNAttempts(s, count);
    }
  }

  /** With a chunk waiting, `loopStart(count)` requests a chunk `count` times and changes nothing else. */
  lemma LoopStartChunkWaiting(s: State, count: int)
    requires Wf(s) && |s.waitingUploadChunks| > 0
    ensures LoopStart(s, count) ==
              Step(s.(events := s.events + Repeat(GateRequested(ChunkUnit), if count > 0 then count else 0)), Return(()))
  {
    if count > 0 {
      LoopStartNAttempts(s, count);
    } else {
      assert s.events + Repeat(GateRequested(ChunkUnit), 0) == s.events;
    }
  }

  /**
   * Refilling only schedules requests or announces completion: the queues
   * of files are untouched, and completion is announced exactly when no file
   * is waiting and none is uploading.
   */
  lemma RefillAnnouncesCompletion(o: Options, s: State)
    requires Wf(s)
    ensures Refill(o, s).out == Return(())
    ensures DispatchOnly(s, Refill(o, s).state)
    ensures |s.waitingUploadFiles| == 0 && |s.uploadingFiles| == 0 <==>
              Refill(o, s).state.events == s.events + [Complete(s.uploadedFiles)]
  {
    if |s.waitingUploadFiles| > 0 {
      var t := Refill(o, s).state;
      if RemainingThreads(o, s) > 0 {
        LoopStartNAttempts(s, RemainingThreads(o, s));
        assert t.events[|s.events|] == AttemptEvent(s);
      }
    }
  }

  // ---------------------------------------------------------------------
  // The partition of the listed files into status buckets
  // ---------------------------------------------------------------------

  function Bucket(s: State, st: UploadStatus): seq<Id>
  {
    match st
    case Waiting => s.waitingUploadFiles
    case Uploading => s.uploadingFiles
    case Uploaded => s.uploadedFiles
    case Error => s.errorUploadFiles
    case Invalid => s.invalidFiles
  }

  predicate BucketWf(s: State, st: UploadStatus)
  {
    && NoDup(Bucket(s, st))
    && forall f :: f in Bucket(s, st) ==> f in s.allFiles && f in s.fileInfos && s.fileInfos[f].status == st
  }

  /**
   * Every file of `allFiles` sits, once, in exactly the bucket its status
   * names, and every bucket holds only listed files of that status.
   */
  predicate FilesPartitioned(s: State)
  {
    && NoDup(s.allFiles)
    && BucketWf(s, Waiting) && BucketWf(s, Uploading) && BucketWf(s, Uploaded)
    && BucketWf(s, Error) && BucketWf(s, Invalid)
    && forall f :: f in s.allFiles ==> f in s.fileInfos && f in Bucket(s, s.fileInfos[f].status)
  }

  lemma AllBucketsWf(s: State)
    requires FilesPartitioned(s)
    ensures forall st :: BucketWf(s, st)
  {
    forall st ensures BucketWf(s, st) {
      match st
      case Waiting =>
      case Uploading =>
      case Uploaded =>
      case Error =>
      case Invalid =>
    }
  }

  /** A listed file is in one bucket and no other; a file in a bucket is listed. */
  lemma ExactlyOneBucket(s: State, f: Id, st: UploadStatus)
    requires FilesPartitioned(s)
    ensures f in Bucket(s, st) <==> f in s.allFiles && s.fileInfos[f].status == st
  {
    AllBucketsWf(s);
  }

  /** Same listed files, same buckets and the same statuses. */
  predicate SameFiles(s: State, t: State)
  {
    && t.allFiles == s.allFiles
    && t.waitingUploadFiles == s.waitingUploadFiles
    && t.uploadingFiles == s.uploadingFiles
    && t.uploadedFiles == s.uploadedFiles
    && t.errorUploadFiles == s.errorUploadFiles
    && t.invalidFiles == s.invalidFiles
    && t.fileInfos.Keys == s.fileInfos.Keys
    && forall f :: f in s.fileInfos ==> t.fileInfos[f].status == s.fileInfos[f].status
  }

  lemma SameFilesPartitioned(s: State, t: State)
    requires FilesPartitioned(s) && SameFiles(s, t)
    ensures FilesPartitioned(t)
  {
    forall st ensures Bucket(t, st) == Bucket(s, st) {
    }
    AllBucketsWf(s);
    assert forall st :: BucketWf(t, st) by {
      forall st ensures BucketWf(t, st) {
        assert BucketWf(s, st);
      }
    }
  }

  /** Moving one file from one bucket to another, with its status, keeps the partition. */
  lemma MovePartitioned(s: State, t: State, id: Id, from: UploadStatus, to: UploadStatus)
    requires FilesPartitioned(s)
    requires id in Bucket(s, from) && from != to
    requires t.allFiles == s.allFiles && t.fileInfos.Keys == s.fileInfos.Keys
    requires t.fileInfos[id].status == to
    requires forall f :: f in s.fileInfos && f != id ==> t.fileInfos[f].status == s.fileInfos[f].status
    requires NoDup(Bucket(t, from)) && NoDup(Bucket(t, to))
    requires forall x :: x in Bucket(t, from) <==> x in Bucket(s, from) && x != id
    requires forall x :: x in Bucket(t, to) <==> x in Bucket(s, to) || x == id
    requires forall st :: st != from && st != to ==> Bucket(t, st) == Bucket(s, st)
    ensures FilesPartitioned(t)
  {
    AllBucketsWf(s);
    forall st ensures BucketWf(t, st) {
      MoveBucketWf(s, t, id, from, to, st);
    }
    assert forall st :: BucketWf(t, st);
    forall f | f in t.allFiles ensures f in t.fileInfos && f in Bucket(t, t.fileInfos[f].status) {
      if f != id {
        var st := s.fileInfos[f].status;
        assert f in Bucket(s, st);
        if st != from && st != to {
          assert Bucket(t, st) == Bucket(s, st);
        }
      }
    }
  }

  lemma MoveBucketWf(s: State, t: State, id: Id, from: UploadStatus, to: UploadStatus, st: UploadStatus)
    requires BucketWf(s, st) && BucketWf(s, from)
    requires id in Bucket(s, from) && from != to
    requires t.allFiles == s.allFiles && t.fileInfos.Keys == s.fileInfos.Keys
    requires id in t.fileInfos && t.fileInfos[id].status == to
    requires forall f :: f in s.fileInfos && f != id ==> t.fileInfos[f].status == s.fileInfos[f].status
    requires NoDup(Bucket(t, from)) && NoDup(Bucket(t, to))
    requires forall x :: x in Bucket(t, from) <==> x in Bucket(s, from) && x != id
    requires forall x :: x in Bucket(t, to) <==> x in Bucket(s, to) || x == id
    requires st != from && st != to ==> Bucket(t, st) == Bucket(s, st)
    ensures BucketWf(t, st)
  {
    assert s.fileInfos[id].status == from;
    if st == from {
      forall f | f in Bucket(t, st) ensures f in t.allFiles && f in t.fileInfos && t.fileInfos[f].status == st {
        assert f in Bucket(s, st) && f != id;
      }
    } else if st == to {
      forall f | f in Bucket(t, st) ensures f in t.allFiles && f in t.fileInfos && t.fileInfos[f].status == st {
        if f != id {
          assert f in Bucket(s, st);
        }
      }
    } else {
      forall f | f in Bucket(t, st) ensures f in t.allFiles && f in t.fileInfos && t.fileInfos[f].status == st {
        assert f in Bucket(s, st);
      }
    }
  }

  lemma NoDupTail(s: seq<Id>)
    requires NoDup(s) && |s| > 0
    ensures NoDup(s[1..])
    ensures forall x :: x in s[1..] <==> x in s && x != s[0]
  {
    assert forall x :: x in s ==> x == s[0] || x in s[1..] by {
      assert s == [s[0]] + s[1..];
    }
  }

  lemma NoDupAdd(s: seq<Id>, x: Id)
    requires NoDup(s) && x !in s
    ensures NoDup(s + [x]) && NoDup([x] + s)
  {
  }

  lemma RemoveFirstExactly(id: Id, s: seq<Id>)
    requires NoDup(s)
    ensures NoDup(RemoveFirst(id, s).1)
    ensures forall x :: x in RemoveFirst(id, s).1 <==> x in s && x != id
  {
    RemoveFirstNoDup(id, s);
    forall x | x != id ensures x in RemoveFirst(id, s).1 <==> x in s {
      RemoveFirstMembers(id, s, x);
    }
  }

  /** The file records and the six file buckets are as they were. */
  predicate FilesUntouched(s: State, t: State)
  {
    && t.fileInfos == s.fileInfos
    && t.allFiles == s.allFiles
    && t.waitingUploadFiles == s.waitingUploadFiles
    && t.uploadingFiles == s.uploadingFiles
    && t.uploadedFiles == s.uploadedFiles
    && t.errorUploadFiles == s.errorUploadFiles
    && t.invalidFiles == s.invalidFiles
  }

  lemma FilesUntouchedPartitioned(s: State, t: State)
    requires FilesPartitioned(s) && FilesUntouched(s, t)
    ensures FilesPartitioned(t)
  {
    SameFilesPartitioned(s, t);
  }

  // ---------------------------------------------------------------------
  // handleStartUpload
  // ---------------------------------------------------------------------

  lemma PromoteHeadPartitioned(s: State)
    requires Wf(s) && FilesPartitioned(s)
    ensures FilesPartitioned(PromoteHead(s))
  {
    if |s.waitingUploadFiles| > 0 {
      var h := s.waitingUploadFiles[0];
      var t := PromoteHead(s);
      AllBucketsWf(s);
      assert BucketWf(s, Uploading);
      NoDupTail(s.waitingUploadFiles);
      NoDupAdd(s.uploadingFiles, h);
      MovePartitioned(s, t, h, Waiting, Uploading);
    }
  }

  /**
   * Starting a file counts one more unit in flight and moves the head of
   * `waitingUploadFiles` to the tail of `uploadingFiles` with status
   * uploading; nothing else changes.
   */
  lemma StartFileMovesHead(o: Options, s: State)
    requires Wf(s) && |s.waitingUploadFiles| > 0
    ensures var r := StartUpload(o, s, FileUnit); var h := s.waitingUploadFiles[0];
      && r.out == Return(())
      && r.state == s.(uploadingCount := s.uploadingCount + 1,
                       waitingUploadFiles := s.waitingUploadFiles[1..],
                       uploadingFiles := s.uploadingFiles + [h],
                       fileInfos := s.fileInfos[h := s.fileInfos[h].(status := Uploading)])
  {
  }

  /**
   * The chunk part of a start moves the head of `waitingUploadChunks` to the
   * tail of `uploadingChunks` with status uploading, leaves the files alone,
   * and throws exactly when `onStart` is configured and both chunk lists are
   * empty; with no chunk waiting and no throw, nothing changes.
   */
  lemma ShiftChunkMovesHeadChunk(o: Options, s: State)
    requires Wf(s)
    ensures var r := ShiftChunk(o, s);
      && FilesUntouched(s, r.state)
      && (r.out.Throw? <==> o.onStart && |s.allChunks| == 0 && |s.waitingUploadChunks| == 0)
      && (|s.waitingUploadChunks| == 0 ==> r.state == s)
      && (|s.waitingUploadChunks| > 0 ==>
            var c := s.waitingUploadChunks[0];
            r.state == s.(waitingUploadChunks := s.waitingUploadChunks[1..],
                          uploadingChunks := s.uploadingChunks + [c],
                          chunkInfos := s.chunkInfos[c := s.chunkInfos[c].(status := Uploading)]))
  {
  }

  /**
   * Starting a chunk counts one more unit in flight and promotes the head
   * waiting file only when no file is uploading; then the head chunk moves.
   */
  lemma StartChunkPromotesOnlyWhenIdle(o: Options, s: State)
    requires Wf(s)
    ensures var r := StartUpload(o, s, ChunkUnit);
      && r.state.uploadingCount == s.uploadingCount + 1
      && (|s.uploadingFiles| == 0 && |s.waitingUploadFiles| > 0 ==>
            && r.state.uploadingFiles == [s.waitingUploadFiles[0]]
            && r.state.waitingUploadFiles == s.waitingUploadFiles[1..]
            && r.state.fileInfos[s.waitingUploadFiles[0]].status == Uploading)
      && (|s.uploadingFiles| > 0 || |s.waitingUploadFiles| == 0 ==>
            FilesUntouched(s, r.state))
      && (r.out.Throw? <==> o.onStart && |s.allChunks| == 0 && |s.waitingUploadChunks| == 0)
  {
    var s1 := s.(uploadingCount := s.uploadingCount + 1);
    var s2 := if |s1.uploadingFiles| == 0 then PromoteHead(s1) else s1;
    ShiftChunkMovesHeadChunk(o, s2);
  }

  lemma StartPreservesPartition(o: Options, s: State, kind: UploadType)
    requires Wf(s) && FilesPartitioned(s)
    ensures FilesPartitioned(StartUpload(o, s, kind).state)
  {
    var s1 := s.(uploadingCount := s.uploadingCount + 1);
    FilesUntouchedPartitioned(s, s1);
    PromoteHeadPartitioned(s1);
    if kind == FileUnit {
      assert StartUpload(o, s, kind).state == PromoteHead(s1);
    } else {
      var s2 := if |s1.uploadingFiles| == 0 then PromoteHead(s1) else s1;
      assert FilesPartitioned(s2);
      assert StartUpload(o, s, kind) == ShiftChunk(o, s2);
      ShiftChunkMovesHeadChunk(o, s2);
      FilesUntouchedPartitioned(s2, ShiftChunk(o, s2).state);
    }
  }

  // ---------------------------------------------------------------------
  // handleSuccessUpload
  // ---------------------------------------------------------------------

  /** The in-flight count drops on success unless it is 0; then the unit's own handling follows. */
  lemma SuccessDecrementsUnlessZero(o: Options, s: State, kind: UploadType, id: Id)
    requires Wf(s) && Stored(s, kind, id)
    ensures var s1 := s.(uploadingCount := if s.uploadingCount != 0 then s.uploadingCount - 1 else 0);
      SuccessUpload(o, s, kind, id) == (if kind == FileUnit then SuccessFile(o, s1, id) else SuccessChunk(o, s1, id))
  {
  }

  /**
   * A successful file leaves `uploadingFiles` by id and is appended to
   * `uploadedFiles` as uploaded; the call throws when the file is not
   * uploading. Completion is announced exactly when no file is left waiting
   * or uploading.
   */
  lemma SuccessFileLaw(o: Options, s: State, id: Id)
    requires Wf(s) && NoDup(s.uploadingFiles) && id in s.fileInfos
    ensures var r := SuccessFile(o, s, id);
      && (r.out.Throw? <==> id !in s.uploadingFiles)
      && (id !in s.uploadingFiles ==> r == Step(s, Throw(NotInUploading("files", id, "uploadingFiles"))))
      && (id in s.uploadingFiles ==>
            && (forall x :: x in r.state.uploadingFiles <==> x in s.uploadingFiles && x != id)
            && r.state.uploadedFiles == s.uploadedFiles + [id]
            && r.state.fileInfos == s.fileInfos[id := s.fileInfos[id].(status := Uploaded)]
            && r.state.uploadingCount == s.uploadingCount
            && (r.state.events == s.events + [Complete(s.uploadedFiles + [id])] <==>
                  |s.waitingUploadFiles| == 0 && |s.uploadingFiles| == 1))
  {
    var rm := RemoveFirst(id, s.uploadingFiles);
    RemoveFirstExactly(id, s.uploadingFiles);
    if rm.0.Some? {
      var s1 := s.(uploadingFiles := rm.1);
      var s2 := SetFileStatus(s1, id, Uploaded).(uploadedFiles := s1.uploadedFiles + [id]);
      assert SuccessFile(o, s, id) == Refill(o, s2);
      assert |s2.uploadingFiles| == 0 <==> |s.uploadingFiles| == 1;
      RefillAnnouncesCompletion(o, s2);
    }
  }

  /**
   * After a chunk's success: with chunks waiting, one request per free slot
   * (at most one per waiting chunk) and nothing else; with none waiting or
   * uploading, the chunk bookkeeping is reset, the in-flight count forced to
   * 0 and the owner of the first uploaded chunk handed on as complete.
   */
  lemma AfterChunkSuccessLaw(o: Options, s: State)
    requires Wf(s) && |s.uploadedChunks| > 0
    ensures var r := AfterChunkSuccess(o, s);
      && r.out == Return(())
      && FilesUntouched(s, r.state)
      && (|s.waitingUploadChunks| > 0 ==>
            r.state == s.(events := s.events + Repeat(GateRequested(ChunkUnit),
                            if RemainingThreads(o, s) > 0 then Min(RemainingThreads(o, s), |s.waitingUploadChunks|) else 0)))
      && (|s.waitingUploadChunks| == 0 && |s.uploadingChunks| == 0 ==>
            r.state == s.(uploadingCount := 0, allChunks := [], uploadedChunks := [],
                          events := s.events + [ChunksComplete(BatchOwner(s))]))
      && (|s.waitingUploadChunks| == 0 && |s.uploadingChunks| > 0 ==> r.state == s)
  {
    if |s.waitingUploadChunks| > 0 {
      if RemainingThreads(o, s) > 0 {
        LoopStartChunkWaiting(s, Min(RemainingThreads(o, s), |s.waitingUploadChunks|));
      } else {
        assert s.events + Repeat(GateRequested(ChunkUnit), 0) == s.events;
      }
    }
  }

  /** The chunk moved to `uploadedChunks` after its removal from `uploadingChunks`. */
  function ChunkRecorded(s: State, id: Id): (t: State)
    requires Wf(s) && id in s.chunkInfos
    ensures Wf(t) && |t.uploadedChunks| > 0
  {
    SetChunkStatus(s.(uploadingChunks := RemoveFirst(id, s.uploadingChunks).1), id, Uploaded)
      .(uploadedChunks := s.uploadedChunks + [id])
  }

  lemma SuccessChunkSteps(o: Options, s: State, id: Id)
    requires Wf(s) && id in s.chunkInfos
    ensures id !in s.uploadingChunks ==>
              SuccessChunk(o, s, id) == Step(s, Throw(NotInUploading("chunks", id, "uploadingChunks")))
    ensures id in s.uploadingChunks ==> SuccessChunk(o, s, id) == AfterChunkSuccess(o, ChunkRecorded(s, id))
    ensures FilesUntouched(s, ChunkRecorded(s, id))
  {
  }

  lemma SuccessChunkKeepsFiles(o: Options, s: State, id: Id)
    requires Wf(s) && id in s.chunkInfos
    ensures FilesUntouched(s, SuccessChunk(o, s, id).state)
  {
    SuccessChunkSteps(o, s, id);
    if id in s.uploadingChunks {
      AfterChunkSuccessLaw(o, ChunkRecorded(s, id));
    }
  }

  /**
   * A successful chunk leaves `uploadingChunks` by id and is recorded as
   * uploaded; the call throws when the chunk is not uploading. When it was
   * the last chunk of its file, the chunk bookkeeping is reset, the
   * in-flight count forced to 0 and the file handed on as complete.
   */
  lemma SuccessChunkLaw(o: Options, s: State, id: Id)
    requires Wf(s) && id in s.chunkInfos && NoDup(s.uploadingChunks)
    ensures var r := SuccessChunk(o, s, id);
      && (r.out.Throw? <==> id !in s.uploadingChunks)
      && (id !in s.uploadingChunks ==> r.state == s && r.out.message == NotInUploading("chunks", id, "uploadingChunks"))
      && (id in s.uploadingChunks ==>
            && id !in r.state.uploadingChunks
            && r.state.chunkInfos == s.chunkInfos[id := s.chunkInfos[id].(status := Uploaded)]
            && (|s.waitingUploadChunks| == 0 && |s.uploadingChunks| == 1 ==>
                  && r.state.uploadingCount == 0 && r.state.allChunks == [] && r.state.uploadedChunks == []
                  && r.state.events == s.events + [ChunksComplete(if |s.uploadedChunks| > 0 then BatchOwner(s) else s.chunkInfos[id].belongFile)]))
  {
    SuccessChunkSteps(o, s, id);
    if id in s.uploadingChunks {
      var t := ChunkRecorded(s, id);
      RemoveFirstNoDup(id, s.uploadingChunks);
      assert id !in t.uploadingChunks;
      assert |t.uploadingChunks| == 0 <==> |s.uploadingChunks| == 1;
      AfterChunkSuccessLaw(o, t);
    }
  }

  lemma SuccessPreservesPartition(o: Options, s: State, kind: UploadType, id: Id)
    requires Wf(s) && FilesPartitioned(s) && Stored(s, kind, id)
    ensures FilesPartitioned(SuccessUpload(o, s, kind, id).state)
  {
    var s1 := s.(uploadingCount := if s.uploadingCount != 0 then s.uploadingCount - 1 else 0);
    FilesUntouchedPartitioned(s, s1);
    SuccessDecrementsUnlessZero(o, s, kind, id);
    if kind == FileUnit {
      SuccessFilePartitioned(o, s1, id);
    } else {
      SuccessChunkKeepsFiles(o, s1, id);
      FilesUntouchedPartitioned(s1, SuccessChunk(o, s1, id).state);
    }
  }

  /** The file moved to `uploadedFiles` after its removal from `uploadingFiles`. */
  function FileRecorded(s: State, id: Id): (t: State)
    requires Wf(s) && id in s.fileInfos
    ensures Wf(t)
  {
    SetFileStatus(s.(uploadingFiles := RemoveFirst(id, s.uploadingFiles).1), id, Uploaded)
      .(uploadedFiles := s.uploadedFiles + [id])
  }

  lemma SuccessFileSteps(o: Options, s: State, id: Id)
    requires Wf(s) && id in s.fileInfos
    ensures id !in s.uploadingFiles ==> SuccessFile(o, s, id).state == s
    ensures id in s.uploadingFiles ==> SuccessFile(o, s, id) == Refill(o, FileRecorded(s, id))
  {
  }

  lemma FileRecordedPartitioned(s: State, id: Id)
    requires Wf(s) && FilesPartitioned(s) && id in s.fileInfos && id in s.uploadingFiles
    ensures FilesPartitioned(FileRecorded(s, id))
  {
    AllBucketsWf(s);
    assert BucketWf(s, Uploaded);
    RemoveFirstExactly(id, s.uploadingFiles);
    NoDupAdd(s.uploadedFiles, id);
    MovePartitioned(s, FileRecorded(s, id), id, Uploading, Uploaded);
  }

  lemma SuccessFilePartitioned(o: Options, s: State, id: Id)
    requires Wf(s) && FilesPartitioned(s) && id in s.fileInfos
    ensures FilesPartitioned(SuccessFile(o, s, id).state)
  {
    SuccessFileSteps(o, s, id);
    if id in s.uploadingFiles {
      var t := FileRecorded(s, id);
      FileRecordedPartitioned(s, id);
      FilesUntouchedPartitioned(t, Refill(o, t).state);
    }
  }
}
