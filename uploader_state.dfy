/**
 * The upload-queue state machine of `Uploader` (src/uploader.ts) as pure
 * transition functions over a value `State` that holds exactly the fields the
 * class keeps: the six file buckets, the five chunk buckets of the current
 * file, the in-flight counter and the byte counters. Entity records live in
 * two id-keyed stores, so a record reachable from several buckets is one
 * record. Each handler yields the new state and either a returned value or
 * the message of the exception it throws; updates made before a throw are
 * kept, as they are in the source.
 *
 * The class in module UploaderCore runs the same transitions imperatively and
 * is proved to agree with these functions.
 */
module UploaderState {
  import opened Entities
  import opened Utils

  const DEFAULT_THREADS: int := 1

  /** The options the engine reads back. `retryCount` is None when not configured. */
  datatype Options = Options(threads: int, retryCount: Option<int>, onStart: bool)

  /** Notifications and requests the engine emits, in order. */
  datatype Event =
    | GateRequested(kind: UploadType)            // upload(): the pre-flight gate was scheduled
    | NothingWaiting(kind: UploadType)           // upload(): warning, nothing to upload
    | AdapterCalled(kind: UploadType, unit: Option<Id>)  // the gate said proceed: the transport is called
    | Retried(kind: UploadType, id: Id)          // onRetry / onChunkRetry
    | Failed(kind: UploadType, id: Id)           // onError after the budget ran out
    | ChunksComplete(file: Id)                   // onChunkComplete(file, chunkCompleteCallback)
    | Complete(uploaded: seq<Id>)                // onComplete(uploadedFiles)

  datatype State = State(
    fileInfos: map<Id, FileInfo>,
    chunkInfos: map<Id, ChunkInfo>,
    allFiles: seq<Id>,
    waitingUploadFiles: seq<Id>,
    uploadingFiles: seq<Id>,
    uploadedFiles: seq<Id>,
    errorUploadFiles: seq<Id>,
    invalidFiles: seq<Id>,
    allChunks: seq<Id>,
    waitingUploadChunks: seq<Id>,
    uploadingChunks: seq<Id>,
    uploadedChunks: seq<Id>,
    errorUploadChunks: seq<Id>,
    uploadingCount: int,
    loadedSize: int,
    prevLoaded: int,
    events: seq<Event>)

  /** A transition's result: the new state and what the call returned or threw. */
  datatype Step<T> = Step(state: State, out: Outcome<T>)

  // ---------------------------------------------------------------------
  // Well-formedness of the stores and buckets
  // ---------------------------------------------------------------------

  predicate ChunksIn(cs: seq<Id>, chunkInfos: map<Id, ChunkInfo>)
  {
    forall c :: c in cs ==> c in chunkInfos
  }

  /** A file's chunk list names chunks of that file with indices 0..n-1 in order. */
  predicate ChunkListWf(f: Id, cs: seq<Id>, chunkInfos: map<Id, ChunkInfo>)
  {
    forall i :: 0 <= i < |cs| ==>
      cs[i] in chunkInfos && chunkInfos[cs[i]].belongFile == f && chunkInfos[cs[i]].index == i
  }

  predicate StoreWf(fileInfos: map<Id, FileInfo>, chunkInfos: map<Id, ChunkInfo>)
  {
    && fileInfos.Keys !! chunkInfos.Keys
    && (forall f :: f in fileInfos ==>
          fileInfos[f].id == f && ChunkListWf(f, ChunksOf(fileInfos[f]), chunkInfos))
    && (forall c :: c in chunkInfos ==>
          && chunkInfos[c].id == c
          && chunkInfos[c].belongFile in fileInfos
          && c in ChunksOf(fileInfos[chunkInfos[c].belongFile]))
  }

  predicate Wf(s: State)
  {
    && StoreWf(s.fileInfos, s.chunkInfos)
    && FilesIn(s.allFiles, s.fileInfos)
    && FilesIn(s.waitingUploadFiles, s.fileInfos)
    && FilesIn(s.uploadingFiles, s.fileInfos)
    && FilesIn(s.uploadedFiles, s.fileInfos)
    && FilesIn(s.errorUploadFiles, s.fileInfos)
    && FilesIn(s.invalidFiles, s.fileInfos)
    && ChunksIn(s.allChunks, s.chunkInfos)
    && ChunksIn(s.waitingUploadChunks, s.chunkInfos)
    && ChunksIn(s.uploadingChunks, s.chunkInfos)
    && ChunksIn(s.uploadedChunks, s.chunkInfos)
    && ChunksIn(s.errorUploadChunks, s.chunkInfos)
  }

  /** Every chunk listed by a stored file is itself stored. */
  lemma ListedChunksStored(s: State, f: Id)
    requires Wf(s) && f in s.fileInfos
    ensures ChunksIn(ChunksOf(s.fileInfos[f]), s.chunkInfos)
  {
    var cs := ChunksOf(s.fileInfos[f]);
    assert ChunkListWf(f, cs, s.chunkInfos);
    forall c | c in cs ensures c in s.chunkInfos {
      var i :| 0 <= i < |cs| && cs[i] == c;
    }
  }

  /** What the lookup finds is stored, as the kind of entity it was found as. */
  lemma FoundIsStored(s: State, id: Id)
    requires Wf(s)
    requires FindInfo(id, s.allFiles, s.fileInfos).Some?
    ensures FindInfo(id, s.allFiles, s.fileInfos).value.kind == FileUnit ==> id in s.fileInfos
    ensures FindInfo(id, s.allFiles, s.fileInfos).value.kind == ChunkUnit ==> id in s.chunkInfos
  {
    if FindInfo(id, s.allFiles, s.fileInfos).value.kind == ChunkUnit {
      var f :| f in s.allFiles && id in ChunksOf(s.fileInfos[f]);
      ListedChunksStored(s, f);
    }
  }

  /** No entity record was created or dropped. */
  predicate SameStores(s: State, t: State)
  {
    t.fileInfos.Keys == s.fileInfos.Keys && t.chunkInfos.Keys == s.chunkInfos.Keys
  }

  predicate Stored(s: State, kind: UploadType, id: Id)
  {
    if kind == FileUnit then id in s.fileInfos else id in s.chunkInfos
  }

  // ---------------------------------------------------------------------
  // Record updates (mutable fields only)
  // ---------------------------------------------------------------------

  /** Replaces a file record by one with the same id and chunk list. */
  function SetFile(s: State, id: Id, f: FileInfo): (t: State)
    requires Wf(s) && id in s.fileInfos
    requires f.id == id && f.chunks == s.fileInfos[id].chunks
    ensures Wf(t) && SameStores(s, t) && t == s.(fileInfos := s.fileInfos[id := f])
  {
    var t := s.(fileInfos := s.fileInfos[id := f]);
    assert t.fileInfos.Keys == s.fileInfos.Keys;
    t
  }

  /** Replaces a chunk record by one with the same id, owner and index. */
  function SetChunk(s: State, id: Id, c: ChunkInfo): (t: State)
    requires Wf(s) && id in s.chunkInfos
    requires c.id == id && c.belongFile == s.chunkInfos[id].belongFile && c.index == s.chunkInfos[id].index
    ensures Wf(t) && SameStores(s, t) && t == s.(chunkInfos := s.chunkInfos[id := c])
  {
    assert s.chunkInfos[id := c].Keys == s.chunkInfos.Keys;
    SetChunkKeepsStore(s.fileInfos, s.chunkInfos, id, c);
    s.(chunkInfos := s.chunkInfos[id := c])
  }

  lemma SetChunkKeepsStore(fileInfos: map<Id, FileInfo>, chunkInfos: map<Id, ChunkInfo>, id: Id, c: ChunkInfo)
    requires StoreWf(fileInfos, chunkInfos) && id in chunkInfos
    requires c.id == id && c.belongFile == chunkInfos[id].belongFile && c.index == chunkInfos[id].index
    ensures StoreWf(fileInfos, chunkInfos[id := c]) && chunkInfos[id := c].Keys == chunkInfos.Keys
  {
    var m := chunkInfos[id := c];
    assert m.Keys == chunkInfos.Keys;
    forall f | f in fileInfos ensures ChunkListWf(f, ChunksOf(fileInfos[f]), m) {
      var cs := ChunksOf(fileInfos[f]);
      assert ChunkListWf(f, cs, chunkInfos);
      forall i | 0 <= i < |cs| ensures cs[i] in m && m[cs[i]].belongFile == f && m[cs[i]].index == i {
        assert cs[i] in chunkInfos;
      }
    }
  }

  function SetFileStatus(s: State, id: Id, st: UploadStatus): (t: State)
    requires Wf(s) && id in s.fileInfos
    ensures Wf(t) && SameStores(s, t) && t == s.(fileInfos := s.fileInfos[id := s.fileInfos[id].(status := st)])
  {
    SetFile(s, id, s.fileInfos[id].(status := st))
  }

  function SetChunkStatus(s: State, id: Id, st: UploadStatus): (t: State)
    requires Wf(s) && id in s.chunkInfos
    ensures Wf(t) && SameStores(s, t) && t == s.(chunkInfos := s.chunkInfos[id := s.chunkInfos[id].(status := st)])
  {
    SetChunk(s, id, s.chunkInfos[id].(status := st))
  }

  function Log(s: State, e: Event): State
  {
    s.(events := s.events + [e])
  }

  // ---------------------------------------------------------------------
  // Derived quantities
  // ---------------------------------------------------------------------

  function EffectiveThreads(o: Options): int
  {
    if o.threads != 0 then o.threads else DEFAULT_THREADS
  }

  /**
   * The getter `theRemainingThreads`: the configured thread count (1 when
   * it is 0) minus the units in flight. It is positive exactly when a slot
   * is free.
   */
  function RemainingThreads(o: Options, s: State): (r: int)
    ensures r > 0 <==> s.uploadingCount < EffectiveThreads(o)
  {
    EffectiveThreads(o) - s.uploadingCount
  }

  /** `options.retryCount || 2`: an unset or zero budget means 2. */
  function RetryBudget(o: Options): int
  {
    if o.retryCount.Some? && o.retryCount.value != 0 then o.retryCount.value else 2
  }

  function SumSizes(ids: seq<Id>, fileInfos: map<Id, FileInfo>): (n: nat)
    requires FilesIn(ids, fileInfos)
  {
    if |ids| == 0 then 0 else fileInfos[ids[0]].size + SumSizes(ids[1..], fileInfos)
  }

  /** The getter `totalSize`: the byte sizes of `allFiles` added up. */
  function TotalSize(s: State): nat
    requires Wf(s)
  {
    SumSizes(s.allFiles, s.fileInfos)
  }

  function Min(a: int, b: int): int
  {
    if a <= b then a else b
  }

  function TypeErrorReading(property: string): string
  {
    "TypeError: Cannot read properties of undefined (reading '" + property + "')"
  }

  function NotInUploading(what: string, id: Id, queue: string): string
  {
    "Unable to find " + what + " with id " + id + " in " + queue
  }

  // ---------------------------------------------------------------------
  // upload() and loopStart(count)
  // ---------------------------------------------------------------------

  /**
   * What `upload(kind)` does synchronously: with nothing of that kind waiting
   * it only warns; otherwise it schedules the pre-flight gate (the digest and
   * the `onBefore` / `onChunkBefore` hook run later).
   */
  function UploadEvent(s: State, kind: UploadType): Event
  {
    if kind == FileUnit then
      (if |s.waitingUploadFiles| == 0 then NothingWaiting(FileUnit) else GateRequested(FileUnit))
    else
      (if |s.waitingUploadChunks| == 0 then NothingWaiting(ChunkUnit) else GateRequested(ChunkUnit))
  }

  /** `upload(type)`: one event, as `UploadEvent` chooses it, and nothing else. */
  function Upload(s: State, kind: UploadType): State
  {
    Log(s, UploadEvent(s, kind))
  }

  /**
   * `upload` changes only the log, by one event: the gate request for the
   * kind exactly when a unit of that kind waits, else the warning that
   * nothing waits.
   */
  lemma UploadLogsOneEvent(s: State, kind: UploadType)
    ensures var t := Upload(s, kind);
      && t.(events := s.events) == s && |t.events| == |s.events| + 1 && t.events[..|s.events|] == s.events
      && (t.events[|s.events|].GateRequested? <==>
            (kind == FileUnit && |s.waitingUploadFiles| > 0) || (kind == ChunkUnit && |s.waitingUploadChunks| > 0))
      && t.events[|s.events|] in [GateRequested(kind), NothingWaiting(kind)]
  {
  }

  /**
   * One iteration of `loopStart`: a waiting chunk is dispatched first; else
   * the head waiting file's chunk list (when it has one) becomes the chunk
   * queue and a chunk is dispatched; else the head file is dispatched. With no
   * waiting chunk and no waiting file, reading `.chunks` of undefined throws.
   */
  /** `t` is `s` with at most the chunk queue and `allChunks` replaced and the log extended. */
  predicate DispatchFrame(s: State, t: State)
  {
    t == s.(waitingUploadChunks := t.waitingUploadChunks, allChunks := t.allChunks, events := t.events)
  }

  function LoopStartAttempt(s: State): (r: Step<()>)
    requires Wf(s)
    ensures Wf(r.state) && DispatchFrame(s, r.state)
    ensures r.out.Throw? <==> |s.waitingUploadChunks| == 0 && |s.waitingUploadFiles| == 0
  {
    if |s.waitingUploadChunks| > 0 then Step(Upload(s, ChunkUnit), Return(()))
    else if |s.waitingUploadFiles| == 0 then Step(s, Throw(TypeErrorReading("chunks")))
    else
      var head := s.fileInfos[s.waitingUploadFiles[0]];
      if head.chunks.Some? then
        ListedChunksStored(s, s.waitingUploadFiles[0]);
        var s1 := s.(waitingUploadChunks := head.chunks.value, allChunks := head.chunks.value);
        Step(Upload(s1, ChunkUnit), Return(()))
      else
        Step(Upload(s, FileUnit), Return(()))
  }

  /** `n` iterations of the `for` loop, stopping at the first exception. */
  function LoopStartN(s: State, n: nat): (r: Step<()>)
    requires Wf(s)
    ensures Wf(r.state) && DispatchFrame(s, r.state)
    ensures r.out.Throw? ==> r.state == s
  {
    if n == 0 then Step(s, Return(()))
    else
      var p := LoopStartN(s, n - 1);
      if p.out.Throw? then p else LoopStartAttempt(p.state)
  }

  /** `loopStart(count)`: `for (i = 0; i < count; i++)`, so no iteration for count <= 0. */
  function LoopStart(s: State, count: int): (r: Step<()>)
    requires Wf(s)
    ensures Wf(r.state) && DispatchFrame(s, r.state)
    ensures r.out.Throw? ==> r.state == s
  {
    LoopStartN(s, if count > 0 then count else 0)
  }

  // ---------------------------------------------------------------------
  // handleStartUpload
  // ---------------------------------------------------------------------

  /** `waitingUploadFiles.shift()` pushed onto `uploadingFiles` with status uploading. */
  function PromoteHead(s: State): (t: State)
    requires Wf(s)
    ensures Wf(t) && SameStores(s, t)
  {
    if |s.waitingUploadFiles| == 0 then s
    else PromotedKeepsWf(s); Promoted(s)
  }

  /** The head waiting file moved to the end of `uploadingFiles`, its status uploading. */
  function Promoted(s: State): State
    requires |s.waitingUploadFiles| > 0 && s.waitingUploadFiles[0] in s.fileInfos
  {
    var h := s.waitingUploadFiles[0];
    s.(waitingUploadFiles := s.waitingUploadFiles[1..], uploadingFiles := s.uploadingFiles + [h],
       fileInfos := s.fileInfos[h := s.fileInfos[h].(status := Uploading)])
  }

  lemma PromotedKeepsWf(s: State)
    requires Wf(s) && |s.waitingUploadFiles| > 0
    ensures s.waitingUploadFiles[0] in s.fileInfos
    ensures Wf(Promoted(s)) && SameStores(s, Promoted(s))
  {
    var h := s.waitingUploadFiles[0];
    SetFileKeepsStore(s.fileInfos, s.chunkInfos, h, s.fileInfos[h].(status := Uploading));
    var t := Promoted(s);
    assert FilesIn(t.waitingUploadFiles, t.fileInfos);
    assert FilesIn(t.uploadingFiles, t.fileInfos);
  }

  /**
   * `handleStartUpload(kind, info)`: one more unit in flight. A file start
   * moves the head waiting file to uploading; a chunk start first promotes
   * the head waiting file when no file is uploading, then moves the head
   * waiting chunk. When `onStart` is configured, the first-chunk check reads
   * `waitingUploadChunks[0]`, which throws when both chunk lists are empty.
   */
  function StartUpload(o: Options, s: State, kind: UploadType): (r: Step<()>)
    requires Wf(s)
    ensures Wf(r.state) && SameStores(s, r.state)
  {
    var s1 := s.(uploadingCount := s.uploadingCount + 1);
    if kind == FileUnit then Step(PromoteHead(s1), Return(()))
    else ShiftChunk(o, if |s1.uploadingFiles| == 0 then PromoteHead(s1) else s1)
  }

  /**
   * The chunk part of a chunk start: the head waiting chunk moves to
   * `uploadingChunks` with status uploading. With `onStart` configured,
   * reading the first chunk's owner throws when both chunk lists are empty;
   * without it nothing is read and the empty `shift()` does nothing.
   */
  function ShiftChunk(o: Options, s: State): (r: Step<()>)
    requires Wf(s)
    ensures Wf(r.state) && SameStores(s, r.state)
  {
    if o.onStart && |s.allChunks| == |s.waitingUploadChunks| && |s.waitingUploadChunks| == 0 then
      Step(s, Throw(TypeErrorReading("belongFile")))
    else if |s.waitingUploadChunks| == 0 then Step(s, Return(()))
    else
      var c := s.waitingUploadChunks[0];
      Step(SetChunkStatus(s.(waitingUploadChunks := s.waitingUploadChunks[1..],
                             uploadingChunks := s.uploadingChunks + [c]), c, Uploading),
           Return(()))
  }

  // ---------------------------------------------------------------------
  // Refilling freed slots
  // ---------------------------------------------------------------------

  /**
   * After a file finished (uploaded or failed for good): refill the free
   * slots while files wait, else announce completion once nothing is
   * uploading either.
   */
  function Refill(o: Options, s: State): (r: Step<()>)
    requires Wf(s)
    ensures Wf(r.state) && DispatchFrame(s, r.state)
  {
    if |s.waitingUploadFiles| > 0 then
      if RemainingThreads(o, s) > 0 then LoopStart(s, RemainingThreads(o, s)) else Step(s, Return(()))
    else if |s.uploadingFiles| == 0 then Step(Log(s, Complete(s.uploadedFiles)), Return(()))
    else Step(s, Return(()))
  }

  // ---------------------------------------------------------------------
  // handleSuccessUpload
  // ---------------------------------------------------------------------

  function SuccessFile(o: Options, s: State, id: Id): (r: Step<()>)
    requires Wf(s) && id in s.fileInfos
    ensures Wf(r.state)
  {
    var rm := RemoveFirst(id, s.uploadingFiles);
    var s1 := s.(uploadingFiles := rm.1);
    if rm.0.None? then Step(s1, Throw(NotInUploading("files", id, "uploadingFiles")))
    else
      var s2 := SetFileStatus(s1, id, Uploaded).(uploadedFiles := s1.uploadedFiles + [id]);
      Refill(o, s2)
  }

  function SuccessChunk(o: Options, s: State, id: Id): (r: Step<()>)
    requires Wf(s) && id in s.chunkInfos
    ensures Wf(r.state)
  {
    var rm := RemoveFirst(id, s.uploadingChunks);
    var s1 := s.(uploadingChunks := rm.1);
    if rm.0.None? then Step(s1, Throw(NotInUploading("chunks", id, "uploadingChunks")))
    else AfterChunkSuccess(o, SetChunkStatus(s1, id, Uploaded).(uploadedChunks := s1.uploadedChunks + [id]))
  }

  /**
   * After a chunk succeeded: refill from the chunk queue (at most one request
   * per waiting chunk), or, when no chunk is waiting or uploading, reset the
   * chunk bookkeeping and hand the file on as complete.
   */
  function AfterChunkSuccess(o: Options, s: State): (r: Step<()>)
    requires Wf(s) && |s.uploadedChunks| > 0
    ensures Wf(r.state)
  {
    if |s.waitingUploadChunks| > 0 then
      if RemainingThreads(o, s) > 0 then
        LoopStart(s, Min(RemainingThreads(o, s), |s.waitingUploadChunks|))
      else Step(s, Return(()))
    else if |s.uploadingChunks| == 0 then
      Step(Log(s.(uploadingCount := 0, allChunks := [], uploadedChunks := []), ChunksComplete(BatchOwner(s))),
           Return(()))
    else Step(s, Return(()))
  }

  /** The file the chunk batch belongs to: the owner of the first uploaded chunk. */
  function BatchOwner(s: State): Id
    requires Wf(s) && |s.uploadedChunks| > 0
  {
    s.chunkInfos[s.uploadedChunks[0]].belongFile
  }

  /**
   * `handleSuccessUpload(kind, info)`: the in-flight count drops when it is
   * non-zero; the unit leaves its uploading queue by id (throwing when it is
   * not there) and is recorded as uploaded. A file then refills or completes
   * the batch; a chunk refills from the chunk queue or, when it was the last
   * chunk, resets the chunk bookkeeping and hands the file to
   * `onChunkComplete`.
   */
  function SuccessUpload(o: Options, s: State, kind: UploadType, id: Id): (r: Step<()>)
    requires Wf(s) && Stored(s, kind, id)
    ensures Wf(r.state)
  {
    var s1 := s.(uploadingCount := if s.uploadingCount != 0 then s.uploadingCount - 1 else s.uploadingCount);
    if kind == FileUnit then SuccessFile(o, s1, id) else SuccessChunk(o, s1, id)
  }

  // ---------------------------------------------------------------------
  // retry
  // ---------------------------------------------------------------------

  /** The budget after one retry: an exhausted budget is refilled first. */
  function NextRetryCount(o: Options, rc: int): int
  {
    (if rc == 0 then RetryBudget(o) else rc) - 1
  }

  function AfterRetry(o: Options, s: State): (r: Step<bool>)
    requires Wf(s)
    ensures Wf(r.state)
  {
    if RemainingThreads(o, s) > 0 then
      var p := LoopStart(s, RemainingThreads(o, s));
      Step(p.state, if p.out.Throw? then Throw(p.out.message) else Return(true))
    else Step(s, Return(true))
  }

  function RetryFile(o: Options, s: State, id: Id): (r: Step<bool>)
    requires Wf(s) && id in s.fileInfos
    ensures Wf(r.state)
  {
    var f := s.fileInfos[id];
    var s1 := SetFile(s, id, f.(retryCount := NextRetryCount(o, f.retryCount)));
    var rm := RemoveFirst(id, s1.uploadingFiles);
    var s2 := s1.(uploadingFiles := rm.1);
    if rm.0.None? then Step(s2, Throw(NotInUploading("files", id, "uploadingFiles")))
    else
      var s3 := SetFileStatus(s2, id, Waiting).(waitingUploadFiles := [id] + s2.waitingUploadFiles);
      AfterRetry(o, Log(s3, Retried(FileUnit, id)))
  }

  function RetryChunk(o: Options, s: State, id: Id): (r: Step<bool>)
    requires Wf(s) && id in s.chunkInfos
    ensures Wf(r.state)
  {
    var c := s.chunkInfos[id];
    var s1 := SetChunk(s, id, c.(retryCount := NextRetryCount(o, c.retryCount)));
    var rm := RemoveFirst(id, s1.uploadingChunks);
    var s2 := s1.(uploadingChunks := rm.1);
    if rm.0.None? then Step(s2, Throw(NotInUploading("files", id, "uploadingFiles")))
    else
      var s3 := SetChunkStatus(s2, id, Waiting).(waitingUploadChunks := [id] + s2.waitingUploadChunks);
      AfterRetry(o, Log(s3, Retried(ChunkUnit, id)))
  }

  /**
   * `retry(id)`: the id is looked up among `allFiles` and their chunks
   * (throwing when unknown); its budget is decremented, after a refill from
   * `options.retryCount || 2` when it was 0 (for chunks too); the unit leaves
   * its uploading queue by id (throwing when absent), becomes waiting, goes to
   * the front of its waiting queue, and free slots are refilled.
   */
  function Retry(o: Options, s: State, id: Id): (r: Step<bool>)
    requires Wf(s)
    ensures Wf(r.state)
  {
    var info := FindInfo(id, s.allFiles, s.fileInfos);
    if info.None? then Step(s, Throw("The retry upload file does not exist"))
    else
      FoundIsStored(s, id);
      if info.value.kind == FileUnit then RetryFile(o, s, id) else RetryChunk(o, s, id)
  }

  // ---------------------------------------------------------------------
  // handleErrorUpload
  // ---------------------------------------------------------------------

  function LoadedOf(s: State, kind: UploadType, id: Id): int
    requires Stored(s, kind, id)
  {
    if kind == FileUnit then s.fileInfos[id].loaded else s.chunkInfos[id].loaded
  }

  function RetryCountOf(s: State, kind: UploadType, id: Id): int
    requires Stored(s, kind, id)
  {
    if kind == FileUnit then s.fileInfos[id].retryCount else s.chunkInfos[id].retryCount
  }

  /**
   * A file whose budget is spent, once out of `uploadingFiles`: error
   * bucket, progress 100, and its bytes counted as done (the loaded bytes
   * when there are some, else its size).
   */
  function FileMarkedFailed(s: State, id: Id, loaded: int): (t: State)
    requires Wf(s) && id in s.fileInfos
    ensures Wf(t) && SameStores(s, t)
  {
    FileFailureKeepsWf(s, id, loaded); FileFailure(s, id, loaded)
  }

  /** The record and bucket updates of a failed file. */
  function FileFailure(s: State, id: Id, loaded: int): State
    requires id in s.fileInfos
  {
    var f := s.fileInfos[id];
    s.(fileInfos := s.fileInfos[id := f.(status := Error, progress := Literal(100))],
       errorUploadFiles := s.errorUploadFiles + [id],
       loadedSize := s.loadedSize + FailedCredit(f, loaded),
       events := s.events + [Failed(FileUnit, id)])
  }

  /** The bytes a failed file adds to `loadedSize`: its loaded bytes when there are some, else its size. */
  function FailedCredit(f: FileInfo, loaded: int): int
  {
    if loaded != 0 then loaded else f.size
  }

  lemma FileFailureKeepsWf(s: State, id: Id, loaded: int)
    requires Wf(s) && id in s.fileInfos
    ensures Wf(FileFailure(s, id, loaded)) && SameStores(s, FileFailure(s, id, loaded))
  {
    var f := s.fileInfos[id];
    SetFileKeepsStore(s.fileInfos, s.chunkInfos, id, f.(status := Error, progress := Literal(100)));
    var t := FileFailure(s, id, loaded);
    assert FilesIn(t.errorUploadFiles, t.fileInfos);
  }

  function FailFile(o: Options, s: State, id: Id, loaded: int): (r: Step<()>)
    requires Wf(s) && id in s.fileInfos
    ensures Wf(r.state)
  {
    var rm := RemoveFirst(id, s.uploadingFiles);
    var s1 := s.(uploadingFiles := rm.1);
    if rm.0.None? then Step(s1, Throw(NotInUploading("files", id, "uploadingFiles")))
    else Refill(o, FileMarkedFailed(s1, id, loaded))
  }

  /** The chunk, once out of `uploadingChunks`, marked error and pushed onto `errorUploadChunks`. */
  function ChunkMarkedFailed(s: State, id: Id): (t: State)
    requires Wf(s) && id in s.chunkInfos
    ensures Wf(t) && SameStores(s, t)
  {
    ChunkFailureKeepsWf(s, id); ChunkFailure(s, id)
  }

  /** The record and bucket updates of a failed chunk. */
  function ChunkFailure(s: State, id: Id): State
    requires id in s.chunkInfos
  {
    s.(chunkInfos := s.chunkInfos[id := s.chunkInfos[id].(status := Error)], errorUploadChunks := s.errorUploadChunks + [id])
  }

  lemma ChunkFailureKeepsWf(s: State, id: Id)
    requires Wf(s) && id in s.chunkInfos
    ensures Wf(ChunkFailure(s, id)) && SameStores(s, ChunkFailure(s, id))
  {
    SetChunkKeepsStore(s.fileInfos, s.chunkInfos, id, s.chunkInfos[id].(status := Error));
    var t := ChunkFailure(s, id);
    assert ChunksIn(t.errorUploadChunks, t.chunkInfos);
  }

  /**
   * The owner of a failed chunk, once out of `uploadingFiles`: error bucket
   * with progress 100, every chunk list emptied, its full size counted as
   * loaded.
   */
  function FileTornDown(s: State, owner: Id, id: Id): (t: State)
    requires Wf(s) && owner in s.fileInfos
    ensures Wf(t) && SameStores(s, t)
  {
    TearDownKeepsWf(s, owner, id); TearDown(s, owner, id)
  }

  /** The record and bucket updates of a torn-down owner. */
  function TearDown(s: State, owner: Id, id: Id): State
    requires owner in s.fileInfos
  {
    var f := s.fileInfos[owner];
    s.(fileInfos := s.fileInfos[owner := f.(status := Error, progress := Literal(100))],
       allChunks := [], waitingUploadChunks := [], uploadingChunks := [], errorUploadChunks := [],
       errorUploadFiles := s.errorUploadFiles + [owner], loadedSize := s.loadedSize + f.size,
       events := s.events + [Failed(ChunkUnit, id)])
  }

  lemma TearDownKeepsWf(s: State, owner: Id, id: Id)
    requires Wf(s) && owner in s.fileInfos
    ensures Wf(TearDown(s, owner, id)) && SameStores(s, TearDown(s, owner, id))
  {
    var f := s.fileInfos[owner];
    SetFileKeepsStore(s.fileInfos, s.chunkInfos, owner, f.(status := Error, progress := Literal(100)));
    var t := TearDown(s, owner, id);
    assert FilesIn(t.errorUploadFiles, t.fileInfos);
  }

  /**
   * A chunk whose budget is spent fails its whole file: the chunk leaves
   * `uploadingChunks` for the failed chunks, its owner leaves
   * `uploadingFiles` by id, and the file is torn down.
   */
  function FailChunk(o: Options, s: State, id: Id): (r: Step<()>)
    requires Wf(s) && id in s.chunkInfos
    ensures Wf(r.state)
  {
    var rm := RemoveFirst(id, s.uploadingChunks);
    var s1 := s.(uploadingChunks := rm.1);
    if rm.0.None? then Step(s1, Throw(NotInUploading("chunks", id, "uploadingChunks")))
    else
      var s2 := ChunkMarkedFailed(s1, id);
      var owner := s2.chunkInfos[id].belongFile;
      var rmf := RemoveFirst(owner, s2.uploadingFiles);
      var s3 := s2.(uploadingFiles := rmf.1);
      if rmf.0.None? then Step(s3, Throw(NotInUploading("files", id, "uploadingFiles")))
      else Refill(o, FileTornDown(s3, owner, id))
  }

  /**
   * `handleErrorUpload(kind, info)`: the unit's loaded bytes are taken back
   * and the in-flight count drops (unguarded). With budget left the unit is
   * retried; otherwise it fails for good.
   */
  function ErrorUpload(o: Options, s: State, kind: UploadType, id: Id): (r: Step<()>)
    requires Wf(s) && Stored(s, kind, id)
    ensures Wf(r.state)
  {
    var s1 := Charged(s, kind, id);
    if RetryCountOf(s, kind, id) != 0 then Discard(Retry(o, s1, id))
    else if kind == FileUnit then FailFile(o, s1, id, LoadedOf(s, kind, id))
    else FailChunk(o, s1, id)
  }

  /** The state an error report starts from: the unit's loaded bytes taken back, one unit fewer in flight. */
  function Charged(s: State, kind: UploadType, id: Id): (t: State)
    requires Wf(s) && Stored(s, kind, id)
    ensures Wf(t) && Stored(t, kind, id)
    ensures t.fileInfos == s.fileInfos && t.chunkInfos == s.chunkInfos
  {
    s.(loadedSize := s.loadedSize - LoadedOf(s, kind, id), uploadingCount := s.uploadingCount - 1)
  }

  /** A step whose boolean result the caller drops: the same state, the same error if any. */
  function Discard(p: Step<bool>): (r: Step<()>)
    ensures r.state == p.state && r.out.Throw? == p.out.Throw?
    ensures r.out.Throw? ==> r.out.message == p.out.message
  {
    Step(p.state, if p.out.Throw? then Throw(p.out.message) else Return(()))
  }

  // ---------------------------------------------------------------------
  // chunkCompleteCallback
  // ---------------------------------------------------------------------

  /** JavaScript truthiness of an optional string: present and non-empty. */
  predicate Truthy(m: Option<string>)
  {
    m.Some? && m.value != ""
  }

  /**
   * The continuation handed to `onChunkComplete`: an error message fails the
   * file (with a fresh budget and its loaded bytes taken back when `isRetry`,
   * with no budget otherwise); no message accepts it as uploaded.
   */
  function ChunkCompleteCallback(o: Options, s: State, errorMessage: Option<string>, fileId: Id, isRetry: bool): (r: Step<()>)
    requires Wf(s) && fileId in s.fileInfos
    ensures Wf(r.state)
  {
    if Truthy(errorMessage) then
      ResetBudgetKeepsWf(o, s, fileId, isRetry);
      ErrorUpload(o, ResetBudget(o, s, fileId, isRetry), FileUnit, fileId)
    else SuccessUpload(o, s, FileUnit, fileId)
  }

  /**
   * The file's record before a rejected completion is reported: with
   * `isRetry` its loaded bytes are taken back and its budget refilled from
   * the options; without, its budget is zeroed.
   */
  function ResetBudget(o: Options, s: State, fileId: Id, isRetry: bool): State
    requires fileId in s.fileInfos
  {
    var f := s.fileInfos[fileId];
    if isRetry then
      s.(fileInfos := s.fileInfos[fileId := f.(loaded := 0, retryCount := RetryBudget(o))],
         loadedSize := s.loadedSize - f.loaded)
    else
      s.(fileInfos := s.fileInfos[fileId := f.(retryCount := 0)])
  }

  lemma ResetBudgetKeepsWf(o: Options, s: State, fileId: Id, isRetry: bool)
    requires Wf(s) && fileId in s.fileInfos
    ensures Wf(ResetBudget(o, s, fileId, isRetry)) && SameStores(s, ResetBudget(o, s, fileId, isRetry))
  {
    var f := s.fileInfos[fileId];
    if isRetry {
      SetFileKeepsStore(s.fileInfos, s.chunkInfos, fileId, f.(loaded := 0, retryCount := RetryBudget(o)));
    } else {
      SetFileKeepsStore(s.fileInfos, s.chunkInfos, fileId, f.(retryCount := 0));
    }
    SameBucketsWf(s, ResetBudget(o, s, fileId, isRetry));
  }

  // ---------------------------------------------------------------------
  // handleProgressChange
  // ---------------------------------------------------------------------

  /**
   * `handleProgressChange(kind, {loaded, total}, info)`. A completing sample
   * (`loaded == total`) credits the entity's own size in place of the last
   * partial sample and clears `prevLoaded`; a partial sample replaces the
   * last partial sample by the new one.
   */
  function ProgressChange(s: State, kind: UploadType, id: Id, loaded: int, total: int): (t: State)
    requires Wf(s) && Stored(s, kind, id)
    ensures Wf(t) && SameStores(s, t)
  {
    if loaded == total then
      if kind == FileUnit then CompleteFileSampleKeepsWf(s, id); CompleteFileSample(s, id)
      else CompleteChunkSampleKeepsWf(s, id); CompleteChunkSample(s, id)
    else if kind == FileUnit then PartialFileSampleKeepsWf(s, id, loaded, total); PartialFileSample(s, id, loaded, total)
    else PartialChunkSampleKeepsWf(s, id, loaded); PartialChunkSample(s, id, loaded)
  }

  /** A completing file sample: fully loaded, progress 100, its size credited. */
  function CompleteFileSample(s: State, id: Id): State
    requires id in s.fileInfos
  {
    var f := s.fileInfos[id];
    s.(fileInfos := s.fileInfos[id := f.(loaded := f.size, progress := Literal(100))],
       loadedSize := s.loadedSize - s.prevLoaded + f.size, prevLoaded := 0)
  }

  /** A completing chunk sample: fully loaded, its owner's share of chunks so far, its size credited. */
  function CompleteChunkSample(s: State, id: Id): State
    requires id in s.chunkInfos && s.chunkInfos[id].belongFile in s.fileInfos
  {
    var c := s.chunkInfos[id];
    var owner := s.fileInfos[c.belongFile];
    s.(chunkInfos := s.chunkInfos[id := c.(loaded := c.size)],
       fileInfos := s.fileInfos[c.belongFile := owner.(progress := ChunkDoneProgress(owner, c))],
       loadedSize := s.loadedSize - s.prevLoaded + c.size, prevLoaded := 0)
  }

  /**
   * The owner's percentage once chunk `c` is done: 100 at its last chunk,
   * else the bytes of the chunks so far (all of chunk `c`'s size) over the
   * file's size.
   */
  function ChunkDoneProgress(owner: FileInfo, c: ChunkInfo): Progress
  {
    if c.index + 1 == |ChunksOf(owner)| then Literal(100) else Ratio(c.size * (c.index + 1), owner.size)
  }

  /** The owner's percentage while chunk `c` has `loaded` bytes: the bytes of the chunks before it and these, over the file's size. */
  function ChunkPartialProgress(owner: FileInfo, c: ChunkInfo, loaded: int): Progress
  {
    Ratio(c.index * c.size + loaded, owner.size)
  }

  /** A partial file sample: the bytes so far and their share of the total. */
  function PartialFileSample(s: State, id: Id, loaded: int, total: int): State
    requires id in s.fileInfos
  {
    var f := s.fileInfos[id];
    s.(fileInfos := s.fileInfos[id := f.(loaded := loaded, progress := Ratio(loaded, total))],
       loadedSize := s.loadedSize - s.prevLoaded + loaded, prevLoaded := loaded)
  }

  /** A partial chunk sample: the chunk's bytes so far, its owner's share of bytes so far. */
  function PartialChunkSample(s: State, id: Id, loaded: int): State
    requires id in s.chunkInfos && s.chunkInfos[id].belongFile in s.fileInfos
  {
    var c := s.chunkInfos[id];
    var owner := s.fileInfos[c.belongFile];
    s.(chunkInfos := s.chunkInfos[id := c.(loaded := loaded)],
       fileInfos := s.fileInfos[c.belongFile := owner.(progress := ChunkPartialProgress(owner, c, loaded))],
       loadedSize := s.loadedSize - s.prevLoaded + loaded, prevLoaded := loaded)
  }

  /** Replacing a file record by one with the same id and chunk list keeps the stores consistent. */
  lemma SetFileKeepsStore(fileInfos: map<Id, FileInfo>, chunkInfos: map<Id, ChunkInfo>, id: Id, f: FileInfo)
    requires StoreWf(fileInfos, chunkInfos) && id in fileInfos
    requires f.id == id && f.chunks == fileInfos[id].chunks
    ensures StoreWf(fileInfos[id := f], chunkInfos) && fileInfos[id := f].Keys == fileInfos.Keys
  {
    assert fileInfos[id := f].Keys == fileInfos.Keys;
  }

  /** New records over the same keys, with every bucket as it was, keep the state well formed. */
  lemma SameBucketsWf(s: State, t: State)
    requires Wf(s) && StoreWf(t.fileInfos, t.chunkInfos) && SameStores(s, t)
    requires t.allFiles == s.allFiles && t.waitingUploadFiles == s.waitingUploadFiles
    requires t.uploadingFiles == s.uploadingFiles && t.uploadedFiles == s.uploadedFiles
    requires t.errorUploadFiles == s.errorUploadFiles && t.invalidFiles == s.invalidFiles
    requires t.allChunks == s.allChunks && t.waitingUploadChunks == s.waitingUploadChunks
    requires t.uploadingChunks == s.uploadingChunks && t.uploadedChunks == s.uploadedChunks
    requires t.errorUploadChunks == s.errorUploadChunks
    ensures Wf(t)
  {
  }

  lemma CompleteFileSampleKeepsWf(s: State, id: Id)
    requires Wf(s) && id in s.fileInfos
    ensures Wf(CompleteFileSample(s, id)) && SameStores(s, CompleteFileSample(s, id))
  {
    var f := s.fileInfos[id];
    SetFileKeepsStore(s.fileInfos, s.chunkInfos, id, f.(loaded := f.size, progress := Literal(100)));
    SameBucketsWf(s, CompleteFileSample(s, id));
  }

  lemma CompleteChunkSampleKeepsWf(s: State, id: Id)
    requires Wf(s) && id in s.chunkInfos
    ensures s.chunkInfos[id].belongFile in s.fileInfos
    ensures Wf(CompleteChunkSample(s, id)) && SameStores(s, CompleteChunkSample(s, id))
  {
    var c := s.chunkInfos[id];
    var owner := s.fileInfos[c.belongFile];
    var chunks := s.chunkInfos[id := c.(loaded := c.size)];
    SetChunkKeepsStore(s.fileInfos, s.chunkInfos, id, c.(loaded := c.size));
    SetFileKeepsStore(s.fileInfos, chunks, c.belongFile, owner.(progress := ChunkDoneProgress(owner, c)));
    SameBucketsWf(s, CompleteChunkSample(s, id));
  }

  lemma PartialFileSampleKeepsWf(s: State, id: Id, loaded: int, total: int)
    requires Wf(s) && id in s.fileInfos
    ensures Wf(PartialFileSample(s, id, loaded, total)) && SameStores(s, PartialFileSample(s, id, loaded, total))
  {
    var f := s.fileInfos[id];
    SetFileKeepsStore(s.fileInfos, s.chunkInfos, id, f.(loaded := loaded, progress := Ratio(loaded, total)));
    SameBucketsWf(s, PartialFileSample(s, id, loaded, total));
  }

  lemma PartialChunkSampleKeepsWf(s: State, id: Id, loaded: int)
    requires Wf(s) && id in s.chunkInfos
    ensures s.chunkInfos[id].belongFile in s.fileInfos
    ensures Wf(PartialChunkSample(s, id, loaded)) && SameStores(s, PartialChunkSample(s, id, loaded))
  {
    var c := s.chunkInfos[id];
    var owner := s.fileInfos[c.belongFile];
    var chunks := s.chunkInfos[id := c.(loaded := loaded)];
    SetChunkKeepsStore(s.fileInfos, s.chunkInfos, id, c.(loaded := loaded));
    SetFileKeepsStore(s.fileInfos, chunks, c.belongFile, owner.(progress := ChunkPartialProgress(owner, c, loaded)));
    SameBucketsWf(s, PartialChunkSample(s, id, loaded));
  }

  // ---------------------------------------------------------------------
  // Public mutators: toSuccessful, remove, clearStats
  // ---------------------------------------------------------------------

  /**
   * `toSuccessful(id)`: the id is looked up (throwing when unknown), then the
   * start, a completing progress sample and the success are replayed for it.
   */
  function ToSuccessful(o: Options, s: State, id: Id): (r: Step<()>)
    requires Wf(s)
    ensures Wf(r.state)
  {
    var info := FindInfo(id, s.allFiles, s.fileInfos);
    if info.None? then
      Step(s, Throw("The id passed in when the toSuccessful method is called does not exist"))
    else
      FoundIsStored(s, id);
      Replay(o, s, info.value.kind, id)
  }

  /** The start, a completing sample (`loaded == total == 1`) and the success of one unit, the start's exception ending it. */
  function Replay(o: Options, s: State, kind: UploadType, id: Id): (r: Step<()>)
    requires Wf(s) && Stored(s, kind, id)
    ensures Wf(r.state)
  {
    var p := StartUpload(o, s, kind);
    if p.out.Throw? then p
    else SuccessUpload(o, ProgressChange(p.state, kind, id, 1, 1), kind, id)
  }

  /**
   * `remove(id)`: an empty id throws; an id the lookup does not find returns
   * false; otherwise the id is deleted from all six file buckets and, when
   * any held it, the file's size is taken off `loadedSize` once.
   */
  function Remove(s: State, id: Id): (r: Step<bool>)
    requires Wf(s)
    ensures Wf(r.state)
  {
    if id == "" then Step(s, Throw("uploader.remove(id: string): The id must be a string."))
    else if FindInfo(id, s.allFiles, s.fileInfos).None? then Step(s, Return(false))
    else
      SplicedKeepsWf(s, id);
      if !HeldAnywhere(s, id) then Step(Spliced(s, id), Return(false))
      else Step(Spliced(s, id).(loadedSize := s.loadedSize - s.fileInfos[id].size), Return(true))
  }

  /** `id` spliced out of each of the six file lists, at its first occurrence. */
  function Spliced(s: State, id: Id): State
  {
    s.(allFiles := RemoveFirst(id, s.allFiles).1, waitingUploadFiles := RemoveFirst(id, s.waitingUploadFiles).1,
       uploadingFiles := RemoveFirst(id, s.uploadingFiles).1, uploadedFiles := RemoveFirst(id, s.uploadedFiles).1,
       errorUploadFiles := RemoveFirst(id, s.errorUploadFiles).1, invalidFiles := RemoveFirst(id, s.invalidFiles).1)
  }

  /** Some file list held `id`: one of the splices removed something. */
  predicate HeldAnywhere(s: State, id: Id)
  {
    || RemoveFirst(id, s.allFiles).0.Some? || RemoveFirst(id, s.waitingUploadFiles).0.Some?
    || RemoveFirst(id, s.uploadingFiles).0.Some? || RemoveFirst(id, s.uploadedFiles).0.Some?
    || RemoveFirst(id, s.errorUploadFiles).0.Some? || RemoveFirst(id, s.invalidFiles).0.Some?
  }

  /** The splices keep the state well formed, and an id some list held names a stored file. */
  lemma SplicedKeepsWf(s: State, id: Id)
    requires Wf(s)
    ensures Wf(Spliced(s, id)) && SameStores(s, Spliced(s, id))
    ensures HeldAnywhere(s, id) ==> id in s.fileInfos
  {
  }

  /** `clearStats()`: every bucket emptied and both byte counters zeroed. */
  function ClearStats(s: State): (t: State)
    ensures Wf(s) ==> Wf(t)
    ensures t.fileInfos == s.fileInfos && t.chunkInfos == s.chunkInfos && t.uploadingCount == s.uploadingCount
  {
    s.(allFiles := [], waitingUploadFiles := [], uploadingFiles := [], uploadedFiles := [],
       errorUploadFiles := [], invalidFiles := [], allChunks := [], waitingUploadChunks := [],
       uploadingChunks := [], uploadedChunks := [], errorUploadChunks := [],
       loadedSize := 0, prevLoaded := 0)
  }

  // ---------------------------------------------------------------------
  // The pre-flight gate's answers
  // ---------------------------------------------------------------------

  /**
   * `beforeUploadCallback(errorMessage)`: a rejection moves the head waiting
   * file to `invalidFiles` with status invalid; otherwise the transport is
   * called for the head waiting file.
   */
  function BeforeUploadCallback(s: State, errorMessage: Option<string>): (t: State)
    requires Wf(s)
    ensures Wf(t)
  {
    if Truthy(errorMessage) then
      if |s.waitingUploadFiles| == 0 then s
      else InvalidatedKeepsWf(s); Invalidated(s)
    else
      Log(s, AdapterCalled(FileUnit,
                           if |s.waitingUploadFiles| > 0 then Some(s.waitingUploadFiles[0]) else None))
  }

  /** The head waiting file marked invalid and pushed onto `invalidFiles`. */
  function Invalidated(s: State): State
    requires |s.waitingUploadFiles| > 0 && s.waitingUploadFiles[0] in s.fileInfos
  {
    var h := s.waitingUploadFiles[0];
    s.(waitingUploadFiles := s.waitingUploadFiles[1..], fileInfos := s.fileInfos[h := s.fileInfos[h].(status := Invalid)],
       invalidFiles := s.invalidFiles + [h])
  }

  lemma InvalidatedKeepsWf(s: State)
    requires Wf(s) && |s.waitingUploadFiles| > 0
    ensures s.waitingUploadFiles[0] in s.fileInfos
    ensures Wf(Invalidated(s)) && SameStores(s, Invalidated(s))
  {
    var h := s.waitingUploadFiles[0];
    SetFileKeepsStore(s.fileInfos, s.chunkInfos, h, s.fileInfos[h].(status := Invalid));
    var t := Invalidated(s);
    assert FilesIn(t.waitingUploadFiles, t.fileInfos);
    assert FilesIn(t.invalidFiles, t.fileInfos);
  }

  /**
   * `beforeChunkUploadCallback(errorMessage)`: a rejection moves the head
   * waiting FILE to `invalidFiles` without touching its status; otherwise the
   * transport is called for the head waiting chunk.
   */
  function BeforeChunkUploadCallback(s: State, errorMessage: Option<string>): (t: State)
    requires Wf(s)
    ensures Wf(t)
  {
    if Truthy(errorMessage) then
      if |s.waitingUploadFiles| == 0 then s
      else s.(waitingUploadFiles := s.waitingUploadFiles[1..],
              invalidFiles := s.invalidFiles + [s.waitingUploadFiles[0]])
    else
      Log(s, AdapterCalled(ChunkUnit,
                           if |s.waitingUploadChunks| > 0 then Some(s.waitingUploadChunks[0]) else None))
  }

  // ---------------------------------------------------------------------
  // The instance validateOptions of the class
  // ---------------------------------------------------------------------

  /**
   * The class's `validateOptions`: a transport adapter must be configured on
   * the instance or statically, and `url` must be non-empty.
   */
  function ValidateUploaderOptions(instanceAdapter: bool, staticAdapter: bool, url: string): (r: Outcome<()>)
    ensures r.Return? <==> (instanceAdapter || staticAdapter) && url != ""
    ensures !instanceAdapter && !staticAdapter ==> r == ThrowError("There is no requestAdapter.")
  {
    if !instanceAdapter && !staticAdapter then ThrowError("There is no requestAdapter.")
    else if url == "" then ThrowError("url is required.")
    else Return(())
  }
}
