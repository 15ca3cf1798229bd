/**
 * The older base class `Uploader` of src/Uploader.ts: plain FIFO queues of
 * files, no retry, no chunks, no byte accounting. A request is handed to a
 * configured adapter, which later reports success, failure and completion
 * through the handlers. The handlers move the head of one queue to the tail
 * of the next with `shift` and `push`; `shift` on an empty array yields
 * `undefined`, which `push` then appends, so queue slots are `Option<File>`.
 */
module LegacyQueue {
  import opened Entities
  import opened Utils

  datatype HttpMethod = Post | Get

  /** The user callbacks the class may call; each is optional. */
  datatype Hook = BeforeUpload | StartUpload | SuccessUpload | ErrorUpload | AfterUpload | UploadComplete

  /** What the class does that is visible outside it, in order. */
  datatype Event =
    | Called(hook: Hook)                                       // a configured user callback ran
    | AdapterRequest(url: string, file: File, httpMethod: HttpMethod)  // the request adapter was invoked
    | Warned(message: string)                                  // console.warn

  /** The stored options; `hooks` are the callbacks the user supplied. */
  datatype Options = Options(url: string, httpMethod: HttpMethod, autoUpload: bool, threads: int, hooks: set<Hook>)

  /** The four queues and the event log. */
  datatype State = State(waitingUploadFiles: seq<Option<File>>, uploadingFiles: seq<Option<File>>,
                         uploadedFiles: seq<Option<File>>, errorUploadFiles: seq<Option<File>>,
                         events: seq<Event>)

  const NoAdapterMessage: string := "Please configure Upload requestAdapter using upload.configure() method."
  const NoUrlMessage: string := "url is required."
  const NoFilesWaiting: string := "[webuploader]: There are no files waiting to be uploaded!"

  // ---------------------------------------------------------------------
  // Construction
  // ---------------------------------------------------------------------

  function Default<T>(v: Option<T>, d: T): T
  {
    if v.Some? then v.value else d
  }

  /**
   * The constructor's checks and defaults: it throws when no request
   * adapter was configured on the class, then when `url` is missing or
   * empty; otherwise it stores the options with `method` defaulting to
   * post, `autoUpload` to true and `threads` to 1.
   */
  function Construct(adapterConfigured: bool, url: Option<string>, httpMethod: Option<HttpMethod>,
                     autoUpload: Option<bool>, threads: Option<int>, hooks: set<Hook>): (r: Outcome<Options>)
    ensures r.Throw? ==> r.message == ErrorPrefix + NoAdapterMessage || r.message == ErrorPrefix + NoUrlMessage
    ensures r.Return? ==> adapterConfigured && url.Some? && r.value.url == url.value != "" && r.value.hooks == hooks
  {
    if !adapterConfigured then ThrowError(NoAdapterMessage)
    else if Default(url, "") == "" then ThrowError(NoUrlMessage)
    else Return(Options(url.value, Default(httpMethod, Post), Default(autoUpload, true), Default(threads, 1), hooks))
  }

  /**
   * Construction fails exactly when the adapter is missing or the url is
   * empty, with the adapter message taking precedence; a successful one
   * keeps the given url and fills each missing option with its default.
   */
  lemma ConstructorChecks(adapterConfigured: bool, url: Option<string>, httpMethod: Option<HttpMethod>,
                          autoUpload: Option<bool>, threads: Option<int>, hooks: set<Hook>)
    ensures var r := Construct(adapterConfigured, url, httpMethod, autoUpload, threads, hooks);
      && (r.Throw? <==> !adapterConfigured || url.None? || url.value == "")
      && (!adapterConfigured ==> r == Throw(ErrorPrefix + NoAdapterMessage))
      && (adapterConfigured && (url.None? || url.value == "") ==> r == Throw(ErrorPrefix + NoUrlMessage))
      && (r.Return? ==> r.value.url == url.value && r.value.hooks == hooks
                        && (httpMethod.None? ==> r.value.httpMethod == Post)
                        && (autoUpload.None? ==> r.value.autoUpload)
                        && (threads.None? ==> r.value.threads == 1))
  {
  }

  // ---------------------------------------------------------------------
  // Transitions
  // ---------------------------------------------------------------------

  /** `hook && hook()`: the callback runs only when it was supplied. */
  function Fire(o: Options, h: Hook): seq<Event>
  {
    if h in o.hooks then [Called(h)] else []
  }

  /** `shift` on an array: the head (`undefined` when empty) and what is left. */
  function Shift(q: seq<Option<File>>): (Option<File>, seq<Option<File>>)
  {
    if |q| == 0 then (None, q) else (q[0], q[1..])
  }

  /** `handleStartUpload`: the head waiting file to the tail of `uploadingFiles`, then `startUpload`. */
  function HandleStartUpload(o: Options, s: State): (t: State)
    ensures t.uploadedFiles == s.uploadedFiles && t.errorUploadFiles == s.errorUploadFiles && s.events <= t.events
    ensures |t.uploadingFiles| == |s.uploadingFiles| + 1
    ensures |t.waitingUploadFiles| + |t.uploadingFiles| == |s.waitingUploadFiles| + |s.uploadingFiles| + (if |s.waitingUploadFiles| == 0 then 1 else 0)
  {
    var (f, rest) := Shift(s.waitingUploadFiles);
    s.(waitingUploadFiles := rest, uploadingFiles := s.uploadingFiles + [f], events := s.events + Fire(o, StartUpload))
  }

  /** The file `start` would send, if the head waiting slot holds one. */
  function Head(s: State): Option<File>
  {
    if |s.waitingUploadFiles| == 0 then None else s.waitingUploadFiles[0]
  }

  /**
   * `start()`: with no file at the head of the queue, only a warning;
   * otherwise `uploadRequest`, which calls `beforeUpload`, then the adapter
   * with the head file, then `startUpload` (`handleStartUpload`).
   */
  function Start(o: Options, s: State): (t: State)
    ensures t.uploadedFiles == s.uploadedFiles && t.errorUploadFiles == s.errorUploadFiles
    ensures s.events < t.events
    ensures |t.uploadingFiles| == |s.uploadingFiles| + (if Head(s).Some? then 1 else 0)
    ensures |t.waitingUploadFiles| + |t.uploadingFiles| == |s.waitingUploadFiles| + |s.uploadingFiles|
  {
    if Head(s).None? then s.(events := s.events + [Warned(NoFilesWaiting)])
    else
      var s1 := s.(events := s.events + Fire(o, BeforeUpload) + [AdapterRequest(o.url, Head(s).value, o.httpMethod)]);
      HandleStartUpload(o, s1)
  }

  /** `loopStart(count)`: `start` called `count` times. */
  function LoopStart(o: Options, s: State, count: int): (t: State)
    ensures t.uploadedFiles == s.uploadedFiles && t.errorUploadFiles == s.errorUploadFiles
    ensures s.events <= t.events && (count > 0 ==> |t.events| >= |s.events| + count)
    ensures |t.waitingUploadFiles| + |t.uploadingFiles| == |s.waitingUploadFiles| + |s.uploadingFiles|
    ensures |s.uploadingFiles| <= |t.uploadingFiles| <= |s.uploadingFiles| + (if count > 0 then count else 0)
    decreases if count > 0 then count else 0
  {
    if count <= 0 then s else Start(o, LoopStart(o, s, count - 1))
  }

  /** The queues after a success report, before the completion check. */
  function SuccessMoved(o: Options, s: State): State
  {
    var s1 := s.(events := s.events + Fire(o, SuccessUpload));
    var (f, rest) := Shift(s1.uploadingFiles);
    var s2 := s1.(uploadingFiles := rest, uploadedFiles := s1.uploadedFiles + [f]);
    if |s2.waitingUploadFiles| > 0 then Start(o, s2) else s2
  }

  /** Both queues a completion waits on are empty. */
  predicate Drained(s: State)
  {
    |s.waitingUploadFiles| == 0 && |s.uploadingFiles| == 0
  }

  /**
   * `handleSuccessUpload`: `successUpload`, the head uploading file to the
   * tail of `uploadedFiles`, `start` when files are waiting, and
   * `uploadComplete` when nothing is waiting or uploading any more.
   */
  function HandleSuccessUpload(o: Options, s: State): (t: State)
    ensures t.errorUploadFiles == s.errorUploadFiles && |t.uploadedFiles| == |s.uploadedFiles| + 1
    ensures s.uploadedFiles <= t.uploadedFiles && s.events <= t.events
  {
    var t := SuccessMoved(o, s);
    if Drained(t) then t.(events := t.events + Fire(o, UploadComplete)) else t
  }

  /** `handleErrorUpload`: the head uploading file to the tail of `errorUploadFiles`, then `errorUpload`. */
  function HandleErrorUpload(o: Options, s: State): (t: State)
    ensures t.waitingUploadFiles == s.waitingUploadFiles && t.uploadedFiles == s.uploadedFiles
    ensures s.errorUploadFiles <= t.errorUploadFiles && |t.errorUploadFiles| == |s.errorUploadFiles| + 1
    ensures s.events <= t.events && (|t.events| > |s.events| <==> ErrorUpload in o.hooks)
  {
    var (f, rest) := Shift(s.uploadingFiles);
    s.(uploadingFiles := rest, errorUploadFiles := s.errorUploadFiles + [f], events := s.events + Fire(o, ErrorUpload))
  }

  /** `handleAfterUpload`: only the `afterUpload` callback. */
  function HandleAfterUpload(o: Options, s: State): (t: State)
    ensures t.(events := s.events) == s && s.events <= t.events
    ensures |t.events| > |s.events| <==> AfterUpload in o.hooks
  {
    s.(events := s.events + Fire(o, AfterUpload))
  }

  // ---------------------------------------------------------------------
  // Properties
  // ---------------------------------------------------------------------

  /** The number of slots across the four queues. */
  function Total(s: State): nat
  {
    |s.waitingUploadFiles| + |s.uploadingFiles| + |s.uploadedFiles| + |s.errorUploadFiles|
  }

  /** The slots, as a multiset, across the four queues. */
  function Slots(s: State): multiset<Option<File>>
  {
    multiset(s.waitingUploadFiles) + multiset(s.uploadingFiles) + multiset(s.uploadedFiles) + multiset(s.errorUploadFiles)
  }

  /**
   * `handleStartUpload` moves the head waiting file to the tail of
   * `uploadingFiles` and logs `startUpload` when it is configured; from an
   * empty queue it appends `undefined` instead, making one slot more.
   */
  lemma StartUploadMovesHead(o: Options, s: State)
    ensures var r := HandleStartUpload(o, s);
      && (|s.waitingUploadFiles| > 0 ==>
            && r.waitingUploadFiles == s.waitingUploadFiles[1..]
            && r.uploadingFiles == s.uploadingFiles + [s.waitingUploadFiles[0]]
            && Slots(r) == Slots(s))
      && (|s.waitingUploadFiles| == 0 ==>
            r.waitingUploadFiles == [] && r.uploadingFiles == s.uploadingFiles + [None] && Total(r) == Total(s) + 1)
      && r.uploadedFiles == s.uploadedFiles && r.errorUploadFiles == s.errorUploadFiles
      && r.events == s.events + Fire(o, StartUpload)
  {
    if |s.waitingUploadFiles| > 0 {
      assert s.waitingUploadFiles == [s.waitingUploadFiles[0]] + s.waitingUploadFiles[1..];
    }
  }

  /**
   * `handleErrorUpload` moves the head uploading file to the tail of
   * `errorUploadFiles` and never back to the waiting queue (there is no
   * retry); from an empty queue it appends `undefined`.
   */
  lemma ErrorUploadMovesHead(o: Options, s: State)
    ensures var r := HandleErrorUpload(o, s);
      && r.waitingUploadFiles == s.waitingUploadFiles && r.uploadedFiles == s.uploadedFiles
      && (|s.uploadingFiles| > 0 ==>
            && r.uploadingFiles == s.uploadingFiles[1..]
            && r.errorUploadFiles == s.errorUploadFiles + [s.uploadingFiles[0]]
            && Slots(r) == Slots(s))
      && (|s.uploadingFiles| == 0 ==> r.errorUploadFiles == s.errorUploadFiles + [None] && Total(r) == Total(s) + 1)
      && r.events == s.events + Fire(o, ErrorUpload)
  {
    if |s.uploadingFiles| > 0 {
      assert s.uploadingFiles == [s.uploadingFiles[0]] + s.uploadingFiles[1..];
    }
  }

  /**
   * `start` with no file at the head of the queue changes no queue and only
   * warns; with one, it moves that file to `uploadingFiles`, keeps every
   * slot, and its events are `beforeUpload`, the adapter request for that
   * file, then `startUpload`, in that order.
   */
  lemma StartCallOrder(o: Options, s: State)
    ensures var r := Start(o, s);
      && (Head(s).None? ==> r == s.(events := s.events + [Warned(NoFilesWaiting)]))
      && (Head(s).Some? ==>
            && r.events == s.events + Fire(o, BeforeUpload) + [AdapterRequest(o.url, Head(s).value, o.httpMethod)] + Fire(o, StartUpload)
            && r.waitingUploadFiles == s.waitingUploadFiles[1..]
            && r.uploadingFiles == s.uploadingFiles + [Head(s)]
            && r.uploadedFiles == s.uploadedFiles && r.errorUploadFiles == s.errorUploadFiles
            && Slots(r) == Slots(s))
  {
    if Head(s).Some? {
      var s1 := s.(events := s.events + Fire(o, BeforeUpload) + [AdapterRequest(o.url, Head(s).value, o.httpMethod)]);
      StartUploadMovesHead(o, s1);
    }
  }

  /** `start` keeps every slot and logs at least one event. */
  lemma StartKeepsSlots(o: Options, s: State)
    ensures Slots(Start(o, s)) == Slots(s) && |Start(o, s).events| > |s.events|
  {
    if Head(s).Some? {
      assert s.waitingUploadFiles == [s.waitingUploadFiles[0]] + s.waitingUploadFiles[1..];
    }
  }

  /** `start` with a file at the head moves just that file to the tail of `uploadingFiles`. */
  lemma StartMovesHead(o: Options, s: State)
    requires Head(s).Some?
    ensures Start(o, s).waitingUploadFiles == s.waitingUploadFiles[1..]
    ensures Start(o, s).uploadingFiles == s.uploadingFiles + [Head(s)]
  {
  }

  /** `loopStart(count)` never changes the slots of the four queues, and logs at least one event per attempt. */
  lemma {:induction false} LoopStartKeepsSlots(o: Options, s: State, count: int)
    ensures Slots(LoopStart(o, s, count)) == Slots(s)
    ensures count > 0 ==> |LoopStart(o, s, count).events| >= |s.events| + count
    decreases if count > 0 then count else 0
  {
    if count > 0 {
      var p := LoopStart(o, s, count - 1);
      LoopStartKeepsSlots(o, s, count - 1);
      StartKeepsSlots(o, p);
      assert LoopStart(o, s, count) == Start(o, p);
    }
  }

  /**
   * `loopStart(count)` with at least `count` files waiting, all present,
   * moves exactly the first `count` of them, in order, to the tail of
   * `uploadingFiles`.
   */
  lemma {:induction false} LoopStartMovesPrefix(o: Options, s: State, count: nat)
    requires count <= |s.waitingUploadFiles|
    requires forall i :: 0 <= i < count ==> s.waitingUploadFiles[i].Some?
    ensures LoopStart(o, s, count).waitingUploadFiles == s.waitingUploadFiles[count..]
    ensures LoopStart(o, s, count).uploadingFiles == s.uploadingFiles + s.waitingUploadFiles[..count]
  {
    if count > 0 {
      LoopStartMovesPrefix(o, s, count - 1);
      var p := LoopStart(o, s, count - 1);
      assert p.waitingUploadFiles[0] == s.waitingUploadFiles[count - 1];
      StartMovesHead(o, p);
      assert LoopStart(o, s, count) == Start(o, p);
      assert s.waitingUploadFiles[..count] == s.waitingUploadFiles[..count - 1] + [s.waitingUploadFiles[count - 1]];
    }
  }

  /**
   * A success report keeps every slot when a file was uploading: the head
   * uploading file goes to the tail of `uploadedFiles` and, when files are
   * waiting, the next one is started.
   */
  lemma SuccessUploadKeepsSlots(o: Options, s: State)
    requires |s.uploadingFiles| > 0
    ensures var r := HandleSuccessUpload(o, s);
      && Slots(r) == Slots(s)
      && r.uploadedFiles == s.uploadedFiles + [s.uploadingFiles[0]]
      && r.errorUploadFiles == s.errorUploadFiles
      && (|s.waitingUploadFiles| > 0 && s.waitingUploadFiles[0].Some? ==>
            r.uploadingFiles == s.uploadingFiles[1..] + [s.waitingUploadFiles[0]] &&
            r.waitingUploadFiles == s.waitingUploadFiles[1..])
      && (|s.waitingUploadFiles| == 0 ==> r.uploadingFiles == s.uploadingFiles[1..] && r.waitingUploadFiles == [])
  {
    var s1 := s.(events := s.events + Fire(o, SuccessUpload));
    var s2 := s1.(uploadingFiles := s.uploadingFiles[1..], uploadedFiles := s.uploadedFiles + [s.uploadingFiles[0]]);
    assert s.uploadingFiles == [s.uploadingFiles[0]] + s.uploadingFiles[1..];
    assert Slots(s2) == Slots(s);
    if |s2.waitingUploadFiles| > 0 {
      StartCallOrder(o, s2);
    }
  }

  /** How many times `uploadComplete` appears in a log. */
  function Completions(events: seq<Event>): nat
  {
    multiset(events)[Called(UploadComplete)]
  }

  /**
   * `uploadComplete` fires once after a success exactly when the hook is
   * configured and, after the success, nothing is waiting and nothing is
   * uploading; that happens exactly when nothing was waiting and at most
   * the reported file was uploading.
   */
  lemma CompleteExactlyWhenDrained(o: Options, s: State)
    ensures var r := HandleSuccessUpload(o, s);
      && Completions(r.events) == Completions(s.events) + (if UploadComplete in o.hooks && Drained(r) then 1 else 0)
      && (Drained(r) <==> |s.waitingUploadFiles| == 0 && |s.uploadingFiles| <= 1)
  {
    var s1 := s.(events := s.events + Fire(o, SuccessUpload));
    var (f, rest) := Shift(s1.uploadingFiles);
    var s2 := s1.(uploadingFiles := rest, uploadedFiles := s1.uploadedFiles + [f]);
    assert Completions(s1.events) == Completions(s.events);
    if |s2.waitingUploadFiles| > 0 {
      StartCallOrder(o, s2);
      NoCompletionInStart(o, s2);
    }
  }

  lemma NoCompletionInStart(o: Options, s: State)
    ensures Completions(Start(o, s).events) == Completions(s.events)
    ensures |s.waitingUploadFiles| > 0 ==> |Start(o, s).uploadingFiles| > 0 || |Start(o, s).waitingUploadFiles| > 0
  {
  }

  /**
   * Across start, success and error, the number of slots in the four
   * queues is conserved when the queue the transition shifts from is not
   * empty.
   */
  lemma TotalConserved(o: Options, s: State)
    ensures Total(Start(o, s)) == Total(s)
    ensures |s.waitingUploadFiles| > 0 ==> Total(HandleStartUpload(o, s)) == Total(s)
    ensures |s.uploadingFiles| > 0 ==> Total(HandleSuccessUpload(o, s)) == Total(s)
    ensures |s.uploadingFiles| > 0 ==> Total(HandleErrorUpload(o, s)) == Total(s)
  {
    StartCallOrder(o, s);
    StartUploadMovesHead(o, s);
    if |s.uploadingFiles| > 0 {
      SuccessUploadKeepsSlots(o, s);
      ErrorUploadMovesHead(o, s);
    }
  }
}

/**
 * The legacy `Uploader` object: its queue fields are reassigned by the
 * handlers, and each method is proved against the transition of the same
 * name in `LegacyQueue`.
 */
module LegacyUploader {
  import opened Entities
  import opened Utils
  import L = LegacyQueue

  // ---------------------------------------------------------------------
  // The class
  // ---------------------------------------------------------------------

  class Uploader {
    const options: L.Options
    var allFiles: seq<Option<File>>
    var waitingUploadFiles: seq<Option<File>>
    var uploadingFiles: seq<Option<File>>
    var uploadedFiles: seq<Option<File>>
    var errorUploadFiles: seq<Option<File>>

    /** The callbacks, adapter requests and warnings so far, in order. */
    var events: seq<L.Event>

    /** The queues and the log as a value of the transition functions' state type. */
    function Snapshot(): L.State
      reads this
    {
      L.State(waitingUploadFiles, uploadingFiles, uploadedFiles, errorUploadFiles, events)
    }

    /** The part of the constructor that runs once the checks passed: stored options, empty queues. */
    constructor(o: L.Options)
      ensures options == o && allFiles == [] && events == []
      ensures Snapshot() == L.State([], [], [], [], [])
    {
      options := o;
      allFiles := [];
      waitingUploadFiles := [];
      uploadingFiles := [];
      uploadedFiles := [];
      errorUploadFiles := [];
      events := [];
    }

    /** `new Uploader(options)`: the checks of `Construct`, then a fresh object with empty queues. */
    static method Create(adapterConfigured: bool, url: Option<string>, httpMethod: Option<L.HttpMethod>,
                         autoUpload: Option<bool>, threads: Option<int>, hooks: set<L.Hook>) returns (out: Outcome<Uploader>)
      ensures var c := L.Construct(adapterConfigured, url, httpMethod, autoUpload, threads, hooks);
        && (out.Throw? <==> c.Throw?)
        && (out.Throw? ==> out.message == c.message)
        && (out.Return? ==> fresh(out.value) && out.value.options == c.value && out.value.Snapshot() == L.State([], [], [], [], []))
    {
      if !adapterConfigured {
        return ThrowError(L.NoAdapterMessage);
      }
      if url.None? || url.value == "" {
        return ThrowError(L.NoUrlMessage);
      }
      var u := new Uploader(L.Options(url.value, L.Default(httpMethod, L.Post), L.Default(autoUpload, true), L.Default(threads, 1), hooks));
      out := Return(u);
    }

    /** `hook && hook()`. */
    method Call(h: L.Hook)
      modifies this
      ensures Snapshot() == old(Snapshot()).(events := old(events) + L.Fire(options, h))
      ensures allFiles == old(allFiles)
    {
      if h in options.hooks {
        events := events + [L.Called(h)];
      }
    }

    /** `loopStart(count)`: the `for` loop calling `start`. */
    method LoopStart(count: int)
      modifies this
      ensures Snapshot() == L.LoopStart(options, old(Snapshot()), count)
      ensures allFiles == old(allFiles)
    {
      ghost var s0 := Snapshot();
      var i := 0;
      while i < count
        invariant 0 <= i <= (if count > 0 then count else 0)
        invariant Snapshot() == L.LoopStart(options, s0, i)
        invariant allFiles == old(allFiles)
      {
        Start();
        i := i + 1;
      }
    }

    /** `handleStartUpload`. */
    method HandleStartUpload()
      modifies this
      ensures Snapshot() == L.HandleStartUpload(options, old(Snapshot()))
      ensures allFiles == old(allFiles)
    {
      var f: Option<File> := None;
      if |waitingUploadFiles| > 0 {
        f := waitingUploadFiles[0];
        waitingUploadFiles := waitingUploadFiles[1..];
      }
      uploadingFiles := uploadingFiles + [f];
      Call(L.StartUpload);
    }

    /** `start()`: a warning when no file waits, else `uploadRequest` for the head file. */
    method Start()
      modifies this
      ensures Snapshot() == L.Start(options, old(Snapshot()))
      ensures allFiles == old(allFiles)
    {
      var file: Option<File> := if |waitingUploadFiles| > 0 then waitingUploadFiles[0] else None;
      if file.None? {
        events := events + [L.Warned(L.NoFilesWaiting)];
        return;
      }
      UploadRequest(file.value);
    }

    /** `uploadRequest`: `beforeUpload`, then the adapter, then `startUpload`. */
    method UploadRequest(file: File)
      modifies this
      ensures Snapshot() == L.HandleStartUpload(options,
        old(Snapshot()).(events := old(events) + L.Fire(options, L.BeforeUpload) + [L.AdapterRequest(options.url, file, options.httpMethod)]))
      ensures allFiles == old(allFiles)
    {
      Call(L.BeforeUpload);
      events := events + [L.AdapterRequest(options.url, file, options.httpMethod)];
      HandleStartUpload();
    }

    /** `handleSuccessUpload`. */
    method HandleSuccessUpload()
      modifies this
      ensures Snapshot() == L.HandleSuccessUpload(options, old(Snapshot()))
      ensures allFiles == old(allFiles)
    {
      Call(L.SuccessUpload);
      var f: Option<File> := None;
      if |uploadingFiles| > 0 {
        f := uploadingFiles[0];
        uploadingFiles := uploadingFiles[1..];
      }
      uploadedFiles := uploadedFiles + [f];
      if |waitingUploadFiles| > 0 {
        Start();
      }
      if |waitingUploadFiles| == 0 && |uploadingFiles| == 0 {
        Call(L.UploadComplete);
      }
    }

    /** `handleErrorUpload`. */
    method HandleErrorUpload()
      modifies this
      ensures Snapshot() == L.HandleErrorUpload(options, old(Snapshot()))
      ensures allFiles == old(allFiles)
    {
      var f: Option<File> := None;
      if |uploadingFiles| > 0 {
        f := uploadingFiles[0];
        uploadingFiles := uploadingFiles[1..];
      }
      errorUploadFiles := errorUploadFiles + [f];
      Call(L.ErrorUpload);
    }

    /** `handleAfterUpload`. */
    method HandleAfterUpload()
      modifies this
      ensures Snapshot() == L.HandleAfterUpload(options, old(Snapshot()))
      ensures allFiles == old(allFiles)
    {
      Call(L.AfterUpload);
    }
  }
}
