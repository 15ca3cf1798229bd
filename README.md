# Upload queue engine of `@hife/uploader`, modelled in Dafny

This project models the core of a browser upload library: the upload-queue state machine of the
`Uploader` base class (src/uploader.ts), its helpers (src/utils.ts), the admission and dispatch rules
of the `Webuploader` front end (src/webuploader.ts), and the older, simpler base class of
src/Uploader.ts. It proves properties of that model.

The engine keeps files and, for the file currently being split, its chunks in status buckets:

- waiting, uploading, uploaded and error buckets for files and for chunks;
- an invalid bucket for files that failed the pre-flight gate;
- an in-flight counter `uploadingCount`, from which the free slots `threads - uploadingCount` are computed;
- the byte counters `loadedSize` and `prevLoaded`.

Units are dispatched by `loopStart`. Successes and failures come back through handlers that move units
between buckets, retry them within a budget, tear a file down when one of its chunks fails for good, and
refill the freed slots.

## Layout

- `entities.dfy` (module `Entities`): the browser `File`, the file and chunk records, statuses, `Option` and `Outcome` (a
  returned value or the message of a thrown error).
- `utils.dfy` (module `Utils`): `throwError`, `getId`, the lookup `getInfoInFilesInfoById`, the splice
  `removeInfoFromFilesInfoById` and the option validator `validateOptions`.
- `uploader_state.dfy` (module `UploaderState`): every handler of the `Uploader` class as a transition
  function on a `State` value holding exactly the class's fields. Records live in id-keyed stores, and a
  chunk names its file by id, so two buckets that hold the same object hold the same id.
- `uploader.dfy` (module `UploaderCore`): the class `Uploader` with those fields, each handler a method
  that updates them step by step. Each method is proved to leave the object in exactly the state, and
  to return or throw exactly what, the transition function prescribes.
- `uploader_props.dfy`, `uploader_failure.dfy`, `uploader_accounting.dfy`: the properties of those
  transitions. They cover dispatch, the partition of files into buckets, retry and its budget, teardown,
  byte accounting, `remove`, `clearStats`, `toSuccessful` and the gate answers.
- `webuploader.dfy` (module `Webuploader`): `getFilteredFiles`, `getLoopStartCount` and the
  queue-appending part of `handleInputChange`.
- `legacy_uploader.dfy` (modules `LegacyQueue` and `LegacyUploader`): the legacy class as transition
  functions with their properties, and as a class proved against them.

## Behaviours of the code the model keeps

Each item below is a property a reader of the API might expect and the code does not keep; the model
keeps the code's behaviour.

- **In-flight counter can go negative.** The code forces `uploadingCount` to 0 when the last chunk of a file completes (src/uploader.ts:434). It then decrements it
  without a guard when that completion is rejected (src/uploader.ts:488), so it reaches -1
  (`UploaderFailure.ChunkCompleteRequeues`, `UploaderFailure.ChunkCompleteFails`).
- **How the retry budget is spent.** The budget is not decremented on every failure before it is
  tested. The code tests it first (`if (info.retryCount)`) and decrements inside `retry`.
  - The budget is refilled from `options.retryCount || 2` every time it is 0 at a retry, for chunks too.
  - A negative budget never runs out.
- **Chunk gate rejection.** A rejected chunk does not become invalid. The chunk gate's rejection
  moves the head waiting FILE to `invalidFiles` and leaves its status `waiting`, which breaks the
  partition (`UploaderAccounting.ChunkGateRejectionBreaksPartition`).
- **One `prevLoaded` for all units.** Partial samples are not corrected per unit. The code keeps a single `prevLoaded`, so interleaved samples of two units undercount
  (`UploaderAccounting.InterleavedSamplesUndercount`).
- **Starting with nothing waiting** is a fault, not a warning. `loopStart` reads `.chunks` of an undefined head file and throws a TypeError.
- **`toSuccessful(id)`** replays `handleStartUpload`, which starts the head waiting file rather than
  `id`. When `id` is neither that file nor already uploading, the replay throws after crediting its bytes
  (`UploaderAccounting.ToSuccessfulNotAtHead`).
- **`retry` of a chunk that is not uploading** throws a message naming `files` and `uploadingFiles`.
- **The in-flight counter is bounded neither below by 0 nor above by `threads`.** `handleStartUpload`
  increments it without a check (src/uploader.ts:323). A single dispatch computed by `getLoopStartCount`
  fits the free slots (`Webuploader.LoopStartCountBounds`), but two `handleInputChange` calls before any
  report each compute from the same count, so up to twice `threads` units can be in flight.
- **`onStart` and the chunk start.** With the `onStart` observer configured, the chunk part of
  `handleStartUpload` reads `waitingUploadChunks[0].belongFile` and throws a TypeError when both chunk
  lists are empty (src/uploader.ts:345-348); without it, nothing is read and the call returns.
- **Chunk lists are given.** They are built when files are added, not lazily at first dispatch;
  `loopStart` only copies the head file's list into the chunk queue.

## Model

Methods of `UploaderCore.Uploader` without a row here (`Debit`, `Requeue*`,
`SpliceOutOf*`, `*Fields` and the like) are sub-steps of a method that has one: each carries an
`ensures` giving its exact new state, and the method with the row composes them.

| member | source | states |
|---|---|---|
| Utils.ThrowError | src/utils.ts:10-12 | always throws, with the message `[uploader]:` followed by the given text |
| Utils.Decimal | src/utils.ts:112-114 | the printed counter has at least one digit, and exactly one below 10 |
| Utils.DecimalInjective | src/utils.ts:112-114 | different numbers print differently |
| Utils.IdsDiffer | src/utils.ts:112-114 | two ids built from different counter values, at timestamps of equal digit count, differ |
| Utils.IdCounter.constructor | src/utils.ts:4 | the module counter starts at 0 |
| Utils.IdCounter.GetId | src/utils.ts:112-114 | the id is the timestamp followed by the counter's current value, and the counter moves on by one |
| Utils.IndexOf | src/utils.ts:187 | -1 exactly when the id is absent; otherwise the first position holding it |
| Utils.RemoveFirst | src/utils.ts:182-196 | an absent id removes nothing; a present one is returned and the list loses exactly its first occurrence |
| Utils.RemoveFirstMembers | src/utils.ts:182-196 | every other id stays in the list |
| Utils.RemoveFirstMultiset | src/utils.ts:182-196 | exactly one copy of the id leaves the list |
| Utils.RemoveFirstNoDup | src/utils.ts:182-196 | a list without duplicates keeps none and no longer holds the id |
| Utils.RemoveFirstOrder | src/utils.ts:182-196 | the remaining elements keep their relative order |
| Utils.RemoveInfoById | src/utils.ts:182-196 | the `findIndex` scan and `splice` return the removed id and the rest exactly as `RemoveFirst` specifies |
| Utils.FindInfo | src/utils.ts:146-175 | nothing is found exactly when the id is neither a listed file nor a chunk of one; what is found carries the id and is listed as that kind |
| Utils.FindInfoFindsFile | src/utils.ts:146-175 | a listed file whose id is no chunk's is found as a file |
| Utils.FindInfoFindsChunk | src/utils.ts:146-175 | a chunk of a listed file, whose id is no listed file's, is found as a chunk |
| Utils.GetInfoById | src/utils.ts:146-175 | the nested loop with its early exits finds what `FindInfo` specifies |
| Utils.FirstOptionError | src/utils.ts:18-107 | no complaint exactly when every own property passes its type rule; otherwise the complaint about the first failing property |
| Utils.ValidateOptions | src/utils.ts:18-107 | an undefined or null argument throws a TypeError; an options object throws the prefixed first complaint, if any, and returns otherwise |
| Utils.MethodKeyRejected | src/utils.ts:38-42 | a `method` other than 'get' or 'post' draws a complaint |
| Utils.MethodMustBeGetOrPost | src/utils.ts:38-42 | such a `method` anywhere in the options makes validation fail |
| Utils.NumberKeyRejected | src/utils.ts:53-68 | a numeric option holding neither a number nor undefined draws a complaint |
| Utils.NumericKeysMustBeNumbers | src/utils.ts:53-68 | such an option anywhere in the options makes validation fail |
| UploaderState.RemainingThreads | src/uploader.ts:74-80 | positive exactly when fewer units are in flight than `threads` (1 when `threads` is 0) |
| UploaderState.FoundIsStored | src/utils.ts:146-175 | what the lookup finds is stored as the kind of entity it was found as |
| UploaderState.LoopStartAttempt | src/uploader.ts:283-298 | one iteration changes at most the chunk queue, `allChunks` and the log; it throws exactly when no chunk and no file waits |
| UploaderState.LoopStartN | src/uploader.ts:282-299 | the iterations keep the state well formed and change at most the dispatch fields; a throw leaves the state as it was |
| UploaderState.LoopStart | src/uploader.ts:281-300 | the same for `loopStart(count)`, with no iteration for a count of 0 or less |
| UploaderState.PromoteHead | src/uploader.ts:336-342 | moving the head waiting file to uploading keeps the state well formed over the same records |
| UploaderState.StartUpload | src/uploader.ts:322-358 | a start keeps the state well formed over the same records; with `onStart` configured the chunk start reads the head waiting chunk |
| UploaderState.ShiftChunk | src/uploader.ts:345-354 | the chunk part of a start keeps the state well formed over the same records; it throws only when `onStart` is configured and both chunk lists are empty |
| UploaderState.UploadLogsOneEvent | src/uploader.ts:668-727 | only the log changes, by one event, which requests the gate for that kind exactly when a unit of the kind waits and otherwise is the nothing-waiting warning |
| UploaderState.Refill | src/uploader.ts:567-578 | the refill after a finished file changes at most the dispatch fields and the log |
| UploaderState.SuccessFile | src/uploader.ts:372-404 | a file success keeps the state well formed |
| UploaderState.SuccessChunk | src/uploader.ts:405-446 | a chunk success keeps the state well formed |
| UploaderState.AfterChunkSuccess | src/uploader.ts:424-445 | the refill or reset after a chunk success keeps the state well formed |
| UploaderState.SuccessUpload | src/uploader.ts:364-447 | `handleSuccessUpload` keeps the state well formed |
| UploaderState.AfterRetry | src/uploader.ts:271-275 | the refill after a retry keeps the state well formed |
| UploaderState.RetryFile | src/uploader.ts:238-253 | a file retry keeps the state well formed |
| UploaderState.RetryChunk | src/uploader.ts:254-269 | a chunk retry keeps the state well formed |
| UploaderState.Retry | src/uploader.ts:224-276 | `retry` keeps the state well formed |
| UploaderState.FileMarkedFailed | src/uploader.ts:507-522 | marking a file failed keeps the state well formed over the same records |
| UploaderState.FailFile | src/uploader.ts:495-522 | a file's terminal failure keeps the state well formed |
| UploaderState.ChunkMarkedFailed | src/uploader.ts:535-538 | marking a chunk failed keeps the state well formed over the same records |
| UploaderState.FileTornDown | src/uploader.ts:543-564 | tearing the owner down keeps the state well formed over the same records |
| UploaderState.FailChunk | src/uploader.ts:523-565 | a chunk's terminal failure keeps the state well formed |
| UploaderState.ErrorUpload | src/uploader.ts:481-585 | `handleErrorUpload` keeps the state well formed |
| UploaderState.Charged | src/uploader.ts:486-488 | taking back the loaded bytes and one in-flight unit touches no record |
| UploaderState.ChunkCompleteCallback | src/uploader.ts:449-475 | the continuation keeps the state well formed |
| UploaderState.ProgressChange | src/uploader.ts:613-665 | a progress sample keeps the state well formed over the same records |
| UploaderState.ToSuccessful | src/uploader.ts:155-174 | `toSuccessful` keeps the state well formed |
| UploaderState.Replay | src/uploader.ts:164-173 | the replayed start, sample and success keep the state well formed |
| UploaderState.ClearStats | src/uploader.ts:114-150 | clearing the lists keeps the state well formed and keeps the records and the in-flight count |
| UploaderState.Remove | src/uploader.ts:180-215 | `remove` keeps the state well formed |
| UploaderState.SplicedKeepsWf | src/uploader.ts:194-206 | the six splices keep the state well formed, and an id some list held names a stored file |
| UploaderState.BeforeUploadCallback | src/uploader.ts:729-787 | the file gate's answer keeps the state well formed |
| UploaderState.BeforeChunkUploadCallback | src/uploader.ts:795-853 | the chunk gate's answer keeps the state well formed |
| UploaderState.ValidateUploaderOptions | src/uploader.ts:305-316 | returns exactly when an adapter is configured on the instance or the class and `url` is non-empty; a missing adapter is reported first |
| UploaderProps.LoopStartNAttempts | src/uploader.ts:281-300 | with something waiting, n iterations copy the chunk list once and log n identical requests |
| UploaderProps.LoopStartMakesCountAttempts | src/uploader.ts:281-300 | `loopStart(count)` makes exactly `count` attempts (none for count ≤ 0); it picks a waiting chunk, else the head file's chunk list, else the head file; it throws at once when nothing waits |
| UploaderProps.FirstAttemptThrows | src/uploader.ts:283-287 | with nothing waiting, the first iteration throws a TypeError and changes nothing |
| UploaderProps.LoopStartDoesNotThrow | src/uploader.ts:281-300 | whenever a chunk or a file waits, `loopStart` returns and only dispatches |
| UploaderProps.LoopStartChunkWaiting | src/uploader.ts:285-286 | with a chunk waiting, every attempt requests a chunk and nothing else changes |
| UploaderProps.RefillAnnouncesCompletion | src/uploader.ts:567-578 | the refill leaves the file queues alone and announces completion exactly when no file waits or uploads |
| UploaderProps.ExactlyOneBucket | src/uploader.ts:58-63 | in a partitioned state, a file is in a bucket exactly when it is listed with that status |
| UploaderProps.PromoteHeadPartitioned | src/uploader.ts:336-342 | promoting the head waiting file keeps the partition |
| UploaderProps.StartFileMovesHead | src/uploader.ts:322-333 | a file start adds one in-flight unit and moves the head waiting file to the tail of `uploadingFiles` as uploading; nothing else changes |
| UploaderProps.ShiftChunkMovesHeadChunk | src/uploader.ts:345-354 | the head waiting chunk moves to the tail of `uploadingChunks` as uploading, the files stay, it throws exactly when `onStart` is configured and both chunk lists are empty, and with no chunk waiting nothing changes |
| UploaderProps.StartChunkPromotesOnlyWhenIdle | src/uploader.ts:334-357 | a chunk start promotes the head waiting file only when no file is uploading, and throws exactly when `onStart` is configured and both chunk lists are empty |
| UploaderProps.StartPreservesPartition | src/uploader.ts:322-358 | a start keeps the partition of the listed files |
| UploaderProps.SuccessDecrementsUnlessZero | src/uploader.ts:369-371 | a success drops the in-flight count by one unless it is 0 |
| UploaderProps.SuccessFileLaw | src/uploader.ts:372-404 | the file leaves `uploadingFiles` by id for the tail of `uploadedFiles` as uploaded; it throws exactly when the file is not uploading; completion is announced exactly when nothing waits or uploads |
| UploaderProps.AfterChunkSuccessLaw | src/uploader.ts:424-445 | with chunks waiting and slots free it requests at most one per waiting chunk; with none waiting or uploading it resets the chunk lists, forces the count to 0 and hands the batch owner on |
| UploaderProps.SuccessChunkKeepsFiles | src/uploader.ts:405-446 | a chunk success leaves the file records and the file buckets alone |
| UploaderProps.SuccessChunkLaw | src/uploader.ts:405-446 | the chunk leaves `uploadingChunks` by id and is recorded as uploaded; it throws exactly when the chunk is not uploading; the last chunk resets the chunk bookkeeping and hands the file on |
| UploaderProps.SuccessPreservesPartition | src/uploader.ts:364-447 | a success keeps the partition of the listed files |
| UploaderProps.SuccessFilePartitioned | src/uploader.ts:372-404 | a file success keeps the partition |
| UploaderAccounting.SumSizesAppend | src/uploader.ts:82-86 | the size total of two lists joined is the sum of their totals |
| UploaderAccounting.SumSizesRemove | src/uploader.ts:82-86 | taking one file out of a list takes its size off the total once |
| UploaderAccounting.PartialSampleAccounting | src/uploader.ts:643-660 | a partial sample replaces the previous one in `loadedSize` and becomes `prevLoaded`; the unit records it and the percentage is bytes so far over total; no status or bucket changes |
| UploaderAccounting.PartialFileAccounting | src/uploader.ts:645-651 | the same for a file |
| UploaderAccounting.PartialChunkAccounting | src/uploader.ts:645-659 | the same for a chunk, whose owner's percentage counts the chunks before it |
| UploaderAccounting.CompletingSampleAccounting | src/uploader.ts:620-642 | a completing sample credits the unit's own size in place of the last partial sample and clears `prevLoaded`; a file reaches 100, a chunk's owner reaches 100 at its last chunk |
| UploaderAccounting.CompleteFileAccounting | src/uploader.ts:620-642 | the same for a file |
| UploaderAccounting.CompleteChunkAccounting | src/uploader.ts:628-642 | the same for a chunk |
| UploaderAccounting.ProgressPreservesPartition | src/uploader.ts:613-665 | a progress sample keeps the partition |
| UploaderAccounting.FeedTelescopes | src/uploader.ts:643-647 | over a run of samples that each replace the previous one, only the first `prevLoaded` and the last sample remain in `loadedSize` |
| UploaderAccounting.SamplesTelescope | src/uploader.ts:643-647 | the same for one unit's partial samples, with its records kept well formed |
| UploaderAccounting.OneUnitCreditsItsSize | src/uploader.ts:613-665 | a unit sampled alone from a clear `prevLoaded` adds exactly its own size once it completes, however many partial samples came first |
| UploaderAccounting.InterleavedSamplesUndercount | src/uploader.ts:601-646 | a partial sample of a second file between two samples of the first is lost from `loadedSize` |
| UploaderAccounting.RemoveRejects | src/uploader.ts:180-190 | an empty id throws; an id the lookup does not find returns false and changes nothing |
| UploaderAccounting.RemovedBucket | src/uploader.ts:194-206 | after `remove`, each bucket is the same files without the id, still without duplicates |
| UploaderAccounting.RemovedPartitioned | src/uploader.ts:180-215 | `remove` keeps the partition |
| UploaderAccounting.RemoveDeletes | src/uploader.ts:180-215 | a listed file leaves `allFiles` and every bucket, other files stay, its size leaves `loadedSize` once and leaves `totalSize`, and the call returns true |
| UploaderAccounting.RemoveTwice | src/uploader.ts:180-215 | removing the same id again returns false and leaves `loadedSize` alone |
| UploaderAccounting.ClearStatsEmpties | src/uploader.ts:114-150 | every bucket is emptied and both byte counters are zeroed, so the total size is 0; the in-flight count and the records stay |
| UploaderAccounting.ToSuccessfulUnknown | src/uploader.ts:155-162 | an unknown id throws and changes nothing |
| UploaderAccounting.ToSuccessfulSteps | src/uploader.ts:164-173 | on a listed file, it is a file start, then a completing sample, then a success |
| UploaderAccounting.ToSuccessfulOnHeadFile | src/uploader.ts:155-174 | on the head waiting file, the file is started, credited its full size and recorded as uploaded, and the in-flight count ends where it was |
| UploaderAccounting.ToSuccessfulNotAtHead | src/uploader.ts:155-174 | on another listed file, the head file is started, the named file is credited, and the call throws |
| UploaderAccounting.GateRejectionInvalidatesHead | src/uploader.ts:729-787 | a rejection moves the head waiting file to the tail of `invalidFiles` as invalid and keeps the partition; a pass calls the transport for the head file and changes nothing else |
| UploaderAccounting.ChunkGateRejectionBreaksPartition | src/uploader.ts:795-804 | the chunk gate's rejection moves the head waiting file with its status still waiting, so the partition never survives it |
| UploaderAccounting.ChunkGatePassCallsAdapter | src/uploader.ts:806-852 | a pass calls the transport for the head waiting chunk and changes nothing else |
| UploaderFailure.AfterRetryOnlyDispatches | src/uploader.ts:271-275 | with something waiting, the refill after a retry only dispatches and returns true |
| UploaderFailure.RetryFileLaw | src/uploader.ts:224-253 | one unit of budget is spent, after a refill from the options when it was 0, even when the call throws; the file leaves `uploadingFiles` by id and waits at the front of the queue |
| UploaderFailure.RetryChunkLaw | src/uploader.ts:224-276 | the same for a chunk, whose missing-chunk error names the file queue; the files stay untouched |
| UploaderFailure.RetryDispatch | src/uploader.ts:224-231 | an unknown id throws and changes nothing; a listed file is retried as a file and a chunk of a listed file as a chunk |
| UploaderFailure.RetryThrowsExactly | src/uploader.ts:224-276 | `retry` throws exactly when the id is unknown or its unit is not in its uploading queue |
| UploaderFailure.RetryPreservesPartition | src/uploader.ts:224-276 | `retry` keeps the partition, whether it throws or not |
| UploaderFailure.ErrorUploadRetries | src/uploader.ts:486-493 | an error report with budget left is a retry from the charged state |
| UploaderFailure.ErrorUploadFailsFile | src/uploader.ts:494-522 | an error report on a file without budget fails it |
| UploaderFailure.ErrorUploadFailsChunk | src/uploader.ts:523-565 | an error report on a chunk without budget fails it |
| UploaderFailure.ErrorRequeuesWhileBudgetLeft | src/uploader.ts:481-493 | with budget left, a file's loaded bytes are taken back, one unit fewer is in flight, and it waits at the front with one unit less of budget |
| UploaderFailure.ErrorRequeuesChunkWhileBudgetLeft | src/uploader.ts:481-493 | the same for a chunk, at the front of the chunk queue |
| UploaderFailure.ErrorFailsFileWhenBudgetSpent | src/uploader.ts:481-522 | without budget, the file lands in `errorUploadFiles` as error with progress 100, and its loaded bytes (its size when none) count as done |
| UploaderFailure.ChunkFailureTearsDownFile | src/uploader.ts:523-578 | a chunk without budget fails its file: the file moves to errors with progress 100, the chunk lists are emptied unless the refill copies the next file's, the full size is counted, and a failed lookup throws |
| UploaderFailure.FailFilePartitioned | src/uploader.ts:495-522 | a file's terminal failure keeps the partition |
| UploaderFailure.TearDownPartitioned | src/uploader.ts:523-565 | the teardown keeps the partition |
| UploaderFailure.ErrorPreservesPartition | src/uploader.ts:481-585 | `handleErrorUpload` keeps the partition, whether it retries, fails or throws |
| UploaderFailure.FailAndRestart | src/uploader.ts:481-493 | a failure followed by the restart of the re-queued file keeps the state well formed |
| UploaderFailure.IterateSpendsBudget | src/uploader.ts:232-236 | rounds that each cost one unit of budget while keeping an invariant can run as often as the budget allows |
| UploaderFailure.RoundRequeues | src/uploader.ts:486-493 | while the budget is not 0 (negative included), a failure re-queues the file and costs one unit |
| UploaderFailure.RoundFails | src/uploader.ts:494-522 | with the budget at 0, a failure lands the file in `errorUploadFiles` |
| UploaderFailure.BudgetBoundsRequeues | src/uploader.ts:232-236 | up to the budget, every failure re-queues the file, and none touches `errorUploadFiles` |
| UploaderFailure.BudgetExhaustedFails | src/uploader.ts:481-522 | a file with budget r ≥ 0 is re-queued by exactly r failures, and the next one lands it in errors |
| UploaderFailure.ChunkFailAndRestart | src/uploader.ts:481-493 | a chunk failure followed by the restart of the re-queued chunk keeps the state well formed |
| UploaderFailure.ChunkRoundRequeues | src/uploader.ts:486-493 | while the chunk's budget is not 0, a failure and restart puts the chunk back in flight, costs one unit, and leaves the files alone |
| UploaderFailure.ChunkRoundFails | src/uploader.ts:523-565 | with the chunk's budget at 0, a failure lands the chunk and its file in the error buckets with status error |
| UploaderFailure.ChunkBudgetBoundsRequeues | src/uploader.ts:232-236 | up to the budget, every chunk failure re-queues the chunk, and its file stays uploading |
| UploaderFailure.ChunkBudgetExhaustedFails | src/uploader.ts:481-565 | a chunk with budget r ≥ 0 is re-queued by exactly r failures, and the next one fails its file |
| UploaderFailure.ChunkCompleteAccepts | src/uploader.ts:471-474 | without an error message, the file is recorded as uploaded; it throws exactly when the file is not uploading |
| UploaderFailure.ChunkCompleteRequeues | src/uploader.ts:460-470 | with a message and `isRetry`, the loaded bytes are taken back, the budget is refilled and spent once, the file waits at the front, and the count drops unguarded |
| UploaderFailure.ChunkCompleteFails | src/uploader.ts:460-470 | with a message and no `isRetry`, the budget is zeroed and the file fails for good |
| UploaderCore.Uploader.constructor | src/uploader.ts:33-72 | a fresh object has empty stores and buckets and zero counters |
| UploaderCore.Uploader.Upload | src/uploader.ts:668-727 | warns when nothing of the kind waits, else schedules the gate, as `UploaderState.Upload` |
| UploaderCore.Uploader.LoopStart | src/uploader.ts:281-300 | the `for` loop leaves the object as `UploaderState.LoopStart` does |
| UploaderCore.Uploader.Attempt | src/uploader.ts:283-298 | one iteration, as `UploaderState.LoopStartAttempt` |
| UploaderCore.Uploader.PromoteHead | src/uploader.ts:336-342 | as `UploaderState.PromoteHead` |
| UploaderCore.Uploader.StartUpload | src/uploader.ts:322-358 | as `UploaderState.StartUpload` |
| UploaderCore.Uploader.ShiftChunk | src/uploader.ts:345-354 | as `UploaderState.ShiftChunk` |
| UploaderCore.Uploader.Refill | src/uploader.ts:567-578 | as `UploaderState.Refill` |
| UploaderCore.Uploader.SuccessUpload | src/uploader.ts:364-447 | as `UploaderState.SuccessUpload` |
| UploaderCore.Uploader.SuccessFile | src/uploader.ts:372-404 | as `UploaderState.SuccessFile` |
| UploaderCore.Uploader.SuccessChunk | src/uploader.ts:405-446 | as `UploaderState.SuccessChunk` |
| UploaderCore.Uploader.AfterChunkSuccess | src/uploader.ts:424-445 | as `UploaderState.AfterChunkSuccess` |
| UploaderCore.Uploader.Retry | src/uploader.ts:224-276 | as `UploaderState.Retry` |
| UploaderCore.Uploader.RetryFile | src/uploader.ts:238-253 | as `UploaderState.RetryFile` |
| UploaderCore.Uploader.RetryChunk | src/uploader.ts:254-269 | as `UploaderState.RetryChunk` |
| UploaderCore.Uploader.AfterRetry | src/uploader.ts:271-275 | refills the free slots, passes an exception of the loop through, else returns true, as `UploaderState.AfterRetry` |
| UploaderCore.Uploader.ErrorUpload | src/uploader.ts:481-585 | as `UploaderState.ErrorUpload` |
| UploaderCore.Uploader.MarkFileFailed | src/uploader.ts:507-522 | the file marked error with progress 100, appended to `errorUploadFiles`, its bytes counted, as `UploaderState.FileMarkedFailed` |
| UploaderCore.Uploader.MarkChunkFailed | src/uploader.ts:535-538 | the chunk marked error and appended to `errorUploadChunks`, as `UploaderState.ChunkMarkedFailed` |
| UploaderCore.Uploader.TearDownFile | src/uploader.ts:552-564 | the owner marked error with progress 100, the chunk lists emptied, its full size counted, as `UploaderState.FileTornDown` |
| UploaderCore.Uploader.FailFile | src/uploader.ts:495-522 | as `UploaderState.FailFile` |
| UploaderCore.Uploader.FailChunk | src/uploader.ts:523-565 | as `UploaderState.FailChunk` |
| UploaderCore.Uploader.ChunkCompleteCallback | src/uploader.ts:449-475 | as `UploaderState.ChunkCompleteCallback` |
| UploaderCore.Uploader.ProgressChange | src/uploader.ts:613-665 | as `UploaderState.ProgressChange` |
| UploaderCore.Uploader.ToSuccessful | src/uploader.ts:155-174 | as `UploaderState.ToSuccessful` |
| UploaderCore.Uploader.Replay | src/uploader.ts:164-173 | the start, the completing sample and the success in that order, stopping at the first throw, as `UploaderState.Replay` |
| UploaderCore.Uploader.Remove | src/uploader.ts:180-215 | as `UploaderState.Remove` |
| UploaderCore.Uploader.SpliceOut | src/uploader.ts:194-206 | the six splices in source order; the flag says whether any list held the id |
| UploaderCore.Uploader.ClearStats | src/uploader.ts:114-150 | as `UploaderState.ClearStats` |
| UploaderCore.Uploader.BeforeUploadCallback | src/uploader.ts:729-787 | as `UploaderState.BeforeUploadCallback` |
| UploaderCore.Uploader.Invalidate | src/uploader.ts:733-739 | the head waiting file leaves the queue, is marked invalid and appended to `invalidFiles`, as `UploaderState.Invalidated` |
| UploaderCore.Uploader.BeforeChunkUploadCallback | src/uploader.ts:795-853 | as `UploaderState.BeforeChunkUploadCallback` |
| Webuploader.SpliceStart | src/webuploader.ts:36-38 | where `splice(maxCount, …)` starts cutting lies within the list |
| Webuploader.GetFilteredFiles | src/webuploader.ts:20-61 | the copy, the `splice`, the size pass and the user filter return what `FilteredFiles` specifies |
| Webuploader.FilteredFiles | src/webuploader.ts:20-61 | only the user filter can throw, with the must-return-an-array message; the invalid list is always the size-rejected files; without a filter the valid list is the size-admitted files |
| Webuploader.CountCapKeepsPrefix | src/webuploader.ts:35-38 | the count cap keeps a prefix: the first `maxCount` files for 0 ≤ `maxCount`, the whole list without a number |
| Webuploader.SizeSplit | src/webuploader.ts:40-50 | kept files are within `maxSize`, rejected ones are over it, and together they are exactly the capped files |
| Webuploader.SizeFilterKeepsOrder | src/webuploader.ts:41-50 | both halves of the size filter keep input order |
| Webuploader.FilteredPartitionsCapped | src/webuploader.ts:31-50 | without a filter, the two lists partition the capped list, with lengths summing to min(n, maxCount); files cut by the cap appear in neither |
| Webuploader.UserFilterDecides | src/webuploader.ts:52-58 | the call throws exactly when the user filter returns a non-array; otherwise its array becomes the valid list |
| Webuploader.UnitsOfUnchunked | src/webuploader.ts:194-199 | a list without chunked files counts one unit per file |
| Webuploader.LoopStartCount | src/webuploader.ts:180-206 | 0 for an empty list; otherwise at most `threads`, the free slots and the first file's chunks (or the list's units), and equal to one of them |
| Webuploader.LoopStartCountBounds | src/webuploader.ts:180-206 | 0 for an empty list; otherwise the least of `threads`, the first file's chunks (or the list's units) and the remaining threads; the current count plus what this one dispatch starts is at most the effective thread count |
| Webuploader.InputChange | src/webuploader.ts:208-257 | the appended, optionally started state is well formed |
| Webuploader.InputChangeAppends | src/webuploader.ts:237-254 | the new files go, in order, to the end of `allFiles` and `waitingUploadFiles`; the other buckets, the counters and the existing records stay; nothing is thrown |
| Webuploader.InputChangeKeepsPartition | src/webuploader.ts:246-254 | fresh, distinct, waiting files keep the partition |
| Webuploader.AppendedPartitioned | src/webuploader.ts:246-247 | appending fresh waiting files to both lists keeps the partition |
| Webuploader.HandleInputChange | src/webuploader.ts:208-257 | the list reassignments and the optional `loopStart` leave the object as `InputChange` does |
| LegacyQueue.ConstructorChecks | src/Uploader.ts:21-40 | construction throws exactly when no adapter is configured or `url` is empty, the adapter first; otherwise the defaults are post, true and 1 |
| LegacyQueue.Construct | src/Uploader.ts:21-40 | it throws only the adapter or the url message; a constructed object has a non-empty url and the given callbacks |
| LegacyQueue.HandleStartUpload | src/Uploader.ts:59-64 | uploaded and error queues stay, one slot is added to `uploadingFiles`, the log only grows, and an empty waiting queue adds a slot |
| LegacyQueue.Start | src/Uploader.ts:96-114 | uploaded and error queues stay, the log strictly grows, a file moves to uploading exactly when the head holds one |
| LegacyQueue.LoopStart | src/Uploader.ts:49-53 | uploaded and error queues stay, at least one event per iteration, waiting plus uploading is conserved and uploading grows by at most `count` |
| LegacyQueue.HandleSuccessUpload | src/Uploader.ts:65-82 | `uploadedFiles` grows by one at its end, the error queue stays, the log only grows |
| LegacyQueue.HandleErrorUpload | src/Uploader.ts:83-89 | `errorUploadFiles` grows by one at its end, waiting and uploaded stay, and an event is logged exactly when `errorUpload` is configured |
| LegacyQueue.HandleAfterUpload | src/Uploader.ts:90-93 | only the log changes, by an event exactly when `afterUpload` is configured |
| LegacyQueue.StartUploadMovesHead | src/Uploader.ts:59-64 | the head waiting file moves to the tail of `uploadingFiles`; an empty queue pushes `undefined`, one slot more |
| LegacyQueue.ErrorUploadMovesHead | src/Uploader.ts:83-89 | the head uploading file moves to the tail of `errorUploadFiles` and never back to waiting |
| LegacyQueue.StartCallOrder | src/Uploader.ts:96-136 | with no head file only a warning; otherwise `beforeUpload`, the adapter, then `startUpload`, in that order, moving the head file |
| LegacyQueue.StartKeepsSlots | src/Uploader.ts:96-114 | `start` keeps every slot and logs something |
| LegacyQueue.StartMovesHead | src/Uploader.ts:59-60 | `start` moves just the head file to uploading |
| LegacyQueue.LoopStartKeepsSlots | src/Uploader.ts:49-53 | `loopStart` keeps every slot and logs at least one event per iteration |
| LegacyQueue.LoopStartMovesPrefix | src/Uploader.ts:49-53 | with enough files waiting, the first `count` of them move in order to uploading |
| LegacyQueue.SuccessUploadKeepsSlots | src/Uploader.ts:65-75 | the head uploading file goes to uploaded, the next waiting file is started, and no slot is lost |
| LegacyQueue.CompleteExactlyWhenDrained | src/Uploader.ts:76-81 | `uploadComplete` fires once exactly when it is configured and nothing waits or uploads afterwards, that is, when nothing waited and at most one file was uploading |
| LegacyQueue.NoCompletionInStart | src/Uploader.ts:96-114 | `start` never fires `uploadComplete`, and with a file waiting one stays queued or uploading |
| LegacyQueue.TotalConserved | src/Uploader.ts:59-89 | start, success and error conserve the number of queued files when their source queue is non-empty |
| LegacyUploader.Uploader.constructor | src/Uploader.ts:42-47 | the stored options and empty queues |
| LegacyUploader.Uploader.Create | src/Uploader.ts:21-40 | throws what `LegacyQueue.Construct` throws, else returns a fresh object with its options and empty queues |
| LegacyUploader.Uploader.LoopStart | src/Uploader.ts:49-53 | the `for` loop leaves the object as `LegacyQueue.LoopStart` does |
| LegacyUploader.Uploader.HandleStartUpload | src/Uploader.ts:59-64 | as `LegacyQueue.HandleStartUpload` |
| LegacyUploader.Uploader.Start | src/Uploader.ts:96-114 | as `LegacyQueue.Start` |
| LegacyUploader.Uploader.UploadRequest | src/Uploader.ts:118-136 | `beforeUpload`, the adapter, then `handleStartUpload` |
| LegacyUploader.Uploader.HandleSuccessUpload | src/Uploader.ts:65-82 | as `LegacyQueue.HandleSuccessUpload` |
| LegacyUploader.Uploader.HandleErrorUpload | src/Uploader.ts:83-89 | as `LegacyQueue.HandleErrorUpload` |
| LegacyUploader.Uploader.HandleAfterUpload | src/Uploader.ts:90-93 | only the `afterUpload` callback |
| LegacyUploader.Uploader.Call | src/Uploader.ts:55-58 | `hook && hook()`: the log gains the call exactly when the callback is configured, and nothing else changes |

## Left out

- MD5 digests (`getFileMD5`) and the promise chain in `upload`. They wrap a foreign library. `upload`
  only records that the pre-flight gate was scheduled, and the gate's answer is a separate call
  (`BeforeUploadCallback`, `BeforeChunkUploadCallback`).
- The transport adapters and the `requestAdapter` call itself. They are foreign code. A call to the
  transport is a logged event, and its later reports are calls to the handlers.
- Byte size is the only payload the model keeps.
- `info.cancel` in `remove`: a foreign canceller.
- The observer callbacks `onChange`, `onProgress`, `onChunkStart`, `onSuccess`, `onChunkSuccess`,
  `onAfter` and `onChunkAfter`. Their arguments are copies or floating-point percentages.
- Whether the notifying observers are configured. The events `Retried`, `Failed`, `ChunksComplete` and
  `Complete` are logged at the call points of `onRetry`/`onChunkRetry`, `onError`, `onChunkComplete`
  and `onComplete`, as if every one of those observers were configured; the source calls each only
  when it is (`onX && onX(...)`). In particular, without `onChunkComplete` the source never hands out
  `chunkCompleteCallback`, so a chunked file stays in `uploadingFiles`; the model always logs
  `ChunksComplete` and lets `UploaderState.ChunkCompleteCallback` be called.
- Of `onStart` the model keeps only whether it is configured (`Options.onStart`), since that decides
  whether the chunk start reads the head waiting chunk; the call itself is not logged.
- A chunk-gate rejection with no file waiting: the source concatenates `undefined` onto
  `invalidFiles`; the model leaves the state unchanged.
- The global percentage `loadedSize / totalSize * 100` is not computed; it is floating point.
  - A unit's percentage is kept as the integers it is computed from (`Progress`).
  - `PercentValue` gives 0 where JavaScript gives NaN or Infinity for a zero size.
- `handleAfterUpload` of src/uploader.ts. It only calls `onAfter` or `onChunkAfter`.
- `getStats`: a read-only snapshot of the fields.
- The empty `start` and `pause`.
- `Files2FilesInfo` and `addChunksInfo` are not part of this model. Their definitions are not in the
  source, so the new records and their chunk lists are inputs of `Webuploader.InputChange`.
- The `sort` option and the DOM wiring of src/webuploader.ts.
- The static `configure` registries. The legacy constructor takes whether an adapter is configured.
- `remove` and `toSuccessful` take the id to name a file when the lookup finds one. An id shared by a
  file and a chunk is excluded by the stores' well-formedness, as ids are unique across both.
- `remove`'s type check covers only the empty id: ids are strings.
- `getFilteredFiles` takes integer `maxCount` and `maxSize`. NaN and fractional values are not modelled.
- `getLoopStartCount` takes `threads` as an integer.
- In the legacy class, an adapter that reports success or failure synchronously, during `uploadRequest`,
  is not modelled. Its reports are separate calls to the handlers.
- UploaderState.PromoteHead: its contract states well-formedness only; what it moves is stated by
  `UploaderProps.StartFileMovesHead` and `UploaderProps.PromoteHeadPartitioned`.
- UploaderState.StartUpload: its contract states well-formedness only; its effect is stated by
  `UploaderProps.StartFileMovesHead`, `UploaderProps.StartChunkPromotesOnlyWhenIdle` and
  `UploaderProps.StartPreservesPartition`.
- UploaderState.SuccessUpload: its contract states well-formedness only; its effect is stated by
  `UploaderProps.SuccessFileLaw`, `UploaderProps.SuccessChunkLaw` and
  `UploaderProps.SuccessPreservesPartition`.
- UploaderState.Retry: its contract states well-formedness only; its effect is stated by
  `UploaderFailure.RetryFileLaw`, `UploaderFailure.RetryChunkLaw` and
  `UploaderFailure.RetryThrowsExactly`.
- UploaderState.ErrorUpload: its contract states well-formedness only; its effect is stated by the
  `UploaderFailure.Error*` lemmas and `UploaderFailure.ChunkFailureTearsDownFile`.
- UploaderState.Remove: its contract states well-formedness only; its effect is stated by
  `UploaderAccounting.RemoveRejects`, `UploaderAccounting.RemoveDeletes` and
  `UploaderAccounting.RemoveTwice`.
- UploaderState.ToSuccessful: its contract states well-formedness only; its effect is stated by the
  `UploaderAccounting.ToSuccessful*` lemmas.
