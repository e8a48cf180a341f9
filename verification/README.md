# MULD in Dafny

MULD splits a remote file into chunks, downloads them with competing workers
into one output file, checkpoints the progress to a `.muld` image, and survives
pause, resume, failure, cancel and a restart of the process. This project models
that behaviour and proves what it guarantees.

`dafny verify dfyconfig.toml` checks everything.

## Parts

| file | what it holds |
|---|---|
| `Basics.dfy` | bytes, options, sums, ceiling division |
| `Chunks.dfy` | chunks, the constructor's partition, the manager's chunk count, the rebuild of work items |
| `EngineSpec.dfy` | the engine's scalars and the effect of each of its atomic sections and whole calls |
| `Protocol.dfy` | the step system: one engine, a pool of threads with one program counter each, the server, the output file, the stored images; one step per atomic operation or lock section |
| `ProtocolData.dfy`, `ProtocolCounts.dfy` | the invariants and what each step does to them |
| `ProtocolRuns.dfy` | whole runs: bounded loss, accounting, finishing |
| `ProtocolKept.dfy` | Completed means downloaded, crash safety, and exactly which Cancel can take the file away |
| `ProtocolFinish.dfy`, `ProtocolOutcome.dfy` | states that never become Completed; exactly when a job in any reachable state still can |
| `ProtocolClaims.dfy` | exclusive claiming and rebuilds |
| `ProtocolCancel.dfy`, `ProtocolWitness.dfy` | cleanup, the exact condition under which a Cancel is safe, and runs in which it is not |
| `ProtocolReach.dfy`, `ProtocolEndings.dfy` | one worker reaches the last chunk; how every job can end, well and badly |
| `ProtocolRate.dfy` | bytes written are bytes granted |
| `ProtocolPause.dfy` | quiescence and draining |
| `ProtocolCalls.dfy` | the steps of each undisturbed call add up to the call |
| `ProtocolStates.dfy` | the life cycle of a job, which calls are taken when, and what the server, the disk and the users are free to do |
| `Engines.dfy` | the engine as an object whose methods update its fields, each with the effect that the step system interleaves |
| `Workers.dfy` | the nested loops of a worker, with other threads pausing, canceling or failing the job: they end, and left alone complete it |
| `Unranged.dfy` | a job without ranges, cut off and resumed |
| `Restarts.dfy` | from one process to the next through the image file |
| `JobImages.dfy`, `ImageFiles.dfy` | the image's bytes, and the stream code that writes, reads and patches them |
| `TokenBucket.dfy` | the read budget over time |
| `Trimming.dfy`, `Controller.dfy`, `Climbing.dfy` | the connection controller; when a job rises |
| `Manager.dfy` | the task queue and one turn of the control loop |
| `Urls.dfy` | the URL text form |

Code that loops and updates is written as methods and classes and proved against
functions on values; the guarantees are lemmas about those functions. The engine
appears twice on purpose: as an object, one call at a time, and as a step system
in which many threads are in the middle of such calls. Both use the effects of
`EngineSpec`, and `ProtocolCalls` ties each call to its steps.

In the step system the server is an oracle: a ranged read at an offset returns
1 to the allowed number of bytes of a fixed remote file and never goes past the
inclusive end of the range (section 14.1.2 of RFC 9110; the 206 response is
section 15.3.7). A read may return nothing, end the body at any time, break the
connection or fail; a write may be short or fail. In `Workers.dfy` the same
choices are scripts of arbitrary length and content.

## What the code does not guarantee

* A Cancel can release the writer under a worker that is past its state check.
  The closing worker drops the connection count to zero, and only then loads the
  state (`src/download_engine.cpp:162-163`). A worker that opens in between,
  followed by a Cancel, is not seen by the closing worker, which cleans up.
  `CancelIsSafeExactly` gives the exact condition, and `UnsafeCancelIsReachable`
  a run of every job with two threads and two connections.
* By the same gap a job can end Completed with its output file removed: a worker
  that saw the job paused after the last count stores Completed without looking
  again (`src/download_engine.cpp:538-541`), after a Cancel and the cleanup of the
  closing worker. `CancelKeepsExactly` gives the exact condition, and
  `CompletedWithoutFile` a run.
* A fully received job need not become Completed: not when its image was already
  complete, nor when it was paused and resumed between the last count and its
  promotion. `CompletableExactly` gives the exact condition for every reachable
  state, `RequeuedNeverCompletes` and `FinishedImageIsStored` the runs.
* A failing worker can store through a released writer
  (`src/download_engine.cpp:673-676`): `ReleaseIsSafeExactly` gives the exact
  condition, and `FailureMeetsRelease` a run.
* The round trip of URLs fails for more than empty schemes, hosts and ports:
  a text with a delimiter right after the scheme does not survive it.
  `Urls.RoundTripExactly` has the exact condition.
* The stored image need not have the engine's validators. The manager publishes a
  new engine, which may start, fail and store, before it sets them
  (`src/muld_download_manager.cpp:452-453`), and every later store patches only the
  chunks and the time. `ValidatorsComeTooLate` is such a job for all inputs,
  `StoredIsCurrentExactly` the exact condition. An empty validator is not compared,
  so a restart then admits a changed remote file of the same size
  (`src/muld_download_manager.cpp:56-62`): `WronglyAdmittedExactly`. The URL and the
  connection bounds do not change after a store.
* A job without ranges that is paused or cut off after r bytes and then resumed ends
  Completed with a wrong file: the new body begins at zero and is written behind the
  r bytes (`src/download_engine.cpp:584`, `src/downloader.cpp:304-305`).
  `Unranged.CutAndResumed` has the runs and the exact condition: the file is right
  if and only if it repeats itself every r bytes.
* An image in the older layout whose path has two bytes is taken for a new one:
  `JobImages.LegacyExactly`.
* A loaded image without chunks is spoiled by the first store:
  `Restarts.FirstStoreAfterLoad`.

## Premises

* In the step system, jobs are ranged and the file size is positive. A job without
  ranges has one chunk, as the manager makes it; an image with more chunks whose
  server no longer serves ranges is not part of this model. `Workers.dfy` has jobs
  without ranges where nothing was received, and `Unranged.dfy` the others. The chunk
  of an empty file has a wrapped end and counts as finished
  (`src/download_engine.cpp:69`); `Engines.EmptyFileIsFinished` says so.
* In the step system, seeing the drain, resetting the release tokens, rebuilding
  and planning (`src/download_engine.cpp:620-635`) are one step that waits for a
  zero scheduled count. The code sets Queued first (line 617), so a planning call
  of the controller could fall between. Planning at any other time is covered.
* PlanNewWorkers and SetDesiredConnections are one step each. Connection bounds
  are set before a job starts, as the manager does.
* No Resume after Cancel. SetState allows it (`src/download_engine.cpp:707`),
  although the writer may be gone by then.
* It is not claimed that every claimed item finishes: a token taken in the inner
  loop drops the item until the next rebuild (`src/downloader.cpp:290-293`).
* A store is atomic on disk and succeeds. In the step system a failing worker that
  finds the writer released skips its store; the code would use the released
  writer there, and `StoreSafe` is the claim that it does not come to that.
* Every atomic operation is sequentially consistent. Doubles are real numbers.
* The speed limit is fixed and positive for the rate bound.
* Texts and counts fit a size_t.

## Model

| member | source | states |
|---|---|---|
| `ProtocolKept.CompletedMeansDownloaded` | src/download_engine.cpp:520-556 | In every run of every job, with any interleaving of workers, controller, pauses, failures, cancels, resumes and restarts from any stored image: if the state is Completed, the bytes of the output file are the remote file and the byte total is its size; and the file has not been removed, if no Cancel came while one thread was between its close and its load of the state and another was about to force Completed. |
| `ProtocolKept.CancelKeepsExactly` | src/download_engine.cpp:538-541 | From any reachable state with the file in place: on every continuation after a Cancel up to a restart, Completed means that the file is there, if and only if the Cancel did not find those two threads together. |
| `ProtocolKept.LosingCancelHappens` | src/download_engine.cpp:163-164 | A finding: every other Cancel has a continuation that ends Completed with the output file removed. |
| `ProtocolKept.StepKeepsKept` | src/download_engine.cpp:651-666 | Every step, with such Cancels, keeps: a removal belongs to a canceled engine that nobody is about to force to Completed, and a completed engine is cleaned by its completing worker. |
| `ProtocolKept.StaleImageIsSafe` | src/download_engine.cpp:76-127 | Crash safety: any image ever stored, loaded after any further steps onto the file as it then is, still has only correct prefixes, gives an engine with all invariants, and whatever it does next, Completed means downloaded, and kept as above. |
| `ProtocolOutcome.CompletableExactly` | src/download_engine.cpp:520-554 | From any reachable state: some continuation up to a restart completes the job if and only if it is Completed, a worker is about to force it, or it is not canceled and a chunk is still to be counted or has just been counted last. |
| `ProtocolOutcome.CompletableCompletes` | src/download_engine.cpp:616-638 | From those states a continuation to Completed is constructed, whatever the threads are in the middle of: pause, let the pool come to rest, resume, and receive what is missing with one worker. |
| `ProtocolOutcome.OthersNeverComplete` | src/download_engine.cpp:524-541 | From every other reachable state no continuation up to a restart completes the job, however often it is paused and resumed. |
| `ProtocolOutcome.ComesToRest` | src/download_engine.cpp:616-622 | A halted job with something ahead can always come to rest by steps of its pool alone, and then still misses a chunk, or completes on the way. |
| `ProtocolFinish.StuckNeverCompletes` | src/download_engine.cpp:524-539 | A finding: with every chunk counted, nobody about to complete and the engine not Completed, no continuation up to a restart completes it, however often it is paused and resumed. |
| `ProtocolFinish.FinishedImageNeverCompletes` | src/download_engine.cpp:119-126 | A process that loads an image whose chunks are all finished never completes the job. |
| `ProtocolEndings.CompletionIsReachable` | src/downloader.cpp:275-340 | Every job with two threads and two connections has a run that ends Completed with the remote file in place. |
| `ProtocolEndings.CompletedWithoutFile` | src/download_engine.cpp:538-541 | Every such job has a run that ends Completed with the output file removed. |
| `ProtocolEndings.RequeuedNeverCompletes` | src/download_engine.cpp:524-539 | Every such job has a run, by a Pause and a Resume between the last count and its promotion, after which everything is received, the state is Queued, and nothing completes the job. |
| `ProtocolEndings.FinishedImageIsStored` | src/download_engine.cpp:526-527 | Every such job has a run that stores an image whose chunks are all finished; a process that loads it after a crash never completes the job. |
| `ProtocolEndings.FailureMeetsRelease` | src/download_engine.cpp:673-676 | Every such job has a run to a step that releases the writer while another worker is about to store a failure through it. |
| `ProtocolReach.ReachLast` | src/downloader.cpp:275-340 | From any reachable state in which a worker is in its stream loop, no other holds an item and none was dropped, that worker alone receives everything missing, stores included, and counts the last chunk. |
| `ProtocolRuns.BoundedLoss` | src/download_engine.cpp:508-518 | In every run the bytes received but missing from the last stored image stay below 10 MiB plus 32768 per thread, also while chunks change during a store. |
| `ProtocolRuns.LossIsBounded` | src/download_engine.cpp:796-828 | The same bound in every state that keeps the invariant, fresh or reloaded. |
| `ProtocolRuns.WorkerAccounting` | src/download_engine.cpp:156-168 | In every run the scheduled count is the planned tasks plus the queued tasks plus the workers that have not closed; it is covered by the desired count, the open release tokens and the workers leaving on a token; no close takes it below zero, so the repair branch is dead. |
| `ProtocolRuns.FinishCounting` | src/download_engine.cpp:520-556 | The finish counter is the number of finished chunks minus the workers between update and count; at most one worker sees the last count. A Completed engine has called on_finish exactly once, unless exactly one thread is still between the completion and the call; another engine has not called it. |
| `ProtocolRuns.CompletedStays` | src/download_engine.cpp:700-752 | Completed is never left until the process restarts. |
| `ProtocolRuns.InvStart` | src/download_engine.cpp:28-74 | A fresh job has all invariants. |
| `ProtocolRuns.InvStep` | src/downloader.cpp:275-340 | Every step of every thread, user call, controller step and restart keeps all invariants. |
| `ProtocolRuns.InvRun` | src/downloader.cpp:275-340 | So does every run. |
| `ProtocolRuns.ImagesGrow` | src/download_engine.cpp:814-820 | Stored images are only ever added to the history of a run. |
| `ProtocolData.StepKeeps` | src/downloader.cpp:126-160 | Every step keeps the data invariant: received prefixes of the live chunks and of every stored image match the remote, an in-flight worker stands exactly at its chunk's position plus what it has written, held items differ, unclaimed items are unreceived tails. |
| `ProtocolData.FinishedFileEqualsRemote` | src/download_engine.cpp:520-524 | Correct prefixes of a tiling of finished chunks make up the whole remote file. |
| `ProtocolData.WriteHelps` | src/downloader.cpp:144-157 | Writing remote bytes at their own offset never spoils a correct byte. |
| `ProtocolData.WriteKeeps` | src/downloader.cpp:144-157 | A short write, in the middle of a buffer, keeps the data invariant for the writer and for every other thread. |
| `ProtocolData.UpdateKeeps` | src/download_engine.cpp:420-422 | Counting a written buffer keeps the data invariant: the bytes are on disk before they are counted. |
| `ProtocolData.ClaimKeeps` | src/download_engine.cpp:269-273 | Claiming an item keeps the data invariant: the new holder starts where its chunk stands and differs from all holders. |
| `ProtocolData.RebuildKeeps` | src/download_engine.cpp:571-590 | A rebuild keeps the data invariant. |
| `ProtocolCounts.StepAccounts` | src/download_engine.cpp:156-267 | Every step keeps the accounting of scheduled workers, open connections and release tokens. |
| `ProtocolCounts.ActScheduled` | src/download_engine.cpp:157-161 | How every worker step moves the scheduled count, the open connections and the tokens: a closing worker finds a positive count and lowers it by one, no other step moves it. |
| `ProtocolCounts.Drained` | src/download_engine.cpp:619-622 | A zero scheduled count means no planned task, no queued task and no working thread of the previous generation. |
| `ProtocolCounts.StepFinishes` | src/download_engine.cpp:520-556 | Every step keeps the finish count, the byte total and the uniqueness of the last-counting worker. |
| `ProtocolCounts.StepLocks` | src/download_engine.cpp:772-775 | Every step keeps the disk lock: exactly the thread inside a store holds it. |
| `ProtocolCounts.StepLoses` | src/download_engine.cpp:796-824 | Every step keeps the relation between received bytes, unsaved bytes, the copy a store is taking and the last image. |
| `ProtocolCounts.LossWeights` | src/downloader.cpp:123-124 | Uncounted bytes and pending stores of distinct threads add up to at most one buffer per thread. |
| `ProtocolClaims.HoldersDiffer` | src/download_engine.cpp:269-273 | Two threads with claimed items hold different chunks, whose ranges do not overlap. |
| `ProtocolClaims.WritesInside` | src/downloader.cpp:147-157 | What a thread still has to write lies in the unreceived part of its own chunk. |
| `ProtocolClaims.ChunkIsInOnePlace` | src/downloader.cpp:275-297 | In a generation every unfinished chunk is exactly one of unclaimed, held by one thread, or dropped. |
| `ProtocolClaims.RebuildReclaims` | src/download_engine.cpp:616-625 | Each rebuild leaves no holder, turns every unfinished chunk back to unclaimed, and its items with the received prefixes tile the file. |
| `ProtocolClaims.ItemsAreClaimedOnce` | src/download_engine.cpp:269-273 | Of two successful claims in one generation the later gets a later item. |
| `ProtocolClaims.CursorGrows` | src/download_engine.cpp:269-273 | Between rebuilds the claim cursor never goes back. |
| `ProtocolCancel.CanceledIsCleaned` | src/download_engine.cpp:651-666 | In every run cleanup takes effect at most once per engine, and a canceled engine with no open connection and no Cancel call in progress is cleaned, or some thread is still between dropping the last connection and cleaning up. |
| `ProtocolCancel.CancelIsSafeExactly` | src/download_engine.cpp:156-168 | From any reachable state: the writer is never released while a worker can still write, on any continuation, if and only if at the moment Cancel sets the state no thread is between dropping the last connection and loading the state, or no worker can write. |
| `ProtocolCancel.UnsafeCancelHappens` | src/download_engine.cpp:162-166 | A finding: from every other state a continuation exists that releases the writer under a worker past its state check. |
| `ProtocolWitness.UnsafeCancelIsReachable` | src/download_engine.cpp:162-166 | Every job with two threads and two connections has a run to a Cancel that is not safe, and on to a released writer under a worker that can still write. |
| `ProtocolCancel.ReleasedWriterIsUnused` | src/download_engine.cpp:777-794 | On runs whose Cancel calls meet that condition, once the writer is released no worker can write, count bytes or store from a report; and none is about to store a failure, if none was at the release. |
| `ProtocolCancel.ReleaseIsSafeExactly` | src/download_engine.cpp:673-676 | Where the writer is released: no failing worker stores through it on any continuation up to a restart, if and only if none is about to at that moment. |
| `ProtocolCancel.WinnerIsAlone` | src/download_engine.cpp:525-527 | When the completing worker cleans up, no other worker can write. |
| `ProtocolCancel.StepKeepsClean` | src/download_engine.cpp:777-794 | Every step keeps: cleanup belongs to a terminal state, is counted once, and a canceled engine is cleaned or has someone left to clean it. |
| `ProtocolCancel.StepKeepsFreeze` | src/downloader.cpp:129-135 | Every step, with safe Cancels, keeps: whoever has released the writer or is about to does so when no worker can write. |
| `ProtocolCancel.FrozenStep` | src/downloader.cpp:126-139 | In a terminal state without writers no step makes a worker able to write. |
| `ProtocolPause.PauseQuiesces` | src/download_engine.cpp:640-649 | From a Pause until the next Resume the received bytes grow by at most 32768 for each worker that was past its state check. |
| `ProtocolPause.WorkingMeasure` | src/downloader.cpp:276-297 | Once halted, every step of the pool lowers one measure over planned tasks, queued tasks, worker positions and a store in progress. |
| `ProtocolPause.NeverStuck` | src/downloader.cpp:276-297 | While something is scheduled some step of the pool is enabled, as long as the writer has not been released under a worker. |
| `ProtocolPause.PauseDrains` | src/download_engine.cpp:616-622 | So every run of pool steps after a halt is bounded by the measure; and, when Cancel calls came safely, one that can go no further has a zero scheduled count. |
| `ProtocolCalls.StoreCall` | src/download_engine.cpp:772-775 | The steps of an undisturbed store, copy by copy, write the current chunk list and reset the unsaved counter. |
| `ProtocolCalls.CountCall` | src/download_engine.cpp:420-518 | The steps from the chunk update to the finish check add up to `Counted`. |
| `ProtocolCalls.WinCall` | src/download_engine.cpp:521-553 | The steps after the last count complete, store, release and call on_finish once, from Downloading, Paused or Failed, and do nothing otherwise. |
| `ProtocolCalls.NotifyCall` | src/download_engine.cpp:420-556 | The steps of one undisturbed NotifyChunkReceived add up to `Notified`, the effect proved for the engine object, and call on_finish exactly when the report completes the job. |
| `ProtocolCalls.OpenCall` | src/download_engine.cpp:140-154 | The two steps of an opening connection add up to `Opened`. |
| `ProtocolCalls.CloseCall` | src/download_engine.cpp:156-168 | The steps of a closing connection, up to the cleanup, add up to `Closed`; the output file goes exactly when the writer is released. |
| `ProtocolCalls.CancelCall` | src/download_engine.cpp:651-666 | From every state but Initialized, Completed and Canceled the steps of a Cancel call cancel the job; the files go exactly when no connection is open and the writer was not released before. |
| `ProtocolCalls.FailCall` | src/download_engine.cpp:668-676 | The steps of a Fail call, copy by copy: a Queued or Downloading job fails and its current chunks are stored; otherwise nothing happens. |
| `ProtocolCalls.ResumeCall` | src/download_engine.cpp:616-635 | The steps of a Resume call of a drained engine add up to its effect: work rebuilt, counters reset, tasks planned. |
| `ProtocolCalls.EnqueueCall` | src/muld_download_manager.cpp:135-143 | The steps of an EnqueueTasks call, task by task: from any reachable state exactly the workers that PlanNewWorkers adds end up in the pool queue, none stays behind, and every invariant, the cover of the scheduled count included, is kept. |
| `ProtocolCalls.AskCall` | src/downloader.cpp:277-288 | The steps with which a turn of the outer loop begins, from any reachable state: the worker leaves on a token exactly when there is one; else it is the only holder of the next item, with the chunk unfinished and standing where the item begins; else it leaves because every item is claimed. |
| `ProtocolCalls.TurnCall` | src/downloader.cpp:290-297 | The steps with which a turn of the inner loop begins: the connection is given up on a token or when the job is not Downloading, and else the body is streamed. |
| `ProtocolCalls.OutsideStoreCall` | src/download_engine.cpp:772-775 | A store from outside the pool, copy by copy, writes the current chunk list and leaves nothing unsaved. |
| `ProtocolStates.StateMoves` | src/download_engine.cpp:700-752 | Which steps change the state, and to what: a promotion from Queued only, a last count from Downloading only, a forced completion, a failure of a running job, and the users' calls. |
| `ProtocolStates.TakenExactly` | src/download_engine.cpp:700-752 | Pause is taken exactly while the job is Queued or Downloading, Resume exactly from Initialized, Paused and Failed, and Cancel, when none is in progress, exactly unless the job is Initialized, Completed or Canceled. |
| `ProtocolStates.LifeCycle` | src/download_engine.cpp:700-752 | At any time in any run a step keeps the state, moves it along the life cycle (nothing leaves Completed, only a completion leaves Canceled, nothing returns to Initialized), or starts a new process. |
| `ProtocolStates.AnyRead` | src/downloader.cpp:137-142 | The server is free: in every reachable state a read may bring any number of bytes that the grant and the range leave room for, or end the body, the connection or the worker. |
| `ProtocolStates.ReadsRemote` | src/downloader.cpp:137-142 | What a read brings is what the remote file has at the worker's offset. |
| `ProtocolStates.AnyWrite` | src/downloader.cpp:144-154 | The disk is free: a write takes any part of the buffer, or fails the worker. |
| `ProtocolStates.WritesPart` | src/downloader.cpp:147-157 | Exactly the next bytes of the buffer come on disk, at the worker's offset, which moves on by as many. |
| `ProtocolStates.AnyBudget` | src/download_engine.cpp:342-393 | A grant is any number of bytes up to a buffer; an empty one comes only to a job that is not Downloading. |
| `ProtocolStates.Granted` | src/downloader.cpp:133-139 | What was granted is what may be read. |
| `ProtocolStates.Steering` | src/download_engine.cpp:204-214 | Steering is possible in every reachable state, clamps the wanted count, and turns each connection given up into a token. |
| `ProtocolStates.AnyTime` | src/download_engine.cpp:76-127 | A new process can start from any image ever stored while the output file is there; stores and planning are possible at any time. |
| `ProtocolStates.NewProcess` | src/download_engine.cpp:76-127 | A new process has the chosen image's chunks and counters, the output file and the image history as they were, and nobody at work. |
| `ProtocolStates.AnyFault` | src/downloader.cpp:352-366 | Connecting, asking and streaming may throw at any turn, and the server may close the connection between two reads. |
| `EngineSpec.SetDesired` | src/download_engine.cpp:204-214 | The desired count is the wanted one within the bounds, and connections given up become release tokens one for one. |
| `EngineSpec.PlanCount` | src/download_engine.cpp:228-255 | Planning adds workers only for an active engine, never beyond the desired count or the limit, and stops short only at one of them. |
| `Engines.LayOut` | src/download_engine.cpp:61-73 | The constructor's loop, in the arithmetic of size_t, lays out exactly `Partition` unless a number wraps around. |
| `Engines.DownloadEngine.constructor` | src/download_engine.cpp:28-74 | A new engine: that layout, and counters with which the step system starts. |
| `Engines.DownloadEngine.FromImage` | src/download_engine.cpp:76-127 | The loops over an image give its chunk list and the counters with which the step system restarts; the image's index is not taken over. |
| `Engines.DownloadEngine.SetState` | src/download_engine.cpp:700-752 | Queued is taken unless the job runs or is Completed, Downloading from Queued, Paused and Failed while it runs, Canceled unless it is Initialized, Completed or Canceled, and other states always; a refusal changes nothing. |
| `Engines.DownloadEngine.NotifyConnectionOpen` | src/download_engine.cpp:140-154 | Counts the connection and promotes Queued to Downloading. |
| `Engines.DownloadEngine.NotifyConnectionClose` | src/download_engine.cpp:156-168 | Drops both counts; the last connection of a canceled engine removes image and output file. |
| `Engines.DownloadEngine.SetConnectionBounds` | src/download_engine.cpp:181-194 | The bounds, 1 and 1 for a job without ranges, and the desired count brought into them. |
| `Engines.DownloadEngine.SetDesiredConnections` | src/download_engine.cpp:204-214 | Has the effect `SetDesired`. |
| `Engines.DownloadEngine.PlanNewWorkers` | src/download_engine.cpp:228-255 | Has the effect `Plan` and returns the number added. |
| `Engines.DownloadEngine.ShouldReleaseConnection` | src/download_engine.cpp:257-267 | Takes one token exactly when there is one. |
| `Engines.DownloadEngine.GetNextWorkItem` | src/download_engine.cpp:269-273 | Moves the cursor on by one and returns the item it stood at, if any. |
| `Engines.DownloadEngine.BuildPendingWork` | src/download_engine.cpp:571-590 | The loop builds exactly the items of `Build`, resets the cursor and recounts the finished chunks. |
| `Engines.DownloadEngine.WaitForDrain` | src/download_engine.cpp:619-622 | The wait ends with a zero scheduled count, whatever the old workers open, report and close meanwhile; what they report is kept, and the output file stays. |
| `Engines.DownloadEngine.OldWorkers` | src/download_engine.cpp:140-168 | Any sequence of openings, reports and closes by old workers, stores and completion included, keeps the image invariant and never removes the output file. |
| `Engines.DownloadEngine.Resume` | src/download_engine.cpp:592-638 | Start and Resume of an Initialized, Paused, Failed or Canceled job, wait included, with anything the old workers still receive: tokens dropped, work rebuilt from what they left, tasks planned. From other states nothing happens. |
| `Engines.DownloadEngine.Pause` | src/download_engine.cpp:640-649 | A Queued or Downloading job is paused, another is left alone; only the state changes. |
| `Engines.DownloadEngine.Cancel` | src/download_engine.cpp:651-666 | A Downloading, Queued, Paused or Failed job is canceled, another is left alone; both files go exactly if it was taken with no open connection and the writer not yet released. |
| `Engines.DownloadEngine.Fail` | src/download_engine.cpp:668-698 | A Queued or Downloading job fails, and then the image file decodes to its current chunk list; otherwise nothing changes. |
| `Engines.DownloadEngine.NotifyChunkReceived` | src/download_engine.cpp:420-556 | The chunk advances, and the counters, state and cleanup are those of `Notified`, also on an engine already cleaned up if no store is due; the image invariant is kept. |
| `Engines.DownloadEngine.CountReceived` | src/download_engine.cpp:508-518 | The byte counters; from 10485760 unsaved bytes on the image file is brought up to the current chunk list, and below it is left alone. |
| `Engines.DownloadEngine.CountChunk` | src/download_engine.cpp:520-556 | A finished chunk is counted; the last one completes a Downloading, Paused or Failed job, whose image is then removed, and no other changes anything. |
| `Engines.DownloadEngine.Store` | src/download_engine.cpp:796-824 | The image file is the serialization of an image with the current chunk list; it is the image of the engine's current fields if and only if it is written in full or no field but the chunks and the time has changed since it was. |
| `JobImages.StoredIsCurrentExactly` | src/download_engine.cpp:814-820 | A full write, or a patch over an image with the same fields, is what leaves the current image, and nothing else does. |
| `Engines.DownloadEngine.SetValidators` | src/download_engine.cpp:129-133 | Sets the two validators and nothing else. |
| `Engines.DownloadEngine.PatchFile` | src/download_engine.cpp:815-817 | The in-place update of the engine's own file gives the file of the updated image. |
| `Engines.DownloadEngine.CleanupArtifacts` | src/download_engine.cpp:777-794 | Takes effect once: the image goes, and the output file if asked for. |
| `Engines.SnapshotBack` | src/download_engine.cpp:797-802 | Loading a stored chunk list gives the chunk list. |
| `Engines.EmptyFileIsFinished` | src/download_engine.cpp:61-73 | The chunks of an empty file are finished from the start, and leave nothing to fetch. |
| `Workers.WriteAll` | src/downloader.cpp:144-157 | Any sequence of short writes leaves exactly the bytes written so far in place; all of them unless a write fails. |
| `Workers.Deliver` | src/downloader.cpp:142-160 | A buffer is written before it is reported; correct prefixes and the finish tally are kept, also when the disk fails half-way. |
| `Workers.ClaimAndFetch` | src/downloader.cpp:264-336 | One turn of the outer loop: which item is taken and what has been received of it. |
| `Workers.NotifiedTally` | src/download_engine.cpp:520-556 | A reported buffer leaves the finish count right, and the engine completed exactly when every chunk is finished and it was not canceled. |
| `Workers.Interfere` | src/download_engine.cpp:640-698 | A Pause, Cancel or Fail by another thread, while this worker's connection is open, releases nothing and keeps prefixes and tally. |
| `Workers.ReadOnce` | src/downloader.cpp:126-174 | One turn of the body loop: a job that is not Downloading receives and writes nothing; else, with another thread's Pause, Cancel or Fail after the state check and a cut or failure at any point, the chunk advances by exactly the bytes put on disk, at most 32768. |
| `Workers.StreamBodyToDisk` | src/downloader.cpp:117-177 | Ends: true exactly at the end of the range, otherwise cut or broken, with the offset at the chunk's new position. Nothing is received for a job that is not Downloading, and at most one buffer after the first Pause, Cancel or Fail. |
| `Workers.Respond` | src/downloader.cpp:299-330 | Connects if need be, asks and streams; an unfinished response closes the connection, and a job without ranges that is cut off throws. |
| `Workers.Request` | src/downloader.cpp:284-330 | One turn of the inner loop: the connection is given up, with nothing received, exactly on a token or a state other than Downloading; else the rest of the range is asked for. |
| `Workers.FetchItem` | src/downloader.cpp:275-336 | The inner loop ends; without interference, failure or token it ends with the item complete. |
| `Workers.DownloadWorkerImpl` | src/downloader.cpp:240-367 | The outer loop ends; a drained worker leaves every chunk finished, and one that is not has taken a token or leaves the job not Downloading; exceptions fail a running job and keep the prefixes correct. |
| `Workers.Caught` | src/downloader.cpp:352-366 | The handlers fail a Queued or Downloading job and leave another alone. |
| `Workers.DownloadGeneration` | src/downloader.cpp:240-367 | A drained generation leaves the remote file on disk, and the job, unless canceled, Completed exactly when there was an item to fetch. |
| `Workers.DownloadWorker` | src/downloader.cpp:419-455 | The same with the connection guard around it, which leaves the connection count as it was and the scheduled count one lower; nothing but interference, failures and tokens keeps it from draining. |
| `Workers.ResumeAndRun` | src/download_engine.cpp:616-638 | Resume and one worker: whatever was received before and however often the server cuts in, the file becomes the remote file; the job completes if and only if some chunk was unfinished. |
| `Unranged.CutAndResumed` | src/download_engine.cpp:616-638 | A finding: for every URL, path, remote file and r below its size, a new job without ranges that is cut off after r bytes and resumed, with a server and a disk that do not fail, ends Completed, and its file is the remote file if and only if that repeats itself every r bytes. |
| `Unranged.ResumeCut` | src/downloader.cpp:275-326 | The same for any halted one-chunk job without ranges: the file becomes its first r bytes followed by the remote file from the beginning. |
| `Unranged.CutOff` | src/downloader.cpp:316-321 | For every r below the size a new job without ranges comes to a failed state, drained and not cleaned up, with r bytes received. |
| `Unranged.Stream` | src/downloader.cpp:126-176 | The body loop of a response that begins at zero: the job completes while the body goes on, whatever the sizes of the reads, and every byte is written r positions late. |
| `Unranged.MisplacedExactly` | src/downloader.cpp:304-305 | What is left is the remote file if and only if that repeats itself every r bytes. |
| `Restarts.LoadJob` | src/muld_download_manager.cpp:258-363 | A job is loaded exactly when the image and its URL read, neither the image file nor the job is known to the manager, the server answers with nothing contrary, and the local file is there with the server's size; then it has the image's chunks, the server's URL, size and range support and the manager's connection bounds, and is known from then on. A refusal leaves the manager as it was. |
| `Restarts.Admit` | src/muld_download_manager.cpp:276-340 | The manager's checks, one refusal each, the duplicate job included, and the image with what the server says now. |
| `Restarts.LoadableExactly` | src/muld_download_manager.cpp:276-340 | The checks one by one: an image with a URL, an answer, no contradiction in size, entity tag or modification date between what both sides know, and a local file as long as the server's, if that is known. |
| `Restarts.CopyIsRefusedExactly` | src/muld_download_manager.cpp:313-323 | A copy of the image of a loaded job is refused if and only if the URL prints the same after being parsed from its own print. |
| `Restarts.CopyIsRefused` | src/muld_download_manager.cpp:313-323 | So it is refused for every URL from an ordinary text. |
| `Restarts.Restart` | src/muld_download_manager.cpp:258-355 | Store, read the file back, ask the server, build an engine: the same chunks whenever the job is admitted. |
| `Restarts.Reload` | src/download_engine.cpp:76-127 | A job stored in full and loaded again has its URL, path, size, range support, validators, times, bounds and chunks back. |
| `Restarts.RestartAndFinish` | src/muld_download_manager.cpp:258-355 | Store, restart and one worker leave the remote file on disk whenever the job is admitted. |
| `Restarts.UnchangedIsLoadable` | src/muld_download_manager.cpp:51-64 | An unchanged file is admitted if and only if the local file has its size. |
| `Restarts.StoredReadsBack` | src/job_image.h:98-153 | A stored image reads back with the chunk list that was stored. |
| `Restarts.UrlSurvivesImage` | src/download_engine.cpp:88-88 | The URL of an engine whose text meets the round-trip condition is read back from its image. |
| `Restarts.FirstStoreAfterLoad` | src/download_engine.cpp:814-820 | The first store after a load rewrites the file if and only if there is a chunk; with none it overwrites the version field. |
| `Restarts.ValidatorsComeTooLate` | src/muld_download_manager.cpp:452-453 | A finding: for every URL, path, size and validators there is a new job that starts and stores a failure before the manager sets its validators; every field of its later images is current except the validators, which stay empty. |
| `Restarts.WronglyAdmittedExactly` | src/muld_download_manager.cpp:51-64 | Such an image is loaded although the engine's own fields forbid it if and only if it is loadable and a validator of the engine contradicts the server's. |
| `Restarts.UnvalidatedMatches` | src/muld_download_manager.cpp:51-64 | It matches every file whose size does not contradict its own. |
| `Chunks.PartitionTilesExactly` | src/download_engine.cpp:61-73 | The constructor's layout is a gap-free cover by non-empty chunks if and only if the last chunk starts inside the file. |
| `Chunks.CountFits` | src/muld_download_manager.cpp:421-424 | Rounding the count up keeps the chunks within the target size and the last chunk inside the file. |
| `Chunks.ManagerPartitionTiles` | src/muld_download_manager.cpp:418-425 | With the manager's count the layout always covers the file, and chunks of a ranged file stay within the target size. |
| `Chunks.RebuildTiles` | src/download_engine.cpp:571-590 | After any rebuild each offset is in exactly one of the received prefixes and the work items, items do not overlap, and the bytes add up to the file size. |
| `Chunks.BuildShape` | src/download_engine.cpp:575-587 | Items are the unreceived tails of the unfinished chunks, in chunk order, one each. |
| `Chunks.BuildCovers` | src/download_engine.cpp:575-587 | Every unfinished chunk gets an item. |
| `Chunks.ComputeMaxConnections` | src/muld_download_manager.cpp:66-85 | The bound stays between 1 and 8, within the capacity, and is 1 without ranges. |
| `Chunks.MaxConnectionsSuffice` | src/muld_download_manager.cpp:77-84 | Under a speed limit the bound is the cap, or one more than the fewest connections that sustain the limit. |
| `Chunks.MaxConnectionsExactly` | src/muld_download_manager.cpp:66-85 | One without ranges or with a pool of one; else the smaller of 8 and the pool, or under a speed limit one more than the limit in started MiB, if that is less. |
| `Chunks.TargetChunkSize` | src/muld_download_manager.cpp:420-422 | Between 1 MiB and 10 MiB. |
| `Chunks.FourPerConnection` | src/muld_download_manager.cpp:418-425 | A ranged file of 1 to 10 MiB for each of four times the connections is cut into four chunks for each connection, or one more in all. |
| `Chunks.SmallAndLargeFiles` | src/muld_download_manager.cpp:418-425 | A smaller file gets a chunk for each started MiB, a larger one for each started 10 MiB, and one without ranges a single chunk. |
| `TokenBucket.WindowIsBounded` | src/download_engine.cpp:342-366 | With a fixed limit L, the grants to all workers over any window of length T are at most L*T plus max(32768, 0.2*L). |
| `ProtocolRate.WritesAreGranted` | src/downloader.cpp:133-157 | In every run the bytes written are at most the bytes granted plus what the workers were owed at its beginning. |
| `ProtocolRate.JobWritesAreGranted` | src/downloader.cpp:133-157 | From the start of a job they are at most the bytes granted. |
| `ProtocolRate.WindowWrites` | src/downloader.cpp:133-157 | Over a window of a run whose grants are those of a bucket with limit L, the workers write at most L*T, the burst, and a buffer per thread granted before. |
| `TokenBucket.PassesKeepFilled` | src/download_engine.cpp:302-320 | The tokens stay between zero and the burst. |
| `TokenBucket.AcquireIsPasses` | src/download_engine.cpp:342-393 | An AcquireReadBudget call with its waits is a sequence of loop passes whose grants add up to its answer, so the window bound covers whole calls; zero is answered only when not Downloading or nothing was asked for. |
| `TokenBucket.RefillExactly` | src/download_engine.cpp:302-320 | After dt seconds the bucket holds exactly the smaller of max(32768, 0.2*L) and its tokens plus L*dt. |
| `TokenBucket.AcquireExactly` | src/download_engine.cpp:342-393 | A call is answered exactly at the first wake-up at which the bucket holds a byte or the engine is not Downloading, with the smaller of what was asked and the whole bytes there, which are taken out; until then nothing is taken. |
| `TokenBucket.ServedInTime` | src/download_engine.cpp:353-393 | A call of a downloading engine that wakes up 1/L seconds after the last refill, or later, is given at least one byte. |
| `TokenBucket.RateLimiter.SetSpeedLimit` | src/download_engine.cpp:322-338 | The new limit caps the tokens at its burst and refills nothing for the past. |
| `TokenBucket.RateLimiter.RefillRateTokens` | src/download_engine.cpp:302-320 | Leaves the smaller of max(32768, 0.2*L) and the tokens plus L*dt, or none without a limit. |
| `TokenBucket.RateLimiter.AcquireReadBudget` | src/download_engine.cpp:342-393 | The waiting loop has the effect `Acquire`, about which `AcquireExactly` says when it is answered and with how much. |
| `Trimming.Trim` | src/connection_controller.cpp:133-150 | The round-robin loop ends at the total min(D, max(C, M)) with every job at one water level: position j of the order ends at max(min_j, d_j - r - (1 if j < p)) for some r and p. |
| `Trimming.WaterFilledUnique` | src/connection_controller.cpp:133-150 | For a given order those two facts leave only one outcome. |
| `Trimming.WaterFilledBounds` | src/connection_controller.cpp:133-150 | Trimming only lowers, never below a minimum, and leaves a total within the capacity alone. |
| `Trimming.SortOrder` | src/connection_controller.cpp:120-131 | A permutation sorted by longest wait, then most connections. |
| `Trimming.LongestLoses` | src/connection_controller.cpp:120-150 | A job that waits longer, or as long with more connections, loses at least as many connections as another if it has as many to lose, and at most one more unless the other is at its minimum. |
| `Controller.ClimbKeeps` | src/connection_controller.cpp:47-104 | A climbing step keeps the wait average in [0,1], the cooldown in [0,2] and the decision in the job's bounds, and moves it by at most one. |
| `Controller.NoRaiseAfterMove` | src/connection_controller.cpp:72-96 | A step right after a raise or a lowering never raises. |
| `Controller.HalfRaise` | src/connection_controller.cpp:47-104 | So n steps hold at most ceil(n/2) raises. |
| `Controller.RunRaises` | src/connection_controller.cpp:47-104 | The same for a job in a run of ticks of the whole controller, whatever the other jobs do. |
| `Controller.StateStaysOk` | src/connection_controller.cpp:47-104 | The ranges hold after any number of steps. |
| `Controller.TickKeeps` | src/connection_controller.cpp:22-158 | Every tick keeps all job states in range, each decision in its own job's bounds, and the total within the capacity or the sum of minimums. |
| `Controller.TickOfJob` | src/connection_controller.cpp:39-158 | For a job reported once, a tick is its own climbing step followed by a lowering no further than its minimum, whatever the other jobs are. |
| `Controller.LongestWaitPays` | src/connection_controller.cpp:120-150 | Of two jobs that climbed as far above their minimums, the one with the longer average wait loses at least as many connections to the capacity. |
| `Controller.DecisionsAreUseful` | src/connection_controller.cpp:58-62 | Every decision is for a reported active job, at least 1, and within that job's own bounds if they are in order. |
| `Controller.StarvedFalls` | src/connection_controller.cpp:55-71 | A job that always waits is after n + 1 ticks at least n below its start, or at its minimum. |
| `Controller.Converges` | src/connection_controller.cpp:55-151 | From any reachable state and for any mix of other jobs, it is at its minimum after (start - minimum) + 1 ticks and stays there. |
| `Controller.KnownExactly` | src/connection_controller.cpp:39-45 | After a tick the controller knows exactly the jobs whose last report in it was active. |
| `Climbing.Averages` | src/connection_controller.cpp:48-56 | The smoothed throughput is 0.65 of the old and 0.35 of the new one, or the first measurement; the smoothed wait is the mean of the old and the new one. |
| `Climbing.WaitVerdict` | src/connection_controller.cpp:68-100 | From an average wait of 0.55 a job falls by one and cools down for two ticks, above 0.20 it stays and gives a probe up, and below it rises when it is not cooling down, probing or at its maximum. |
| `Climbing.ProbeVerdict` | src/connection_controller.cpp:83-92 | The tick after a raise gives the connection back if the smoothed throughput has grown by less than 8%, and keeps it otherwise. |
| `Climbing.RaisedSoon` | src/connection_controller.cpp:55-96 | From any reachable state a job below its maximum that does not wait, and is not trimmed, is raised in one of any four consecutive ticks. |
| `Climbing.ReachesTop` | src/connection_controller.cpp:55-96 | If moreover each throughput is a quarter above the last, it is at its maximum after four ticks and two for each connection it was short of, and stays there. |
| `Climbing.GrowingRunExists` | src/connection_controller.cpp:22-104 | There are such runs, of any length, for any bounds within the capacity and from any wanted count. |
| `Controller.ConnectionController.Tick` | src/connection_controller.cpp:22-158 | A tick over any inputs, with duplicate, inactive and vanished jobs, is `IsTick` of the states before and after. |
| `Controller.ConnectionController.Adjust` | src/connection_controller.cpp:47-111 | The in-place update of one job state and its decision. |
| `Controller.ConnectionController.Prune` | src/connection_controller.cpp:107-113 | Exactly the states of reported jobs stay. |
| `Controller.ConnectionController.Settle` | src/connection_controller.cpp:115-157 | Decisions in input order; trimmed only if the total exceeds the capacity. |
| `Controller.ConnectionController.Remove` | src/connection_controller.cpp:160-162 | Forgets one job. |
| `JobImages.RoundTrip` | src/job_image.h:98-153 | Reading a written version-2 image gives the same image and the writer's offsets, for all strings and chunk lists. |
| `JobImages.TrailingIgnored` | src/job_image.h:141-153 | Bytes after the image are not looked at. |
| `JobImages.Layout` | src/job_image.h:48-87 | Where each field, text and chunk number is in a written image, and that the index says so. |
| `JobImages.ByteOf` | src/job_image.h:48-87 | Numbers are written least byte first. |
| `JobImages.LegacyExactly` | src/job_image.h:126-139 | A file in the older layout is read as path, URL and chunks if and only if the length of its path is not 2, modulo 2^32, which looks like the version. |
| `JobImages.PrefixRefused` | src/job_image.h:98-153 | Every proper prefix of a written image is refused. |
| `JobImages.PatchIsRewrite` | src/job_image.h:155-175 | Patching a written image through its index is writing the image with the new chunk list and time, and keeps the index right. |
| `JobImages.PatchAllIsRewrite` | src/job_image.h:155-175 | So is any sequence of patches, for the last one. |
| `JobImages.UpdatesDecodeToLast` | src/job_image.h:155-175 | Any sequence of patches decodes to the last one, with every other field and the index unchanged. |
| `ImageFiles.WriteImageToDisk` | src/job_image.h:48-87 | The sequential writes make up `Serialize`, and the noted positions are the index. |
| `ImageFiles.ReadImageFromDisk` | src/job_image.h:98-153 | The sequential reads, with their checks, accept exactly what `Deserialize` accepts, and give the same image and offsets, also for the older layout. |
| `ImageFiles.UpdateImageChunksOnDisk` | src/job_image.h:155-175 | The two seeks and writes are `Patch`; another chunk count leaves the file alone. |
| `ImageFiles.FileStream.WriteStringField` | src/job_image.h:40-46 | Appends length and text and notes where. |
| `ImageFiles.FileStream.ReadStringField` | src/job_image.h:89-96 | Reads exactly what `DecText` reads, or clears the stream. |
| `ImageFiles.FileStream.ReadChunks` | src/job_image.h:141-150 | Reads exactly what `DecChunkList` reads. |
| `Urls.RoundTripExactly` | src/url.cpp:69-97 | Printing and parsing again gives the same URL if and only if `Survives` holds of the text: a non-empty scheme, no delimiter right after it, a port, and a host or a port that is printed. |
| `Urls.OrdinaryUrlsSurvive` | src/url.cpp:8-67 | It holds for every text with a non-empty scheme or none written, a host and no empty port, in the sense of section 3 of RFC 3986 read simply. |
| `Urls.ParseUrl` | src/url.cpp:8-67 | The searches and cuts give the parts that `Parse` defines; an empty text is refused. |
| `Urls.NothingLost` | src/url.cpp:8-67 | Parsing drops nothing but separators: scheme, authority and path with query and fragment make up the text, and host and port the authority. |
| `Urls.PrintedForms` | src/url.cpp:69-97 | The default port of http and https is left out and every other port is printed. |
| `Urls.PrintedParts` | src/url.cpp:69-97 | An empty scheme or port prints nothing, and a path gets its slash. |
| `Urls.GetUrlString` | src/url.cpp:69-97 | The appended text is `Print`. |
| `Urls.FindHostEnd` | src/url.cpp:23-36 | The end of the authority is the first of three delimiters. |
| `Manager.FirstInFirstOut` | src/threadpool.h:24-54 | Over any run of the queue, what was handed out and what is left is what was there and what was put in, in that order. |
| `Manager.TaskQueue.Take` | src/threadpool.h:24-30 | A thread is handed the oldest task, if there is one. |
| `Manager.EnqueueTasks` | src/muld_download_manager.cpp:135-143 | One task for each newly planned worker, all for this job, behind the older tasks. |
| `Manager.ApplyDecisions` | src/muld_download_manager.cpp:517-535 | Each job is steered by its own decision alone, and no job gains or loses a scheduled worker outside the queue. |
| `Manager.Measure` | src/muld_download_manager.cpp:475-502 | Exactly the active jobs are reported, in order, and the controller forgets exactly the others. |
| `Manager.ReportedOnce` | src/muld_download_manager.cpp:490-502 | Each active job is reported once, as active, with its own desired count and bounds and what was measured of it. |
| `Manager.DecisionTaken` | src/muld_download_manager.cpp:494-535 | The controller's decision for an active job exists and lies within its bounds. |
| `Manager.TurnedWants` | src/muld_download_manager.cpp:517-535 | So it is taken over unclamped, whatever became of the job's state meanwhile, and the next tick starts from it. |
| `Manager.TurnedPlans` | src/muld_download_manager.cpp:517-535 | After a turn a job that still runs has as many workers scheduled as it wants, as far as the pool is large; one that does not run gets none and is not steered. |
| `Manager.ControlTurn` | src/muld_download_manager.cpp:475-535 | A whole turn while other threads change the jobs' states: each active job is disturbed, then steered by its own decision, the others are not steered, and every new scheduled worker is a task in the queue. |

## Left out

- Network code: Boost.Asio and Beast, TLS, DNS, HTTP parsing, redirects and the request text are the oracle's business; only the control flow around them is modelled.
- Files: descriptors, truncation and the Windows branches of `src/writer.h`; the output file is a sequence or an array of bytes.
- Display: speed, ETA, percentages and callback throttling (`src/download_engine.cpp:428-506`).
- User callbacks, logging, error texts and `AttachCallbacks`; on_finish is a counter.
- `src/download_handler.cpp`, the command line programs and the dispatcher's error routing: forwarding and easy branches.
- Engines.DownloadEngine.constructor: no chunks, by which the code divides, are excluded; of a layout whose numbers wrap around only the number of chunks is promised.
- Engines.DownloadEngine.FromImage: an empty URL, for which the code throws, is excluded; `Restarts.LoadJob` refuses it before.
- Engines.DownloadEngine.Fail: a failure taken by an engine that is already cleaned up, whose store would use the released writer, is excluded.
- Engines.DownloadEngine.Store: the same; and the disk lock is only in the step system, and the file system does not fail.
- Engines.DownloadEngine.Resume: a Pause, Cancel or Fail during the wait, and a report that would store through a released writer, are excluded; the step system has all of them. Speed tracking is not reset because it is not modelled.
- Engines.DownloadEngine.WaitForDrain: the same.
- Engines.DownloadEngine.OldWorkers: the same.
- Engines.DownloadEngine.NotifyChunkReceived: one call at a time, so no other thread is inside; the step system has the interleavings. An unknown chunk number, for which the code throws, is excluded, and so is a store through a released writer.
- Workers.ReadOnce: other threads act on the job's state only; other workers on the same job are in the step system.
- Workers.ResumeAndRun: a job without ranges that has received part of an unfinished file is excluded, because the claim is false there; `Unranged.ResumeCut` says what becomes of it.
- Unranged.Stream: no other thread acts on the job meanwhile, and the server and the disk do not fail.
- ImageFiles.ReadImageFromDisk: a size in the file that no memory could hold is a short read here, while the code would first try to allocate it.
- ImageFiles.FileStream.ReadStringField: as above for one text.
- The older image layout is read, not written: the repository has no writer for it.
- Restarts.LoadJob: which error code a refusal carries; another Load between the check and the entry of the new job, which the single dispatcher thread rules out.
- Trimming.SortOrder: std::sort is replaced by an insertion; the trimming results hold for every order that the comparator allows.
- Controller.Converges: the job is reported once per tick, as the manager does; its identifier is a number.
- Manager.TaskQueue.Take: the stop flag and the condition variable are not modelled; a thread that finds no task waits.
- Manager.ControlTurn: other threads change the jobs' states between the measurement and the decisions, not their bounds.
- TokenBucket.RateLimiter.AcquireReadBudget: the waiting times are a parameter, and the statistics of waiting are not kept.
- Fairness: `PauseDrains` bounds the steps of the pool; that the scheduler takes them is assumed, not modelled.
- One engine per step system: tasks of other jobs are threads that stay busy.
