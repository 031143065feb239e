# Verified model of the encoder service's job lifecycle

The encoder service turns an uploaded video into an HLS ladder. A job is queued (at once or at a later
time), taken by a consumer, and pushed through a resumable pipeline: hash, deduplication, analysis, one
encoding per quality, finalization. Every step is checkpointed in a state file that a heartbeat goroutine
also rewrites; failed attempts are retried with a backoff that depends on the error; the disk is cleaned
when it fills up; and a token bucket limits each client's requests.

This project models those parts in Dafny and proves what they promise, over all inputs, all runs and all
interleavings. Where the program does not keep a promise, the exact condition under which it does is
proved together with a run or an input on which it fails.

| file | content |
|---|---|
| `job_state.dfy`, `state_store.dfy` | the checkpoint and its crash-safe file |
| `jobs.dfy`, `retry.dfy` | job records, error classification, the retry loop over the attempts made |
| `ladder.dfy`, `encoding.dfy` | choice of variants, the plain and the resuming encoder |
| `pipeline.dfy` | attempts, heartbeat and crashes of one job as a state machine, with its invariants |
| `checkpoint.dfy` | what its runs leave in the state file, the job's record and the deduplication cache |
| `recovery.dfy` | where its runs lead: recovery, a job that is stranded, and runs that break a promise |
| `worker.dfy` | the same pipeline as imperative code, down to `Execute`; its runs are runs of the machine |
| `scanning.dfy`, `attribute_list.dfy`, `playlist.dfy` | numbers, attribute lists and master playlists as text |
| `rate_limiter.dfy`, `priority_queue.dfy`, `queue_wakeup.dfy`, `scheduler.dfy`, `disk_cleanup.dfy` | the components of those names |
| `service.dfy` | results that join the pipeline to the playlist's text and to the disk cleanup |

`dafny verify dfyconfig.toml` checks everything.

## How the pipeline is put together

`Pipelines.Run` gives the state after any sequence of events: a new attempt, a step of the main goroutine
(with an arbitrary answer of the environment: success or failure of ffmpeg, of the hash, of a save, the contents
of the deduplication cache), the load and the save of the heartbeat, a crash, and the updates of the retry loop
between attempts. An event that cannot happen leaves the state as it is, so "for all event sequences" covers every
interleaving. The fields `past` and `saves` only record what happened, for use in statements.

`Workers.Worker` is the program's own code: it changes the checkpoint object, the shared job object, the
job's directory and the state file in place, and before each step lets the heartbeat do whatever it likes.
Each method is proved to take exactly the machine's steps, so the theorems about `Run` hold of the code; its
top is `Workers.TranscodeUseCase.Execute`.

## Where the program differs from its documentation

- Reading the error text, `contains` looks at three places only. The size-limit errors therefore classify as
  ffmpeg failures and are retried, although the retry table says they are not
  (`Retrying.ContainsIsSubstringTest`, `Retrying.SizeLimitIsRetried`).
- With a negative number of retries `Execute` runs no attempt, fails the job and returns nil
  (`Retrying.OutcomeAgreement`).
- A failed job's checkpoint still says "processing", so the cleanup's rule "always clean failed jobs first"
  does not reach it (`Services.FailedJobsAreNotFirst`); and "oldest first (LRU)" in docs/FEATURES.md holds only
  within a priority class (`DiskCleanup.OldestFirstWithinRank`).
- After a crash between the hash step and deduplication the recomputed hash is missing, and every later attempt
  that loads the checkpoint fails (`Recoveries.StrandedForever`, `Recoveries.CrashLosesHash`); one that begins
  afresh can succeed (`Recoveries.Recovery`).
- Evicting idle visitors can give a client a second burst within five minutes. It does so, and breaks the bounds
  on admissions, exactly when five minutes and a nanosecond do not refill the bucket, an unfair setting
  (`RateLimiting.EvictionTheorem`, `RateLimiting.IdealBucketDominates`, `RateLimiting.WindowBound`).
- Scheduling a job under an ID whose earlier job is still in the map loses the earlier job silently; no run loses
  a job exactly when all IDs differ (`Scheduling.OverwrittenExactlyWhen`, `Scheduling.NothingLostIffDistinct`).
- With audio, every attempt encodes every quality anew and ignores failures: a quality can stay listed as complete
  after its latest encoding failed, and a job whose video encodings all failed is COMPLETED
  (`Recoveries.IntactExactlyWhen`, `Recoveries.CompleteExactlyWhen`).
- A heartbeat that loaded the state file before a save and writes it after undoes that save, even the final one
  (`CheckpointRuns.StaleHeartbeatUndoes`); `CheckpointRuns.DiskHoldsLastSave` says exactly when.
- A crash between an encoding and its record makes the next attempt repeat it (`Recoveries.StaleWorkRepeats`);
  `Services.CallsExactly` says what is encoded again.

## Model

| member | source | states |
|---|---|---|
| `RateLimiting.RateLimiter.Allow` | internal/api/middleware/rate_limiter.go:57-92 | one call answers and updates as the pure bucket does for this client and leaves every other client's bucket alone |
| `RateLimiting.RateLimiter.Take` | internal/api/middleware/rate_limiter.go:69-92 | refill with the floored amount, cap at burst, lastSeen moves only on a real refill, one token taken if there is one |
| `RateLimiting.RateLimiter.CleanupVisitors` | internal/api/middleware/rate_limiter.go:95-110 | exactly the visitors idle for more than five minutes disappear |
| `RateLimiting.VisitorsSettled` | internal/api/middleware/rate_limiter.go:72-91 | with or without eviction: between calls a bucket holds between 0 and burst-1 tokens, less than one token's credit is pending since lastSeen, and the tokens missing from a full bucket were admitted |
| `RateLimiting.Coverage` | internal/api/middleware/rate_limiter.go:72-91 | tokens plus pending credit never exceed the level of the ideal bucket once the ideal's extra admissions are charged |
| `RateLimiting.DominatedWithoutEviction` | internal/api/middleware/rate_limiter.go:57-92 | without eviction, never more admissions than the continuously refilled real-valued bucket |
| `RateLimiting.IdealBucketDominates` | internal/api/middleware/rate_limiter.go:57-110 | on all runs of calls and cleanup ticks and for all clients, at most as many admissions as the ideal bucket grants, if and only if the setting is fair |
| `RateLimiting.IdealPays` | internal/api/middleware/rate_limiter.go:72-91 | the ideal bucket's admissions and level never exceed a full bucket plus what it earned |
| `RateLimiting.ExploitAdmitsTwice` | internal/api/middleware/rate_limiter.go:95-110 | under every unfair setting a concrete run of five minutes gets twice the burst admitted |
| `RateLimiting.ExploitBeatsIdeal` | internal/api/middleware/rate_limiter.go:95-110 | that run is admitted more than the ideal bucket grants |
| `RateLimiting.ExploitBreaksWindow` | internal/api/middleware/rate_limiter.go:95-110 | that run exceeds the window bound |
| `RateLimiting.WindowBound` | internal/api/middleware/rate_limiter.go:57-110 | in all windows of all runs every client gets at most burst + rate*window/minute admissions, if and only if the setting is fair |
| `RateLimiting.CreditSinceAdmission` | internal/api/middleware/rate_limiter.go:77-84 | lastSeen is never later than the last admission: rejected calls do not move it |
| `RateLimiting.NoEarlyRejection` | internal/api/middleware/rate_limiter.go:72-92 | under every setting, with or without eviction, a rejected client had at least burst admissions, and less than one token's time has passed since its last call and since its last admission, however often it has called meanwhile |
| `RateLimiting.EvictionUnobservable` | internal/api/middleware/rate_limiter.go:57-110 | under a fair setting the limiter answers every client as one that never evicts |
| `RateLimiting.UnfairEvictionShows` | internal/api/middleware/rate_limiter.go:95-110 | under any other setting there is a run on which eviction admits a request that would be refused |
| `RateLimiting.EvictionTheorem` | internal/api/middleware/rate_limiter.go:57-110 | eviction is unobservable on all runs if and only if the setting is fair, that is, five minutes and a nanosecond refill the bucket; 5*rate >= burst is enough |
| `PriorityQueues.PriorityQueue.Swap` | pkg/types/priority_queue.go:100-104 | exchanges two items, each still knows its position, the bag of jobs is unchanged |
| `PriorityQueues.PriorityQueue.Push` | pkg/types/priority_queue.go:107-112 | appends a new item with its position |
| `PriorityQueues.PriorityQueue.Pop` | pkg/types/priority_queue.go:115-123 | removes the last item and sets its Index to -1 |
| `PriorityQueues.PriorityQueue.Up` | pkg/types/priority_queue.go:42-52 | the sift of heap.Push restores the heap and keeps the bag and the positions |
| `PriorityQueues.PriorityQueue.Down` | pkg/types/priority_queue.go:56-80 | the sift of heap.Pop restores the heap below n, keeps the bag and the items from n on |
| `PriorityQueues.PriorityQueue.Enqueue` | pkg/types/priority_queue.go:42-52 | keeps the max-heap and the positions, adds exactly this job to the bag |
| `PriorityQueues.PriorityQueue.HeapPop` | pkg/types/priority_queue.go:64-65 | takes out an item of greatest priority, sets its Index to -1, the rest is a heap with exactly the other jobs |
| `PriorityQueues.PriorityQueue.Dequeue` | pkg/types/priority_queue.go:56-67 | returns a job of greatest priority and removes exactly that one |
| `PriorityQueues.PriorityQueue.TryDequeue` | pkg/types/priority_queue.go:70-80 | nothing on an empty queue, else as Dequeue |
| `PriorityQueues.RootIsGreatest` | pkg/types/priority_queue.go:95-98 | in a heap the first item has a greatest priority |
| `QueueWakeups.NoLostWakeup` | pkg/types/priority_queue.go:42-80 | any number of producers and consumers, in every state: no pop on an empty heap, nothing lost or duplicated, and while a consumer sleeps there is a woken one for every queued job but the one that the mutex holder is announcing or taking |
| `QueueWakeups.WokenConsumerDelivers` | pkg/types/priority_queue.go:56-67 | if a job is queued and a consumer sleeps, a woken consumer delivers a job of greatest priority in three steps of its own |
| `QueueWakeups.MutexExcludes` | pkg/types/priority_queue.go:42-80 | while one goroutine has the mutex no event of another changes anything |
| `QueueWakeups.EnqueueReturns` | pkg/types/priority_queue.go:42-53 | a call queues its job, wakes exactly one sleeper if there is any, touches no other goroutine, and frees the mutex |
| `QueueWakeups.TryDequeueOnEmpty` | pkg/types/priority_queue.go:70-76 | on an empty queue it returns at once without a job; it never sleeps |
| `QueueWakeups.TryDequeueTakes` | pkg/types/priority_queue.go:70-80 | on any other queue it returns with a job of greatest priority |
| `QueueWakeups.DequeueSleepsExactlyWhen` | pkg/types/priority_queue.go:56-63 | it sleeps, releasing the mutex, if and only if the queue is empty |
| `Scheduling.SchedulerService.ScheduleJob` | internal/application/services/scheduler_service.go:39-66 | a past time sends at once, else timer and entry are stored, replacing an entry of the same ID |
| `Scheduling.SchedulerService.CancelScheduledJob` | internal/application/services/scheduler_service.go:69-84 | removes the entry and stops its timer; an unknown ID changes nothing |
| `Scheduling.SchedulerService.ExecuteScheduledJob` | internal/application/services/scheduler_service.go:135-153 | claims the entry filed under the ID and sends its job, or does nothing |
| `Scheduling.SchedulerService.Stop` | internal/application/services/scheduler_service.go:120-132 | stops the armed timers of all entries and empties the map, the queue is untouched |
| `Scheduling.ExactlyOnce` | internal/application/services/scheduler_service.go:39-84 | in every interleaving each job is in exactly one of map, claimed, queue (once), cancelled, overwritten; with distinct IDs never overwritten |
| `Scheduling.FiredTimerFinds` | internal/application/services/scheduler_service.go:47-64 | a fired timer finds its entry if and only if the entry was not cancelled, as the lock spans AfterFunc and the map store |
| `Scheduling.FinalStaysFinal` | internal/application/services/scheduler_service.go:69-84 | a cancel that found the entry is final: no later event enqueues the job; nothing enqueued is enqueued again |
| `Scheduling.PendingIsDelivered` | internal/application/services/scheduler_service.go:135-153 | a pending job can always still be brought to the queue by its own timer |
| `Scheduling.StoppedExactlyForCancelled` | internal/application/services/scheduler_service.go:69-84 | in every run a timer is stopped only for a cancelled job, and the timer of a cancelled job never fires afterwards |
| `Scheduling.OnlyTwinsAreLost` | internal/application/services/scheduler_service.go:56-64 | without the assumption on IDs a job can only be lost to another call with the same ID |
| `Scheduling.OverwrittenExactlyWhen` | internal/application/services/scheduler_service.go:56-64 | a job is overwritten by exactly one kind of step: the map store of another call whose ID still has that job as its entry |
| `Scheduling.OverwrittenIsLost` | internal/application/services/scheduler_service.go:56-64 | an overwritten job is neither pending, claimed, queued nor cancelled |
| `Scheduling.TwinIsLost` | internal/application/services/scheduler_service.go:56-64 | any two calls with the same ID, one after the other: the first job is lost |
| `Scheduling.NothingLostIffDistinct` | internal/application/services/scheduler_service.go:39-84 | no run loses or overwrites a job if and only if no two calls carry the same ID |
| `DiskCleanup.BeforeIsStrictWeakOrder` | internal/application/services/disk_service.go:196-213 | for a fixed clock the comparator is irreflexive, transitive, and ties are transitive |
| `DiskCleanup.SortedThroughout` | internal/application/services/disk_service.go:196-213 | neighbours in order means all pairs in order |
| `DiskCleanup.SortExists` | internal/application/services/disk_service.go:196-213 | every listing has a sorted permutation |
| `DiskCleanup.AutoCleanup` | internal/application/services/disk_service.go:38-103 | tries a prefix of the sorted jobs; usage was at or above the target before each; ends below it or with all tried; counts and freed bytes are those of the jobs really deleted |
| `DiskCleanup.TriedFirst` | internal/application/services/disk_service.go:196-213 | no job left alone ought to have gone before one that was tried |
| `DiskCleanup.CleanupIsMinimal` | internal/application/services/disk_service.go:64-96 | on an otherwise idle disk a pass ends below the target or exhausted, and without its last deletion usage would still be at or above the target |
| `DiskCleanup.GroupExists` | internal/application/services/disk_service.go:241-281 | every job is in exactly one of eight groups, given by status and age limits |
| `DiskCleanup.CleaningOrder` | internal/application/services/disk_service.go:196-281 | one job goes before another if and only if its group comes first, or the groups are the same and it is older |
| `DiskCleanup.RecentJobsWait` | internal/application/services/disk_service.go:256-272 | no recent completed or partial job is tried while an old one of either kind is left; three days are old for a completed job in an emergency, seven otherwise |
| `DiskCleanup.DeletedExactly` | internal/application/services/disk_service.go:83-95 | the jobs counted are exactly those whose deletion worked, in the order tried |
| `DiskCleanup.TotalSizeAdds` | internal/application/services/disk_service.go:94-95 | freed bytes are the sum of the sizes of those jobs |
| `DiskCleanup.ReadingDecides` | internal/application/services/disk_service.go:74-77 | a pass goes on exactly while the reading is at or above the target; a failed reading ends it unless the target is not positive |
| `DiskCleanup.OldestFirstWithinRank` | internal/application/services/disk_service.go:204-213 | of two jobs the older goes first if and only if it is in no lower priority class |
| `DiskCleanup.NotOldestFirst` | internal/application/services/disk_service.go:241-281 | a year-old completed job goes after a failed job of today |
| `JobStates.JobState.IsStepCompleted` | pkg/types/state.go:44-51 | true exactly for marked steps |
| `JobStates.JobState.IsQualityCompleted` | pkg/types/state.go:54-61 | true exactly for completed qualities |
| `JobStates.JobState.MarkStepCompleted` | pkg/types/state.go:64-69 | appends the step once, changes nothing else |
| `JobStates.JobState.MarkQualityCompleted` | pkg/types/state.go:72-77 | appends the quality once, changes nothing else |
| `JobStates.JobState.MarkQualityFailed` | pkg/types/state.go:80-83 | appends always, even a repeated failure |
| `StateStore.StateService.LoadState` | internal/application/services/state_service.go:54-76 | the stored state, or nothing if there is none or it is torn |
| `StateStore.StateService.SaveState` | internal/application/services/state_service.go:78-110 | the new state on success, the old one on a failed write or rename, no other job affected |
| `StateStore.StateService.UpdateHeartbeat` | internal/application/services/state_service.go:113-122 | on success the file loads with the new time and with the status, steps, completed and failed qualities that it had; on failure as before; other jobs as before |
| `StateStore.LoadIsLastSaved` | internal/application/services/state_service.go:54-110 | any interleaving of saves, failures and crashes: LoadState gives the state renamed last, never a torn one |
| `StateStore.OldOrNew` | internal/application/services/state_service.go:78-110 | any one event leaves the loaded state as it was or makes it the complete state being saved |
| `Jobs.JobService.Create` | internal/infrastructure/filesystem/repository.go:20-30 | a new ID is filed with a fresh queued job without hash, error, retries or end time; a known ID changes nothing |
| `Jobs.JobService.UpdateStatus` | internal/application/services/job_service.go:60-75 | sets the status; the end time too for COMPLETED and FAILED |
| `Jobs.JobService.SetError` | internal/application/services/job_service.go:91-105 | error, status FAILED and end time |
| `Jobs.JobService.SetMetadata` | internal/application/services/job_service.go:107-117 | describes input and output, status untouched |
| `Jobs.JobService.SetHash` | internal/application/services/job_service.go:119-127 | stores the hash only |
| `Jobs.JobService.IncrementRetry` | internal/application/services/job_service.go:129-137 | adds one retry only |
| `Ladders.SelectVariants` | internal/infrastructure/ffmpeg/encoder.go:27-42 | the rungs no taller than the input, or the lowest |
| `Ladders.SelectedIsPrefix` | internal/infrastructure/ffmpeg/encoder.go:27-42 | the selection is a non-empty prefix of the ladder with distinct names, holding exactly the fitting rungs (or the lowest) |
| `Ladders.SelectQualities` | internal/application/usecases/separate_av_encoder.go:117-136 | the rows whose width and height both fit |
| `Ladders.SeparateSelectionIsLower` | internal/application/usecases/separate_av_encoder.go:117-136 | the selection is the prefix of rows whose width and height both fit; it never climbs higher than SelectVariants and agrees with it rung by rung in frame size |
| `Encoding.JobDir.EncodeQuality` | internal/infrastructure/ffmpeg/quality_encoder.go:27-86 | success exactly if ffmpeg ran through and a chunk is there; then quality, hls/name as directory, its main.m3u8 as playlist and the chunk count; the directory's chunks after each kind of failure |
| `Encoding.JobDir.LoadExistingQuality` | internal/application/usecases/transcode_usecase.go:569-585 | quality, directory, playlist and chunk count found on disk, or nothing if the directory is missing |
| `Encoding.DirectoriesDiffer` | internal/infrastructure/ffmpeg/quality_encoder.go:29-34 | variants of different names have different directories and playlists |
| `Encoding.JobDir.EncodeHLSWithPartialSuccess` | internal/infrastructure/ffmpeg/encoder.go:74-130 | files, outputs, variants, failed list and verdict of the plain encoder for every pattern of outcomes |
| `Encoding.JobDir.EncodeWithResume` | internal/application/usecases/transcode_usecase.go:477-567 | files, checkpoint, encode calls and verdict of the resuming encoder from any checkpoint |
| `Encoding.ResumeRefinesPlain` | internal/application/usecases/transcode_usecase.go:477-567 | with no quality completed, same encode calls, files, outputs, variants, failed list, counts and kind of verdict as the plain encoder |
| `Encoding.CallSplitsVariants` | internal/application/usecases/transcode_usecase.go:488-566 | each call splits the variants into listed, failed and completed-but-missing, in ladder order, outputs and variants in step; EncodeQuality is called once for every variant that was not completed and for no other |
| `Encoding.VerdictsTell` | internal/application/usecases/transcode_usecase.go:538-566 | of both encoders: which verdict for which tally, in both directions, with its outputs, failed list and counts |
| `Encoding.CountsAddUp` | internal/infrastructure/ffmpeg/encoder.go:84-104 | successes and failures add up to the variants |
| `Encoding.FaultFreeEncodesAll` | internal/infrastructure/ffmpeg/encoder.go:74-130 | a fault-free run lists every variant with all its chunks |
| `Retrying.ContainsLooksAtThreePlaces` | internal/application/usecases/transcode_usecase.go:199-203 | finds a word exactly at the start, at offset one and at the end |
| `Retrying.ContainsIsSubstringTest` | internal/application/usecases/transcode_usecase.go:199-203 | is a substring test on all texts of a length if and only if that is at most two more than the word's (or the word is empty) |
| `Retrying.OtherwiseFFmpeg` | internal/application/usecases/transcode_usecase.go:178-197 | a text whose first two and last characters rule out every word classifies as an ffmpeg failure |
| `Retrying.CodeExactlyWhen` | internal/application/usecases/transcode_usecase.go:178-197 | for each of the five codes, exactly which texts get it |
| `Retrying.NotRetriedExactlyWhen` | internal/application/usecases/transcode_usecase.go:132-143 | a failure is not retried if and only if its text shows one of the words resolution and disk at the start, one further or at the end |
| `Retrying.DelayTable` | pkg/types/retry.go:13-69 | the delay before every attempt for every code that is retried |
| `Retrying.NoDelay` | pkg/types/retry.go:31-55 | which codes are never retried |
| `Retrying.SizeLimitIsRetried` | pkg/types/retry.go:13-69 | both size-limit error texts classify as ffmpeg failures, which are retried, though the table forbids retrying size-limit errors |
| `Retrying.BackoffBounds` | pkg/types/retry.go:13-69 | every row has at most three growing delays, none above 3, 6 and 15 seconds, and as many as it allows attempts |
| `Retrying.RetryAccounting` | internal/application/usecases/transcode_usecase.go:128-176 | at most 1+min(maxRetries,3) attempts, at most 24 s of sleep, Retries grows by attempts minus one, dead-lettered exactly if all maxRetries+1 attempts ran and failed |
| `Retrying.EncodingFailures` | internal/application/usecases/transcode_usecase.go:128-176 | when every attempt fails with an encoding error: exactly 1+min(maxRetries,3) attempts, 0, 2, 7 or 17 s of sleep, the last error and its code recorded, dead-lettered exactly if maxRetries <= 3 |
| `Retrying.IOFailures` | internal/application/usecases/transcode_usecase.go:128-176 | the same for I/O errors with 0, 3, 9 or 24 s |
| `Retrying.FinalFailures` | internal/application/usecases/transcode_usecase.go:132-143 | for errors that must not be retried: one attempt, no sleep, dead-lettered exactly if maxRetries is 0 |
| `Retrying.OtherFailures` | internal/application/usecases/transcode_usecase.go:128-176 | for all other errors: 1+min(maxRetries,2) attempts and 0, 2 or 7 s, dead-lettered exactly if maxRetries <= 2 |
| `Retrying.OutcomeAgreement` | internal/application/usecases/transcode_usecase.go:128-176 | nil with a success status, an error with FAILED, an end time always: on all runs if and only if maxRetries is not negative |
| `Retrying.LoopReaches` | internal/application/usecases/transcode_usecase.go:132-165 | the loop, attempt by attempt, is the recursive description of it: after the attempts made it has ended or continues with the rest |
| `Pipelines.ResumeTransparency` | internal/application/usecases/transcode_usecase.go:477-585 | after any failures, crashes, stale reloads and lost saves, a call of encodeWithResume that returns nil gives outputs, variants and playlist of one fault-free run: for each variant its name, directory, playlist path and full chunk count |
| `Pipelines.StaleButSound` | internal/application/services/state_service.go:113-122 | at every moment disk and heartbeat hold earlier versions of the state in memory; every quality any of them lists complete was encoded, and without audio its latest encoding succeeded and all its chunks are there; every failure any of them lists did happen |
| `CheckpointRuns.DiskHoldsLastSave` | internal/application/services/state_service.go:113-122 | while an attempt runs, the file lists exactly what the main goroutine saved last if and only if the heartbeat has not written back a copy that an earlier save had overtaken; unless a save failed that is the state in memory |
| `CheckpointRuns.HeartbeatKeepsListings` | internal/application/services/state_service.go:113-122 | whatever the main goroutine does between a heartbeat's load and its save, the save leaves exactly the listings that the load read, with the new time |
| `CheckpointRuns.StaleHeartbeatUndoes` | internal/application/services/state_service.go:113-122 | a run in which a job is COMPLETED and saved, and a heartbeat makes its checkpoint processing again |
| `CheckpointRuns.SaveReachesDisk` | internal/application/usecases/transcode_usecase.go:504-536 | a save before or after an encoding, after the encoder's return and at the end puts the state in memory on disk, whatever was there |
| `CheckpointRuns.FinalCheckpoint` | internal/application/usecases/transcode_usecase.go:367-392 | at the end of a successful attempt the state has the final status and all six steps, and so has the file unless the last save failed or an overtaken heartbeat undid it |
| `CheckpointRuns.RecordTells` | internal/application/usecases/transcode_usecase.go:335-392 | the job is RUNNING while the steps run; at the end status, end time, metadata and error say what the attempt came to |
| `CheckpointRuns.HashIsTheInputs` | internal/application/usecases/transcode_usecase.go:212-223 | the record holds no hash but the input's, and holds it whenever the step is marked in a process that has not crashed; under no other hash is the job cached |
| `CheckpointRuns.DuplicateExactlyWhen` | internal/application/usecases/transcode_usecase.go:230-245 | the duplicate exit is taken if and only if the input's hash is in the cache at that moment |
| `CheckpointRuns.FinishedIsCached` | internal/application/usecases/transcode_usecase.go:385-389 | a finalized job is cached under its input's hash if its record holds one, which it does unless the process crashed |
| `CheckpointRuns.FailsExactlyWhen` | internal/application/usecases/transcode_usecase.go:649-693 | at which steps and for which reasons an attempt fails, in both directions, with the error it returns |
| `CheckpointRuns.StopWaits` | internal/application/usecases/transcode_usecase.go:602-605 | process returns exactly when the heartbeat is between two updates, so that nothing of an update can follow it |
| `Recoveries.IntactExactlyWhen` | internal/application/usecases/transcode_usecase.go:411-463 | that the latest encoding of every listed quality succeeded holds on all runs if and only if there is no audio or the separate encoder selects nothing |
| `Recoveries.SeparateBreaksIntact` | internal/application/usecases/separate_av_encoder.go:66-85 | with audio, a run in which a listed quality was encoded again and failed |
| `Recoveries.CompleteExactlyWhen` | internal/application/usecases/transcode_usecase.go:319-410 | that a finalized job has all its selected qualities holds on all runs if and only if there is no audio or the separate encoder selects nothing |
| `Recoveries.FinishedWithoutVideo` | internal/application/usecases/separate_av_encoder.go:66-100 | with audio, a run that is finalized as COMPLETED with every video encoding failed |
| `Pipelines.PipelineOrder` | internal/application/usecases/transcode_usecase.go:649-693 | completed steps are always a prefix of the pipeline, at least as long as the point reached; a marked hash step means a stored hash unless the process crashed |
| `Pipelines.AttemptSummary` | internal/application/usecases/transcode_usecase.go:587-619 | an attempt changes the job's record as its summary in the retry loop says |
| `Pipelines.NoRepeatedWork` | internal/application/usecases/transcode_usecase.go:488-536 | with no stale reload EncodeQuality is never called for a quality that succeeded before, no success is repeated, and the completed qualities are the successes in order |
| `Recoveries.StaleWorkRepeats` | internal/application/usecases/transcode_usecase.go:504-532 | a crash between an encoding and its record makes the next attempt encode a success again |
| `Services.CallsExactly` | internal/application/usecases/transcode_usecase.go:488-536 | with heartbeats and lost saves, the loop calls EncodeQuality exactly for the variants that were not completed when it began, in order, once each |
| `Pipelines.FinalizedIsComplete` | internal/application/usecases/transcode_usecase.go:319-410 | a job without audio that ends through finalization has every selected variant completed and in its playlist, also as PARTIAL_SUCCESS, which it gets exactly when the checkpoint records a failure |
| `Pipelines.LoopIsResumeRun` | internal/application/usecases/transcode_usecase.go:477-567 | with saves and heartbeats in between, verdict, encode calls, files, playlist and state of the loop are those of a run of the resuming encoder; a partial success records its failures twice |
| `Pipelines.FailureIsNotOnDisk` | internal/application/usecases/transcode_usecase.go:649-693 | the checkpoint of a job that never succeeded says "processing" |
| `Recoveries.Recovery` | internal/application/usecases/transcode_usecase.go:649-693 | whatever happened before, an attempt that meets no fault, with any heartbeats in between, finishes the job within 9 + 3 * variants steps if the hash for deduplication can be had, and otherwise fails; it can be had whenever the process has not crashed or the checkpoint is not loaded |
| `Recoveries.CourseEnds` | internal/application/usecases/transcode_usecase.go:602-605 | after that many steps one heartbeat save and one step end the attempt in success |
| `Recoveries.StrandedForever` | internal/application/usecases/transcode_usecase.go:226-234 | once the hash cannot be had, no event whatsoever lets an attempt that loads the checkpoint get past deduplication |
| `Recoveries.CrashLosesHash` | internal/application/usecases/transcode_usecase.go:226-234 | a crash right after the hash checkpoint leads there |
| `Workers.Worker.StepHashComputation` | internal/application/usecases/transcode_usecase.go:207-224 | the machine's hash step, with its three ways to fail |
| `Workers.Worker.StepDeduplication` | internal/application/usecases/transcode_usecase.go:226-250 | the machine's deduplication step: no hash, duplicate, or on to analysis |
| `Workers.Worker.StepAnalysis` | internal/application/usecases/transcode_usecase.go:252-267 | the machine's analysis step, marked once |
| `Workers.Worker.EncodeWithResume` | internal/application/usecases/transcode_usecase.go:477-567 | the loop with its saves and the heartbeat before each step takes exactly the machine's steps |
| `Workers.Worker.EncodeSeparateAV` | internal/application/usecases/transcode_usecase.go:412-463 | marks the managed tracks and the playlist step, with one save |
| `Workers.Worker.StepEncoding` | internal/application/usecases/transcode_usecase.go:269-317 | choice of encoder; a partial success records its failures again, is checkpointed and still fails the attempt |
| `Workers.Worker.StepFinalization` | internal/application/usecases/transcode_usecase.go:319-410 | metadata, error and final status by recorded failures, cleanup once, two checkpoints |
| `Workers.Worker.ExecuteSteps` | internal/application/usecases/transcode_usecase.go:649-693 | skips completed steps, stops at the first error or at a duplicate, and reports which |
| `Workers.Worker.StopHeartbeat` | internal/application/usecases/transcode_usecase.go:602-605 | the stop is taken only between two heartbeat updates |
| `Workers.Worker.Process` | internal/application/usecases/transcode_usecase.go:587-619 | under any environment and heartbeat: the record changes as the attempt's summary says, and a finished job without audio has its full ladder |
| `Workers.TranscodeUseCase.PrepareRetry` | internal/application/usecases/transcode_usecase.go:133-154 | no retry for this code, retries used up, or the table's delay (`Retrying.DelayTable`) and one more retry counted |
| `Workers.TranscodeUseCase.AttemptLoop` | internal/application/usecases/transcode_usecase.go:128-165 | the loop over real attempts returns error, attempts, sleep and record that its description gives for them |
| `Workers.TranscodeUseCase.Execute` | internal/application/usecases/transcode_usecase.go:128-176 | end to end: nil exactly with a success status, FAILED exactly with an error, retries counted, dead letter exactly on the last of maxRetries+1 failures; exact attempts and seconds of sleep when all attempts made fail with one kind of error, bounds otherwise; with a negative maxRetries no attempt, FAILED, dead letter and nil |
| `Scanning.ScanPrinted` | internal/infrastructure/ffmpeg/encoder.go:173-178 | an integer printed with %d and followed by a non-digit is scanned back, with what follows left over |
| `Scanning.NothingScanned` | internal/infrastructure/ffmpeg/encoder.go:173-178 | a text that begins with no number parses as 0 |
| `Scanning.BlanksAndPlus` | internal/infrastructure/ffmpeg/encoder.go:173-178 | a leading blank or plus sign does not change the number |
| `Scanning.WidthAlone` | internal/application/usecases/transcode_usecase.go:465-475 | without an x after it the width is kept and the height is 0 |
| `Scanning.ResolutionRoundTrip` | internal/application/usecases/transcode_usecase.go:465-475 | parseWidth and parseHeight recover what %dx%d printed, for all integers |
| `Scanning.BitrateRoundTrip` | internal/infrastructure/ffmpeg/encoder.go:173-178 | parseBitrate of a printed number is 1000 times that number, with k or any other non-digit after it |
| `Scanning.SeparateBitrate` | internal/application/usecases/transcode_usecase.go:443-450 | bandwidth/1000 printed as a bitrate is recovered if and only if 1000 divides the bandwidth |
| `AttributeLists.AttributesRoundTrip` | internal/infrastructure/ffmpeg/encoder.go:165-166 | every well-formed attribute list, quoted commas included, is read back from its text (section 4.2 of RFC 8216) |
| `AttributeLists.AttributesReadOnce` | internal/infrastructure/ffmpeg/encoder.go:165-166 | a text is read as attributes only if it is exactly their text |
| `Playlists.GenerateMasterPlaylist` | internal/infrastructure/ffmpeg/encoder.go:144-171 | the text written is header, version and one attribute list with its URI line for each variant in order |
| `Playlists.MasterRoundTrip` | internal/infrastructure/ffmpeg/encoder.go:144-171 | an RFC 8216 reader recovers bandwidth, resolution, codecs and URI of all variants in order; it rejects the text if and only if some bandwidth is negative |
| `Playlists.PlaylistPresents` | internal/infrastructure/ffmpeg/encoder.go:150-168 | the reader learns of every variant its bitrate, 128 kbit/s more with audio, its frame, the codec names and name/main.m3u8 as URI |
| `Playlists.TextBegins` | internal/infrastructure/ffmpeg/encoder.go:151-152 | the first two lines are EXTM3U and version 3 |
| `Playlists.LadderNumbers` | pkg/types/encoding.go:31-39 | the ladder's bitrate strings parse to its rates; its frames |
| `Playlists.SeparateNumbers` | internal/application/usecases/separate_av_encoder.go:117-128 | the separate encoder's table: the ladder's frames and rates but for 4k |
| `Playlists.LadderPlaylist` | internal/infrastructure/ffmpeg/encoder.go:144-171 | for any selection of rungs the playlist is read back in full with strictly increasing BANDWIDTH |
| `Playlists.TextDeterminesVariants` | internal/infrastructure/ffmpeg/encoder.go:144-171 | two selections with the same text are the same selection with the same audio setting |
| `Services.ChosenFromLadder` | internal/application/usecases/transcode_usecase.go:488-546 | whatever the checkpoint and the outcomes, a call lists rungs of the ladder in order |
| `Services.PlaylistAlwaysReads` | internal/application/usecases/transcode_usecase.go:538-548 | at every moment of every run the playlist last written reads back as its variants with strictly increasing bandwidths |
| `Services.PlaylistTextOnSuccess` | internal/application/usecases/transcode_usecase.go:538-567 | when encodeWithResume returns nil, a selection has the text of the playlist if and only if it is the full selection |
| `Services.OutputsMatchPlaylist` | internal/application/usecases/transcode_usecase.go:538-567 | the playlist is read back as one stream for each reported output, in order, whose URI below the hls directory is that output's playlist |
| `Services.FailedJobsAreNotFirst` | internal/application/services/disk_service.go:241-281 | a job that never succeeded gets the rank of an unknown status and goes after any completed job older than seven days |
| `Services.FailedRank` | internal/application/services/disk_service.go:241-246 | only checkpoints written by the size limit get the rank of failed jobs |
| `Services.FinishedJobsAreRanked` | internal/application/services/disk_service.go:218-281 | a successful job is ranked as completed or partial as it ended, unless its last save failed or an overtaken heartbeat undid it |

## Left out

- Float rounding and integer overflow in the rate limiter: refills are exact floors over unbounded integers; one call reads the clock once and is atomic, although the program releases the map lock before taking the visitor's.
- FIFO order among jobs of equal priority: the queue does not provide it. `PriorityQueues.PriorityQueue.Dequeue` is the part after the wait loop; the loop itself is in `QueueWakeups`.
- The capacity of the scheduler's channel, a second call of Stop, and Start waiting on its own wait group; timers may fire at any moment.
- `DiskCleanup.AutoCleanup`: usage readings, the sorted listing and the success of each deletion are parameters; sort.Slice is any order without inversions, and one sort uses one clock reading.
- Size-limit enforcement during encoding and the periodic disk-limit check: they delete the job's directory mid-run; all pipeline statements are for runs that do not reach the limit.
- The job's directory survives and the job stays registered; after a crash it is registered anew under the same ID, which the program leaves to its operator because its repository is in memory. DeleteState and FindOrphanedJobs are not modelled.
- A crash in the middle of writing master.m3u8: each write is one step of the pipeline. Write errors after the file is created are ignored by the program and do not occur in the model.
- Interleaving inside one step of the main goroutine: a step ends with its save, and heartbeat and crash come between steps. State files are replaced atomically, which `StateStore.LoadIsLastSaved` justifies.
- `Workers.Worker.EncodeSeparateAV`: only what it does to the checkpoint; the tracks, the audio group and their playlist are not modelled, and the statements about the ladder are for inputs without audio. An attempt that fails in it is taken to have failed before its first video encoding.
- `Encoding.JobDir.EncodeQuality`: ffmpeg, ffprobe and the watchdog are an oracle; a complete encoding of a variant always leaves the same number of chunks, and only chunk counts stand for files.
- Error texts of the pipeline are given by the environment, and the retry loop is proved for every classification of them; the program's own one is a field's initial value.
- CurrentStep, UpdatedAt, chunk counters, progress, previews, thumbnails, metrics and WebSocket messages: nothing that is modelled reads them.
- `Scanning.ScanPrinted`: blanks are space, tab and carriage return; other Unicode spaces and 64-bit overflow are not modelled.
- `Playlists.MasterRoundTrip`: names must keep their URI line a line (no line break, no leading #), which the ladder's names do; the reader does not check the 64-bit range of decimal integers.
- Fairness: nothing says that a scheduled step is ever taken; `Recoveries.Recovery`, `QueueWakeups.WokenConsumerDelivers` and `Scheduling.PendingIsDelivered` say what the steps achieve when they are.
- HTTP handlers, webhooks, storage and CDN adapters, configuration, batch statistics, DLQ listing and the deduplication cache's own map: plumbing or single-map code. The number of parallel jobs is not bounded by maxWorkers in the program, and nothing here claims it.
