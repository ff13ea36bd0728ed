# TubeVault: a Dafny model of the queue, the live captures and the vault

TubeVault archives videos. An api process and worker processes share a Postgres database, a
Redis message channel and BullMQ queues. A download is a durable `Job` row, a BullMQ
execution with the same id, and a video whose copy state moves along a fixed lifecycle.
Nothing locks across the three stores: every write is guarded on the state it expects, and
the comments in the code argue race by race that this is enough. This project states those
arguments as theorems, together with the ordering, live-capture, integrity and naming rules
around them.

## How it is modelled

- **The download protocol** (`DownloadProtocol` and the `Protocol*` modules) is a transition
  system. An event is one guarded update, one transaction or one BullMQ call. An actor is a
  piece of code between two of its awaits, with what it read earlier, however stale. A run is
  any sequence of enabled events, so a lemma about runs speaks about every interleaving,
  crash and restart.
- **Code that updates things in place** is a class whose methods are specified by functions
  of the old state (`QueueService.Queue`, `JobRecorder.Recorder`, `Reconciler.Boot`,
  `VideoState.Store`, `LiveStaging.Staging`, `LiveEnd.Capture`, `LiveScan.Scheduler`,
  `RateLimiter.LoginRateLimiter`, `ControlSubscriber.Subscriber`). The lemmas about whole
  histories are about those functions.
- **Pure code** (`Priority`, `VideoStatus`, `Folds`) is functions.

What is taken from the surroundings, as the code states it: each guarded update or
transaction is one atomic step; `queue.add` on an id that exists is a no-op; each activation
increments `attemptsStarted`; finished BullMQ jobs are removed; removing an active job is
refused; with `maxStalledCount` 0 a stalled job goes back to wait and is failed from outside
the processor when it is picked up again; one archive worker runs. In the protocol a fault of
Redis, of the file system, of the session or of yt-dlp is a choice of the step that meets it,
and a process can die between any two steps; a database statement that is attempted succeeds
(in `JobRecorder` its fault is a parameter instead).

Scheduling assumptions appear by name and only where they are needed. `ProtocolAlways`,
`ProtocolVideos`, `ProtocolExclusion` and `ProtocolDedupe` use none. `ProtocolOwnership`, `ProtocolControl` and
`ProtocolWakeup` use two, together called orderly: `StallIsDeath` (an execution is declared
stalled only once its processor is dead) and `VerdictIsQuick` (no execution is added under a
row's id while a stall verdict on that row is between its read and its write). A run in
`ProtocolRaces` marked `SerialRun` also keeps one thing at a time per row among enqueue, owner
commands, boot repair and a pending verdict, so that a failure in it is not one of overlapping
commands.

## Findings

Each is a lemma with a concrete run or input. For the protocol the runs are given event by
event, and an exact theorem says when the failure happens at all.

Commands. `NoSignalIsLost` decides for every point at which a cancel or pause can find a
registered call whether it stops the download; `RegistryIsExact` says when a row has a
registered call.

- A cancel that arrives before the owner session is obtained is lost when obtaining it
  throws: the call ends without looking at the mode, and a retry is pending
  (`SessionFaultLosesCancel`).
- A cancel that arrives after a transient failure, while the failure is being recorded, is
  lost: the row goes back to QUEUED and the retry is pending (`RetryWindowLosesCancel`). The
  same window before a final failure ends FAILED (`DestinyIsKept`).
- A cancel taken at work is lost if the staging directory cannot be removed: the fault is
  swallowed before the row is written, and the row stays RUNNING with no execution and no
  actor (`WipeFaultLosesCancel`).
- A RUNNING row on a living worker need not have a registry entry: between a session fault
  and its retry it has none, and a cancel sent then reaches nobody (`RunningRowCanBeDeaf`).

Rows. `EveryRowIsCarried` names every event that lets go of a row.

- A cancel that read the row QUEUED can remove the pending retry of a call that has run in
  the meantime: it is answered as signalled, and the row is RUNNING with no execution and no
  actor (`StaleRemoveForsakesRow`).
- A session that cannot be obtained at any of the five attempts leaves the row RUNNING with
  no execution and no actor (`SessionFaultsForsakeRow`).
- A verify chain that cannot be added at any of the five attempts leaves the row QUEUED with
  no execution and no actor: the idempotent resume throws outside the failure handling
  (`RechainFaultsForsakeRow`).
- Two overlapping resumes with a pause between them can leave a row QUEUED with no execution
  and nobody to add one, although a resume reported success (`OverlappingResumesStrandRow`;
  exactly when an add is swallowed is `ResumeIsSwallowedExactly`).
- What is let go a visit of the boot sweep picks up (`SweepRecovers`), if it finds no
  execution under the row's id.

Videos. `VideosStayOwned` holds in every interleaving and names the two steps that strand a
video.

- A stall declared on a call between its claim and its first hop leaves the video DOWNLOADING
  under a FAILED row (`LiveStallStrandsVideo`).
- A pause and a resume while a stall verdict is between its read and its write do the same
  (`LateVerdictStrandsVideo`).
- A boot inside an enqueue's commit-to-add window can do the same: the rejected add is
  compensated on a row that has already run (`SlowEnqueueStrandsVideo`). No assumption is
  broken in that run.

Calls. `CallsExcludeExactly` says when a row has two calls at once.

- A stall declared on a living call can put two calls to work on one row
  (`LiveStallBreaksExclusion`). That stalls are declared on dead calls only is enough to rule
  it out (`OneCallPerRow`).

Recordings. `LargestSurvivesExactly` and `NothingRecordedIsLost` say when the largest
recording of a broadcast survives.

- A worker that dies between a publication and its copy-state hop leaves the published
  recording open to a second capture of the still-live broadcast, whose smaller publication
  replaces it (`RecaptureShrinksPublication`; when the overwrite is safe is
  `SkipStatesGuardPublications`).
- A process that dies after moving the recording and before wiping staging leaves a smaller
  earlier attempt behind, which the next publication puts in the place of the larger one
  (`LeftoverShrinksPublication`).
- A recording that cannot be renamed aside is overwritten by the next attempt
  (`FailedRenameLosesRecording`); a split one falls apart (`FailedRenameSplitsTotal`).

Elsewhere.

- The first write of a staging pointer swallows its fault; if it failed, a pause and a resume
  lose the partial download (`ResumeNeedsPointer`).
- A completeness re-check that keeps throwing after the deadline keeps a capture parked for
  ever (`FaultsDeferForever`).
- A recording split into several files can shrink what is published: the reclaim compares
  totals, the publication keeps one file (`SplitRecordingLosesLargest`; exactly when it
  cannot is `TickKeepsLargest`).
- `sanitizeComponent` is idempotent for every title exactly when its budget is 0 or at least
  8 bytes (`SanitizingIsIdempotent`); the budgets the vault uses are larger.
- The transition table allows AWAITING_VERIFY to FAILED and HEALTHY to VERIFYING, which no
  call site makes (`VideoState.UnusedHops`).

## Model

| member | source | states |
|---|---|---|
| ProtocolAlways.RunKeepsRows | apps/api/src/queue/queue.service.ts:313-351 | In every run, with no scheduling assumption, a video never has two active DOWNLOAD rows, no row disappears or changes its video, and a terminal status is never left |
| ProtocolVideos.VideosStayOwned | apps/api/src/queue/queue.service.ts:558-593 | In every run, with no scheduling assumption, a QUEUED or DOWNLOADING video always has an active row, an actor that settled its row and still owes the hop, or a crash that killed one, if and only if no step strands it: a call beginning the video for a row settled since its claim, or a rejected add compensated on a row that has run, while nobody else answers for the video |
| ProtocolOwnership.OrderlyRunsKeepVideosOwned | apps/api/src/queue/queue.service.ts:401-415 | In an orderly run without a late compensation no video is ever stranded |
| ProtocolExclusion.CallsExcludeExactly | apps/worker/src/jobs/job-recorder.ts:68-106 | In every run, with no scheduling assumption, a row never has two processor calls at once if and only if no execution is picked up while a call whose own was declared stalled under it is still on the row |
| ProtocolExclusion.OneCallPerRow | apps/worker/src/jobs/job-recorder.ts:86-106 | If stalls are declared on dead calls only, a row has at most one call, which holds its execution and, between register and unregister, its registry entry |
| ProtocolOwnership.OneProcessorPerRow | apps/worker/src/jobs/job-recorder.ts:86-106 | In every reachable state of an orderly run the one call of a row has the row RUNNING between its claim and its settling write, and is the one the control registry holds |
| ProtocolOwnership.WorkStartsByClaim | apps/worker/src/jobs/download.processor.ts:272-325 | The only way into work is a claim of a QUEUED row, or of a RUNNING row by a re-execution, and then no other call is on the row; never on a paused or terminal row |
| ProtocolControl.DeliveredCommandDecides | apps/worker/src/jobs/download.processor.ts:276-355 | Wherever a command finds a registered call and however the run goes on, a call that ends leaves its row with a status that was asked for (COMPLETED too, past the last abort check) if and only if the command found it at work or later, or before the work and the session was then obtained, or it was already ending that way, and the abort did not fail to remove staging; it then does not throw, unless removing the cookie file does; between a failure and its last write the command is lost |
| ProtocolControl.NoSignalIsLost | apps/worker/src/jobs/download.processor.ts:561-652 | The same for every cancel and pause after any orderly run from a state with nothing queued, whatever other commands follow |
| ProtocolControl.DestinyIsKept | apps/worker/src/jobs/download.processor.ts:561-652 | Once a call has taken a failure, refusal, hand-back, pause or completion branch, or written its cancel, no later command, drain or fault changes its final row status, and one bound to throw throws: QUEUED or FAILED after a failure |
| ProtocolControl.RegistryIsExact | apps/worker/src/control/control-subscriber.ts:60-103 | In every reachable state of an orderly run the registry has an entry for a row exactly when a call on it is between register and unregister; it names that call, the owner of the row's execution |
| ProtocolWakeup.EveryRowIsCarried | apps/api/src/queue/queue.service.ts:553-587 | In an orderly run, with any overlap of commands, a QUEUED or RUNNING row always has an execution that will claim, settle, retry or fail it, or an actor whose next write does, if and only if no event lets go of it: a drain, an abort that cannot remove staging, a session or re-chain fault on the last attempt, a remove that meets a RUNNING row's pending retry, an add swallowed by a leaving call, or a crash of whoever carried it, each with nobody standing by |
| ProtocolWakeup.SweepRecovers | apps/worker/src/jobs/reconciler.ts:131-178 | A visit of the boot sweep to a QUEUED or RUNNING row without an execution leaves it QUEUED with a fresh one |
| ProtocolDedupe.ResumeIsSwallowedExactly | apps/api/src/queue/queue.service.ts:706-740 | In every run, with no scheduling assumption, a resume's add does nothing if and only if another add since its last look put an execution under the id that is still there; otherwise it creates a fresh one, which may claim the row exactly if the row is still QUEUED |
| ProtocolRaces.SessionFaultLosesCancel | apps/worker/src/jobs/download.processor.ts:335-355 | A run in which a cancel has set the mode of the call before its session, and the row then stays RUNNING with a retry pending |
| ProtocolRaces.RetryWindowLosesCancel | apps/worker/src/jobs/download.processor.ts:627-650 | A run in which a cancel has set the mode between a transient failure and the hand-back, and the row then is QUEUED with a retry pending |
| ProtocolRaces.WipeFaultLosesCancel | apps/worker/src/jobs/download.processor.ts:584-605 | A run in which a cancel is delivered at work, removing staging throws, and the row ends RUNNING with no execution and no actor, the video DOWNLOADING |
| ProtocolRaces.RunningRowCanBeDeaf | apps/worker/src/control/control-subscriber.ts:95-99 | A run in which a cancel is sent to a RUNNING row without a registry entry on a living worker, and reaches nobody |
| ProtocolRaces.StaleRemoveForsakesRow | apps/api/src/queue/queue.service.ts:553-583 | A run of one cancel that removes a pending retry and leaves the row RUNNING with no execution and no actor |
| ProtocolRaces.SessionFaultsForsakeRow | apps/worker/src/jobs/download.processor.ts:335-336 | A run of five session faults that leaves the row RUNNING with no execution and no actor |
| ProtocolRaces.LiveStallBreaksExclusion | apps/worker/src/jobs/download.processor.ts:699-758 | A run in which a stall declared on a living call lets the next execution be picked up over it and leads to two calls at work on one row |
| ProtocolRaces.LiveStallStrandsVideo | apps/worker/src/jobs/download.processor.ts:730-751 | A run in which a stall declared on a living call leaves the video DOWNLOADING under a FAILED row, with the step that strands it |
| ProtocolRaces.LateVerdictStrandsVideo | apps/worker/src/jobs/download.processor.ts:710-751 | The same by a pause and a resume inside a stall verdict, no stall being declared on a living call |
| ProtocolRaces.RechainFaultsForsakeRow | apps/worker/src/jobs/download.processor.ts:260-271 | A run in which the verify chain fails at every attempt and the row ends QUEUED with no execution and no actor |
| ProtocolRaces.OverlappingResumesStrandRow | apps/api/src/queue/queue.service.ts:706-740 | A run of two overlapping resumes with a pause between them, without a crash, in which the first resume's add meets the execution of a leaving call and the row ends QUEUED with no execution and no actor |
| ProtocolRaces.SlowEnqueueStrandsVideo | apps/api/src/queue/queue.service.ts:401-415 | An orderly run in which a boot inside the enqueue window leaves the video DOWNLOADING under a FAILED row, with the step that strands it |
| JobRecorder.Recorder.ClaimForAttempt | apps/worker/src/jobs/job-recorder.ts:86-106 | Claims exactly a QUEUED row, or a RUNNING one on a re-execution, never a paused or terminal one; a fault is reported and never reads as a claim; the whole new table |
| JobRecorder.Recorder.MarkRequeuedForRetry | apps/worker/src/jobs/job-recorder.ts:108-123 | RUNNING to QUEUED with the progress zeroed, nothing else; the whole new table |
| JobRecorder.Recorder.MarkPaused | apps/worker/src/jobs/job-recorder.ts:125-134 | RUNNING to PAUSED keeping staging, progress and priority; answers whether the row was RUNNING, or true on a swallowed fault |
| JobRecorder.Recorder.MarkFinished | apps/worker/src/jobs/job-recorder.ts:136-172 | Settles exactly a row that is not terminal, keeping the final progress of a completed one only; the whole new table |
| JobRecorder.FirstVerdictWins | apps/worker/src/jobs/job-recorder.ts:136-172 | Whatever is written after a terminal verdict, the verdict, its error, the attempt count, the execution id and the priority stay |
| JobRecorder.AttemptCountsExecutions | apps/worker/src/jobs/job-recorder.ts:91-106 | Over any history attempt grows by exactly the claims that won, across pauses and resumes, and no write changes the priority |
| JobRecorder.PartialSurvives | apps/worker/src/jobs/download.processor.ts:377-438 | Once a staging directory is registered, and until the row settles, the partial is exactly what was downloaded since staging was last wiped on purpose (scratch restart, publication, cancel): no pause, resume, retry, drain, revival or re-execution loses a byte |
| JobRecorder.ResumeNeedsPointer | apps/worker/src/jobs/download.processor.ts:388-397 | A paused and resumed download keeps its partial exactly if the pointer of its first execution was saved |
| ControlSubscriber.Subscriber.Register | apps/worker/src/control/control-subscriber.ts:60-65 | A fresh handle with no mode replaces the entry under the id |
| ControlSubscriber.Subscriber.Unregister | apps/worker/src/control/control-subscriber.ts:67-69 | Removes the id's entry and no other |
| ControlSubscriber.Subscriber.HandleMessage | apps/worker/src/control/control-subscriber.ts:87-103 | An acceptable command sets the mode and fires the abort of the registered job and of no other; unknown ids, malformed messages and anything but cancel and pause change nothing |
| ControlSubscriber.DrainAll | apps/worker/src/jobs/download.processor.ts:180-184 | The drain aborts every entry and sets shutdown only where no command had fired |
| Reconciler.Boot.Run | apps/worker/src/jobs/reconciler.ts:101-129 | Unless a stored priority is out of range, every QUEUED or RUNNING row of the four types ends with a live execution, every DOWNLOADING, non-live QUEUED and VERIFYING video with an owner row, everything else as it was, and the counts are the numbers of rows and videos repaired |
| Reconciler.Boot.ReconcileRows | apps/worker/src/jobs/reconciler.ts:131-178 | Exactly the rows without a live execution become QUEUED under their own id and get one; nothing else changes |
| Reconciler.Boot.ReconcileVideos | apps/worker/src/jobs/reconciler.ts:192-302 | Exactly the ownerless in-flight videos are given back or failed, a DOWNLOADING one to CANDIDATE if its newest download was canceled; the count is the number failed |
| Reconciler.BootSettles | apps/worker/src/jobs/reconciler.ts:131-302 | From any crash state the specified result leaves everything in flight owned |
| Reconciler.SecondRunChangesNothing | apps/worker/src/jobs/reconciler.ts:131-302 | A second pass changes no row, video or execution and counts nothing |
| VideoState.Store.TransitionCopy | apps/worker/src/services/video-state.service.ts:76-128 | Refuses an illegal pair before reading, loses on a missing row or another state, and otherwise writes state, patch and event together; the whole new table |
| VideoState.Store.DeferRecheck | apps/worker/src/services/completeness-checker.ts:139-153 | Bumps the cursor of a parked video and touches nothing else |
| VideoState.Store.Perform | apps/api/src/video-state.service.ts:46-79 | No call site ever asks for an illegal pair, and each has the stated effect |
| VideoState.HistoriesStayConsistent | packages/core/src/domain/video-status.ts:36-109 | However the writes of api and workers interleave: the events are an unbroken chain of allowed hops to the current state; VERIFYING, AWAITING_VERIFY, HEALTHY and PARTIAL_KEPT have extension and size; a checksum is set exactly while HEALTHY, deadline and cursor exactly while parked; parked copies leave only to VERIFYING or PARTIAL_KEPT |
| VideoState.VideosStayConsistent | packages/core/src/domain/video-status.ts:36-109 | The same for every video from its discovery on |
| Priority.NestedInsertions | packages/core/src/domain/priority.ts:86-96 | A gap admits k nested midpoint insertions for every choice of sides if and only if it is at least 2^k |
| Priority.FreshGapAdmitsFour | packages/core/src/domain/priority.ts:12-16 | A fresh gap of 16 admits any four and not every five |
| Priority.EndSlotsAreFresh | packages/core/src/domain/priority.ts:47-77 | A slot at the tail or head exists exactly while it stays within BullMQ's range, and leaves a fresh gap to its neighbour: room for any four nested insertions and not for every five |
| QueueOrder.OrderIsUnique | apps/api/src/queue/queue.service.ts:838-844 | The table determines the order: priority ascending, nulls last, then id |
| QueueMove.RespacingKeepsOrder | apps/api/src/queue/queue.service.ts:893-903 | A renumber never reorders, whatever the priorities were, and leaves none null |
| QueueMove.MoveReorders | apps/api/src/queue/queue.service.ts:816-926 | After a successful move, from any priorities including ties and nulls, the order is the old one with the job taken out and put back at the top, at the bottom or behind the anchor |
| QueueMove.MoveTouchesPrioritiesOnly | apps/api/src/queue/queue.service.ts:893-925 | A move writes priorities only, of the job alone or, when it renumbers, of active rows |
| QueueMove.MoveCapacity | apps/api/src/queue/queue.service.ts:904-923 | A move is refused for lack of priority space if and only if the first slot does not fit or a null must be healed, and there are more than 65,537 active rows, or exactly 65,537 and a row that is not last is sent to the end |
| QueueMove.SmallQueuesAlwaysMove | packages/core/src/domain/priority.ts:106-120 | With at most 65,536 active rows that never happens |
| QueueEnqueue.ChunkJudgesEach | apps/api/src/queue/queue.service.ts:243-369 | A committed chunk gives each target one verdict in request order, each accepted one with a new QUEUED row of its own in BullMQ's range |
| QueueEnqueue.ChunkAcceptsEligible | apps/api/src/queue/queue.service.ts:270-352 | A committed chunk of distinct targets accepts exactly those that are known, in an enqueueable state, not a live retry, not being captured, without an active download and not raced, judged by the state before the chunk; exactly those videos become QUEUED |
| QueueEnqueue.EnqueueAppends | apps/api/src/queue/queue.service.ts:259-352 | The accepted rows stand, in request order, behind every active row that has a priority |
| QueueRuns.RunKeepsPriorities | packages/core/src/domain/priority.ts:47-59 | Every run of enqueue chunks, moves and status writes keeps the active priorities non-null, distinct and in [1, 2097152] |
| QueueRuns.ReachableMovesNeverCrash | packages/core/src/domain/priority.ts:35-39 | On every reachable table a move never meets an out-of-range priority |
| QueueService.ResolveTargets | apps/api/src/queue/queue.service.ts:434-467 | Explicit ids, then the filter's, each once, none lost, in first-seen order |
| QueueService.VerdictsTally | apps/api/src/queue/queue.service.ts:226-232 | Enqueued, failed and skipped videos together are the targets, each counted once |
| QueueService.Queue.EnqueueChunk | apps/api/src/queue/queue.service.ts:243-369 | The loop computes the specified transaction and commits all of it or nothing |
| QueueService.Queue.AddExecution | apps/api/src/queue/queue.service.ts:381-420 | Adds with the priority read last, never replacing an execution; a rejected add fails the row and gives the video back, each only if still in the expected state |
| QueueService.Queue.Enqueue | apps/api/src/queue/queue.service.ts:195-236 | Each distinct target gets one verdict; the enqueued rows, in request order, are inserted behind the rows with a priority and nothing else moves; rows that existed are untouched; exhaustion keeps the committed chunks and reports their count |
| QueueService.Queue.RenumberAll | apps/api/src/queue/queue.service.ts:896-903 | The loop writes the grid over the active rows, or nothing if it does not fit |
| QueueService.Queue.RunMoveTransaction | apps/api/src/queue/queue.service.ts:816-926 | Computes the specified move with its 404, 400, 409 and 503 verdicts and commits all of it or nothing |
| QueueService.Queue.Move | apps/api/src/queue/queue.service.ts:767-808 | Relocates the job, and keeps BullMQ's priorities equal to the rows' when every execution is reachable |
| LiveStaging.Staging.LiveMediaBytes | apps/worker/src/jobs/live-staging.ts:101-109 | The bytes of this video's recordings, earlier attempts included and sidecars excluded |
| LiveStaging.Staging.PreservePriorAttempt | apps/worker/src/jobs/live-staging.ts:120-135 | Every recording of the current attempt that can be renamed is moved to its aside name with its size, everything else stays, and the count is the number moved |
| LiveStaging.Staging.ReclaimSupersededPriors | apps/worker/src/jobs/live-staging.ts:153-210 | Deletes exactly the unlocked files of earlier attempts with no more media bytes than the current one, and reports exactly the bytes freed |
| LiveStaging.Staging.ResolveArtifacts | apps/worker/src/jobs/live-staging.ts:233-258 | Picks a recording no smaller than any other, or none if all are empty, and the current publishable sidecars |
| LiveStaging.Staging.Publish | apps/worker/src/services/live-finalizer.ts:164-193 | Replaces what was published by a largest recording of staging, if there is one with bytes, and wipes staging |
| LiveContinuation.LargestSurvivesExactly | apps/worker/src/jobs/live-staging.ts:111-258 | Over any history of attempts, failing renames, stalls, drains, crashes, reclaims and whole or half-done publications, however recordings are split: the largest recording ever made survives if and only if no event drops the last file of its size, by a fresh run over a file that could not be renamed, a reclaim by an attempt that caught up only in total, or a smaller publication |
| LiveContinuation.NothingRecordedIsLost | apps/worker/src/services/live-finalizer.ts:164-193 | With one file per attempt, distinct timestamps and renames that succeed: the largest recording ever made survives if and only if no publication is smaller than the one it overwrites |
| LiveContinuation.PublicationIsBest | apps/worker/src/services/live-finalizer.ts:164-193 | As long as the largest survives, a publication that is not smaller than the one it replaces publishes it |
| LiveContinuation.SkipStatesGuardPublications | apps/worker/src/services/live-finalizer.ts:155-163 | No publication is smaller than the one it overwrites if every publication runs to its end in a state the probe skips, no attempt starts before the hop that follows it, and no hop then leaves those states |
| LiveContinuation.RecaptureShrinksPublication | apps/worker/src/jobs/live-capture.processor.ts:567-680 | A history in which 100 published bytes are replaced by 40: the worker dies before the hop, the video is handed back and captured again |
| LiveContinuation.LeftoverShrinksPublication | apps/worker/src/services/live-finalizer.ts:175-192 | A history in which a publication that dies before its wipe leaves a smaller attempt that the next publication puts over the larger |
| LiveContinuation.FailedRenameLosesRecording | apps/worker/src/jobs/live-staging.ts:127-133 | A history in which a recording that could not be renamed is overwritten |
| LiveContinuation.TotalsNeverShrink | apps/worker/src/jobs/live-staging.ts:112-210 | Until something is published, over any history of attempts, reclaims and interruptions in which the renames succeed, however recordings are split over files: the total that an attempt held at any time is held in full by some attempt at every later time |
| LiveContinuation.FailedRenameSplitsTotal | apps/worker/src/jobs/live-staging.ts:127-133 | A split recording of which one file cannot be renamed and whose total is then held by no attempt |
| LiveContinuation.TickKeepsLargest | apps/worker/src/jobs/live-capture.processor.ts:446-456 | A reclaim tick keeps the publishable size if and only if some largest recording belongs to the current attempt or to one it has not caught up with |
| LiveContinuation.SplitRecordingLosesLargest | apps/worker/src/jobs/live-staging.ts:182-196 | A split recording for which it does not |
| LiveEnd.EvaluateIntegrity | packages/core/src/domain/integrity.ts:60-102 | No reasons exactly when the file is intact, and each reason is listed exactly when it applies |
| LiveEnd.InterruptedNeverVerifies | packages/core/src/domain/live.ts:155-176 | A capture measured short never passes the verify |
| LiveEnd.NormalVerifiesUnlessOverrun | packages/core/src/domain/integrity.ts:90-99 | A capture measured complete passes its length check exactly when it does not over-run by more than the tolerance |
| LiveEnd.Capture.FinalizeExit | apps/worker/src/jobs/live-capture.processor.ts:567-680 | The measured verdict decides between VERIFYING, parking with both cursors, and PARTIAL_KEPT |
| LiveEnd.Capture.RecheckCompleteness | apps/worker/src/services/completeness-checker.ts:71-130 | Resolves on a measured verdict, gives up at the deadline, otherwise bumps the cursor |
| LiveEnd.Capture.Verify | apps/worker/src/jobs/verify.processor.ts:194-269 | HEALTHY exactly for an intact file checked against the recorded source length, otherwise FAILED |
| LiveEnd.HealthyCapturesAreComplete | apps/worker/src/services/live-finalizer.ts:214-250 | However a capture is finalized, parked and re-checked, if it becomes HEALTHY its probed length is within max(1 s, 2%) of the VOD's in both directions |
| LiveEnd.Capture.ProvisionalDefer | apps/worker/src/jobs/completeness-scan.scheduler.ts:121-139 | The bump after a re-check that threw, on a parked capture only |
| LiveEnd.ParkingIsBounded | apps/worker/src/services/completeness-checker.ts:112-153 | A parked capture is deferred at most 40 times, re-checks that throw before the deadline included, plus once for each that throws after it, and leaves only to VERIFYING or PARTIAL_KEPT |
| LiveEnd.FaultsDeferForever | apps/worker/src/jobs/completeness-scan.scheduler.ts:105-119 | Re-checks that throw after the deadline are deferred without bound |
| LiveEnd.FortyDeferralsHappen | packages/core/src/domain/live.ts:192-200 | Forty deferrals do happen |
| LiveScan.Scheduler.Scan | apps/worker/src/jobs/live-scan.scheduler.ts:118-173 | Every channel of the batch is stamped and has a probe, created exactly when it had none |
| LiveScan.ScanIsFair | apps/worker/src/jobs/live-scan.scheduler.ts:123-137 | A due channel with r channels ahead is passed over by at most r / 50 ticks, whatever restamps the others |
| LiveScan.StampedInTime | apps/worker/src/jobs/live-poll.ts:26-31 | One of any floor(r / 50) + 1 ticks picks it |
| Folds.GateLaw | packages/core/src/domain/source-recheck.ts:47-101 | Over every history the source is gone exactly when seen gone at least threshold times since last available, the streak is that count capped, and each such episode raises exactly one alert |
| Folds.AlertKind | packages/core/src/domain/source-recheck.ts:86-96 | The alert comes with the sighting that completes the threshold, and says rescued exactly when the copy was healthy then |
| Folds.InconclusiveIsNoise | packages/core/src/domain/source-recheck.ts:98-101 | Deleting every inconclusive sighting changes nothing |
| Folds.AuthLaw | packages/core/src/domain/credential.ts:77-117 | The session is expired exactly after threshold failures since its last success, alerts once per episode, and keeps the last success's time |
| Folds.StallLaw | packages/core/src/domain/live.ts:228-239 | The byte count is the running maximum, and a capture is stalled exactly when its last new maximum is older than the window |
| RateLimiter.LoginRateLimiter.Sweep | apps/api/src/auth/login-rate-limiter.ts:64-68 | Drops exactly the full buckets |
| RateLimiter.LoginRateLimiter.Allow | apps/api/src/auth/login-rate-limiter.ts:35-51 | Answers and updates as specified, denying an untracked key at capacity without inserting it |
| RateLimiter.WindowBound | apps/api/src/auth/login-rate-limiter.ts:57-61 | In any window a key is allowed at most capacity + elapsed / refillInterval times |
| RateLimiter.FreshKeyGetsCapacity | apps/api/src/auth/login-rate-limiter.ts:46-58 | An untracked key gets exactly capacity attempts at once while there is room for it, the first ones |
| RateLimiter.MapStaysBounded | apps/api/src/auth/login-rate-limiter.ts:38-45 | The map never exceeds maxTracked |
| RateLimiter.BoundIsInvisible | apps/api/src/auth/login-rate-limiter.ts:12-17 | The answers equal those of an unbounded limiter given the same attempts minus those dropped at capacity |
| Listing.CursorAgreesWithOrder | apps/api/src/queue/queue.service.ts:493-503 | The keyset predicate says exactly "comes later in the order", null keys included |
| Listing.List | apps/api/src/queue/queue.service.ts:505-524 | A page is the first limit rows behind the cursor, with a cursor exactly when rows remain |
| Listing.PagingIsComplete | apps/api/src/queue/queue.service.ts:472-535 | Following the cursor yields every row exactly once, in order, in ceil(n / limit) pages, or one empty page |
| Titles.DecodeEncode | packages/storage/src/local-file-store.ts:100-112 | UTF-8 as in section 3 of RFC 3629 decodes back to the text |
| Titles.TruncateUtf8 | packages/storage/src/local-file-store.ts:100-112 | Backing up over continuation bytes yields the specified prefix |
| Titles.TruncatedIsLongest | packages/storage/src/local-file-store.ts:95-99 | That prefix splits no code point, keeps the budget, and one more code point would exceed it |
| Titles.SanitizeComponent | packages/storage/src/local-file-store.ts:130-141 | The sequence of cleanings computes the specified component |
| Titles.SanitizedIsSafe | packages/storage/src/local-file-store.ts:123-141 | For every title the component is non-empty, free of separators, control characters, doubled white space and edge dots or spaces, and within a budget of at least 8 bytes |
| Titles.SeparatorsAreSpaces | packages/storage/src/local-file-store.ts:131-136 | A separator anywhere in a title reads as a space and a control character as nothing |
| Titles.SanitizingIsIdempotent | packages/storage/src/local-file-store.ts:130-141 | Idempotent for every title if and only if the budget is 0 or at least 8 |
| Titles.LeafFits | packages/storage/src/local-file-store.ts:184-194 | For every title the leaf is one path component of at most 255 bytes |
| Titles.LookupIsById | packages/storage/src/local-file-store.ts:201-216 | The lookup finds a directory exactly when the video has one under any title, and never another video's |

## Left out

- ProtocolWakeup.SweepRecovers: the visit runs undisturbed; a stale add of an owner command on a row that strayed while RUNNING makes the sweep see an execution and pass over it.
- LiveScan.Scheduler.Scan: every add to the probe queue succeeds; one that fails aborts the tick, and the channels behind it stay due.
- LiveContinuation.LargestSurvivesExactly: one child records at a time, attempts have distinct timestamps, and the published recording is one slot.
- LiveScan.ScanIsFair: no channel is registered and no tick aborted by a failing queue add between the ticks; the waiting channel itself is not restamped, and other channels are restamped strictly later than its due time; channels due at the same instant count as ahead.
- QueueService.Queue.Enqueue: nothing else happens to the rows of one request between its chunks; interleavings are covered by QueueRuns and by the protocol.
- RateLimiter.WindowBound: real arithmetic, so the rounding of floating-point token counts is not modelled.
- Reconciler.Boot.Run: rows carry their own id or none as execution id, which is how every producer writes it; of several newest download rows with equal enqueue times any may be chosen.
- Titles.LookupIsById: the directory holds only leaves made for safe ids; names come in the sorted order the code reads them in.
- Titles.SanitizedIsSafe: titles are sequences of Unicode scalar values; lone surrogates are not.
- The download protocol is about videos that are not live; LIVE_CAPTURE rows appear in the enqueue guard, the reconciler and the copy-state writes, and the probe-versus-enqueue races across roles are not modelled.
- VERIFY rows and their executions are outside the protocol: hops of a video outside QUEUED and DOWNLOADING are free within the transition table there, and their order is covered by VideoState and LiveEnd.
- The live probe, the live reconciler and session bookkeeping (DETECTED, CAPTURING, ENDED states).
- Deleting rows and channels, purging, and the frames, alerts and log lines that follow a write.
- Losing Redis data while a worker runs.
- The processes themselves: a yt-dlp or ffprobe run is an outcome chosen by the environment.
- Resolution of download policies, playlist deduplication, error-signature tables, encryption, cookies and DTO mapping: they would add only easy members.
