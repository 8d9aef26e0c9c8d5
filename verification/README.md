# A verified model of jorb

jorb is a workflow engine in one Go process: jobs move through states, workers execute them, and a serializer
makes their progress survive crashes. This project models its three cores and proves what they promise.

* **Persistence** (`json_serializer.go`). `Persisted` has the disk and the laws of replaying a log, `Serializing`
  the serializer as a step system in which every file-system call may succeed, fail, or be the last one before a
  crash, `Durability` the invariant, `DurabilityResults` the theorems over whole runs, `DurabilityLimits` the exact
  conditions under which they hold with runs that break each, `Stretches` how pieces of runs join. `Replaying` and
  `Serializer` are the code itself: loops and an object over a directory, told by its parameters which calls fail.
  Every method hands back the calls it made as actions of the step system, so what holds after any prefix of actions,
  a crash included, holds inside the method. `SegmentNames` and `Decimal` are the names of log segments, of the
  checkpoint, and the cleanup pattern.
* **Scheduler** (`processor.go`). `StateStorage` is the class with counters, queues and channels, tied to one value
  per state. `Scheduler` is the processor as a step system of workers and the central goroutine, `Lanes`,
  `SchedulerInvariant` and `SchedulerSteps` its invariant, `SchedulerResults`, `Kicks`, `Fifo`, `Termination` (with
  `Sums`) and `Endings` the theorems. `Worker` is one execution of a job on heap-allocated error lists, `KickIds` the
  ids of forked jobs, `Processing` handleReturn as code, `ReturnMoves` the proof that this code makes the moves of the step systems.
* **Both together.** `CrashRestart` runs the scheduler and the serializer side by side, with checkpoints at any
  moment, and proves that a crash between two handleReturn calls loses nothing; `HalfReturns` is about a crash inside
  one, `Runs` about adding jobs before Exec. `OneWorker` holds the steps of the runs that are given in full.
* **Limiter** (`ratelimit.go`). `Limiter` is the class, `LimiterBounds` bounds over any interleaving, `Convergence`
  the closed loop of `examples/aimd/gencharts/main.go`.

`Jobs` holds the shared data. `dafny verify dfyconfig.toml` checks everything.

## What the theorems assume of callers

* State names are distinct (a repeated name would start workers for both entries), the states are ones that
  `Storage.Validate` accepts, and every job is in a registered state (`Scheduler.Startable`, `ValidStatesStart`).
* An Exec function names registered states, except where its timeout overrides the state, and asks for kicks in at
  most one return of a job (`Scheduler.Contract`). `Kicks.KicksAreNewExactly` says when ids are new without this
  promise, `Kicks.SecondKickReplaces` what a repeated id costs.
* The run in memory is updated before the log, as handleReturn does, and the lookups of a recovery find the active log
  if it is there (`Serializing.Disciplined`). `DurabilityLimits` says exactly what is lost otherwise.
* The extension of the checkpoint file does not start with `.incremental` (`SegmentNames.TakesCheckpoint`): otherwise the
  cleanup removes the checkpoint, too, and `DurabilityLimits.TakenCheckpointLosesAcknowledged` shows what is lost.
* Listings find every segment, in a recovery and in a cleanup (`Serializing.Disciplined`); for a sealed one that takes
  a stem whose segment names parse (`SegmentNames.Recognised`).
* `Exec` is not cancelled.

## Where the code and its documentation differ

* The comments at `json_serializer.go:41-44` and `508-514` say that appends continue while checkpoints fail. Every error
  return of `doCheckpointRotateWriteDelete` leaves `appendFile` nil, so nothing is acknowledged until a later
  checkpoint succeeds: `FailedCheckpointReached`, `FailedCheckpointCloses`, `NothingAcknowledgedWhileClosed`.
* `json_serializer.go:27-28` and `230-231` promise recovery after any crash. `recoverCheckpointAtomic` promotes a tmp file
  that may be cut short, and then no construction succeeds any more: `FirstCheckpointCutShort`, `StuckForever`. It
  takes a crash in the very first checkpoint, when nothing is owed yet: `StuckOwesNothing`.
* `json_serializer.go:309` takes every error of `os.Stat` on the active log for "no log". One such error and the
  recovery drops acknowledged lines for good: `BlindRecoveryLosesAcknowledged`, with the exact condition in
  `BlindRecoveryIsFullExactly`.
* `README.md:94` says that a Timeout on a terminal state is rejected; `processor.go:137-165` accepts a proper one:
  `TerminalTimeoutIsAccepted`.
* `json_serializer.go:628` matches every name that starts with the stem and `.incremental`. A checkpoint called
  `run.incremental` has the stem `run` and is removed right after each publication: `RemovesCheckpointExactly`,
  `SomeCheckpointIsTaken`, `TakenCheckpointLosesAcknowledged`, `CloseThenReopen`.
* `filepath.Glob` (`json_serializer.go:327`, `629`) passes over directories it cannot read. A cleanup that misses a sealed
  segment can bring back values older than a later checkpoint: `StaleSegmentRevives`, `StaleSegmentIsHarmlessExactly`.
* `parseSealedSeq` takes the first marker in the name, so a stem that itself holds `.incremental.sealed.` makes recovery
  read the wrong number, which is harmless while there is one segment, or none, which hides it: `RoundTripExactly`,
  `ParsesTheStemInstead`, `RecognisedExactly`, `UnrecognisedStemLosesExactly`.
* `Run.Init` (`run.go:48-58`) discards the value it computes; it changes nothing and is not modelled.

## Model

| member | source | states |
|---|---|---|
| DurabilityResults.AcknowledgedSurvives | json_serializer.go:172-316 | from a fresh directory, through every interleaving of updates, appends, checkpoint steps that may fail, crashes and recoveries themselves cut short: an acknowledged job is in every later recovered run, with a value written at or after that acknowledgement |
| DurabilityResults.FlushedSurvives | json_serializer.go:561-618 | a job in the snapshot of a checkpoint that returned no error is in every later recovered run, with the value published, the value memory held at that return, or one written since |
| DurabilityResults.NothingInvented | json_serializer.go:273-316 | every job of every recovered run was written before by a caller, with that very value |
| DurabilityResults.EveryRecoveryHonours | json_serializer.go:172-215 | each NewJsonSerializer that succeeds returns a run that holds each job owed at an allowed value, and nothing else |
| DurabilityResults.AllowedExactly | json_serializer.go:448-474 | a value is allowed after a crash if and only if some event gave it and nothing later settled the job |
| DurabilityResults.DiskAtEveryMoment | json_serializer.go:583-685 | at most one log segment at every moment, never a sealed and an active one together; from the first successful construction on the main checkpoint is complete and all that is owed is recoverable |
| DurabilityResults.RotationOverwritesNothing | json_serializer.go:588-601 | when a rotation renames the active log there is no sealed segment it could replace |
| DurabilityResults.SegmentsAreNumberedOne | json_serializer.go:588-600 | the only rotation number ever used is 1, so the counter cannot overflow |
| DurabilityResults.RunKeeps | json_serializer.go:172-735 | the durability invariant holds at the end of every orderly run |
| DurabilityResults.FailedCheckpointCloses | json_serializer.go:583-618 | a checkpoint call that ends leaves the append file open exactly when it succeeded |
| DurabilityResults.NothingAcknowledgedWhileClosed | json_serializer.go:448-453 | over any stretch without a successful reopening nothing is acknowledged, nor can be |
| Durability.StepKeeps | json_serializer.go:172-735 | every call, failure and crash keeps the durability invariant |
| Durability.PublishKeeps | json_serializer.go:680-682 | the rename keeps everything owed recoverable although the log it leaves behind is replayed over the new checkpoint |
| Durability.RemoveKeeps | json_serializer.go:626-640 | removing the segment after publication loses nothing, in whatever order segments are listed |
| Durability.AppendKeeps | json_serializer.go:448-474 | an append, acknowledged, failed, or failed after the line was written, keeps what is owed, given that memory was updated first |
| Durability.LoadKeeps | json_serializer.go:273-316 | the run a recovery loads honours what is owed |
| DurabilityLimits.BlindRecoveryIsFullExactly | json_serializer.go:299-313 | a recovery whose lookups miss a segment is complete if and only if the checkpoint already covers the log |
| DurabilityLimits.BlindRecoveryLosesAcknowledged | json_serializer.go:309-313 | a run in which one os.Stat error loses an acknowledged job |
| DurabilityLimits.CheckpointKeepsExactlyMemory | json_serializer.go:602-610 | after a successful checkpoint what is recoverable is the run in memory, or nothing if the cleanup takes the checkpoint |
| DurabilityLimits.LoggedOnlyIsLost | json_serializer.go:448-474 | a run in which JobUpdate without UpdateJob is acknowledged and then lost by a checkpoint |
| DurabilityLimits.TakenCheckpointLosesAcknowledged | json_serializer.go:626-640 | a run without any fault in which the cleanup takes the checkpoint, and an acknowledged job is lost |
| DurabilityLimits.StaleSegmentIsHarmlessExactly | json_serializer.go:305-315 | a segment left beside a newer checkpoint does no harm if and only if the checkpoint covers its last lines |
| DurabilityLimits.StaleSegmentRevives | json_serializer.go:628-632 | a run in which two listings miss the sealed segment and a recovery brings back a value older than the one a successful checkpoint has published |
| DurabilityLimits.FailedCheckpointReached | json_serializer.go:596-599 | one failing rename leads to a serializer that is ready for calls and acknowledges nothing |
| DurabilityLimits.UnrecognisedStemLosesExactly | json_serializer.go:346-350 | with lookups that work, a recovery is complete if and only if the stem's names parse, or nothing sealed is left that the checkpoint does not cover |
| DurabilityLimits.FirstCheckpointCutShort | json_serializer.go:252-258 | one crash during the first checkpoint leaves a directory that no recovery can read |
| DurabilityLimits.StuckForever | json_serializer.go:232-271 | and no later sequence of recoveries that see the tmp file succeeds |
| DurabilityLimits.StuckOwesNothing | json_serializer.go:232-271 | such a directory never held anything acknowledged |
| Persisted.ReplayConcat | json_serializer.go:305-315 | replaying two logs one after the other is replaying their concatenation |
| Persisted.LastWriterWins | json_serializer.go:403-422 | per id, the last line decides and ids without lines are left alone |
| Persisted.ActiveLineDecides | json_serializer.go:299-313 | an id's last line in the active log decides over every segment and the checkpoint |
| Persisted.SegmentLineDecides | json_serializer.go:299-308 | without one there, the last line in the highest-numbered segment that has the id |
| Persisted.CheckpointDecides | json_serializer.go:273-297 | without any line, the checkpoint |
| Persisted.ReplayIdempotent | json_serializer.go:380-401 | replaying a log over its own result changes nothing |
| Persisted.CompactionKeeps | json_serializer.go:424-432 | publishing the recovered run, with or without its log, leaves what is recoverable unchanged |
| Persisted.ReplayAddsNothingExactly | json_serializer.go:380-422 | a log adds nothing if and only if the run already holds the last line of each id |
| Replaying.ReplayJSONLFile | json_serializer.go:380-401 | an unreadable file is an error, any other is replayed line by line |
| Replaying.ReplaySealed | json_serializer.go:299-310 | an error exactly when a listed segment is unreadable; otherwise the segments found by name are replayed, each once and by rotation number, in some order if the stem confuses the numbers, and none if the names do not parse |
| Replaying.LoadCheckpointAndReplay | json_serializer.go:273-316 | which errors are returned and which are taken for a missing log, exactly; the run returned is what the lookups that succeeded show |
| Replaying.SortedLists | json_serializer.go:318-360 | the files listed are those of all segments on disk, each once, and by rising number unless the stem holds the segment marker |
| Replaying.SeesAllExactly | json_serializer.go:299-315 | with one sealed segment at most, a reading sees every segment if and only if its lookups work and the names parse |
| Serializer.NewJsonSerializer | json_serializer.go:172-215 | exactly which of its calls must not fail for an object to exist; when none fails, it exists if and only if the checkpoint chosen is complete; the run is what the lookups show; it is written back and the log is empty, as far as listing and cleanup pattern go; the calls made are an orderly run of the step system when lookups and cleanup are reliable, and the run then honours all that is owed |
| Serializer.RecoverCheckpointAtomic | json_serializer.go:232-271 | a main checkpoint that is there is never touched; otherwise tmp, or else the backup, takes its place; an error exactly when looking for main fails or a rename that is needed does, and then nothing has changed |
| Serializer.SettledOn | json_serializer.go:232-271 | only checkpoint files are moved; without a fault tmp and backup are gone afterwards and main is the first of main, tmp and backup that was there |
| Serializer.RecoverAndLoad | json_serializer.go:195-205 | done exactly when no call that counts fails and the checkpoint is complete; the run read is what the lookups show of the files, and the calls made are an orderly run when they show all |
| Serializer.JsonSerializer.JobUpdate | json_serializer.go:448-474 | acknowledged if and only if the file is open and neither encoding nor sync fails; the line is at the end of the log if and only if it is open and could be encoded, and nothing else changes |
| Serializer.JsonSerializer.CheckpointSync | json_serializer.go:561-618 | exactly which calls must not fail for it to succeed; done: one complete checkpoint of the run in memory, unless the cleanup takes it, no segments but an empty log, append file open, and the callers are told; failed: append file closed, main checkpoint the new one if it was published and else the old one |
| Serializer.JsonSerializer.RotateAppend | json_serializer.go:588-601 | the active log becomes the segment with the next number, or nothing changes; an error exactly when the log is seen and cannot be renamed |
| Serializer.JsonSerializer.WriteCheckpointAtomic | json_serializer.go:656-685 | the main checkpoint is replaced as a whole, exactly when opening, encoding, syncing and renaming work, and else not at all; what each failure leaves in the tmp file |
| Serializer.JsonSerializer.RemoveAllAppendArtifacts | json_serializer.go:620-640 | done exactly when the listing fails or nothing listed refuses to go; then nothing that the pattern matches is left, whatever the order of removal, which for some checkpoint paths includes the checkpoint and its spare; a listing that fails removes nothing |
| Serializer.JsonSerializer.SnapshotRun | json_serializer.go:642-654 | the copy holds what the live run holds |
| Serializer.JsonSerializer.MaterializeCleanIncremental | json_serializer.go:424-432 | done exactly when publication and cleanup are: the run in memory has been published and everything the cleanup pattern matches is gone |
| Serializer.JsonSerializer.OpenAppend | json_serializer.go:434-443 | open exactly when the call does not fail; the log then exists with the lines it had |
| Serializer.JsonSerializer.Deserialize | json_serializer.go:687-697 | done exactly when no read fails and the checkpoint is complete: the live run is what the directory says; otherwise unchanged |
| Serializer.JsonSerializer.Close | json_serializer.go:699-735 | done exactly on a first call in which neither the checkpoint nor closing the file fails: everything is merged into the main checkpoint; the append file is closed in any case; a second call panics and changes nothing |
| Serializer.JsonSerializer.UpdateJob | run.go:60-65 | the job replaces the entry under its id |
| Serializer.ReachableIsCountable | json_serializer.go:172-215 | in every reachable state a construction may be tried |
| Serializer.CloseThenReopen | json_serializer.go:172-215 | a Close without error and a reopening return exactly the jobs that were in memory, or none where the cleanup takes the checkpoint; both succeed when no call fails |
| SegmentNames.RoundTripExactly | json_serializer.go:167-169 | parsing inverts naming for every uint64 if and only if stem + "." does not contain the marker |
| SegmentNames.ParsesTheStemInstead | json_serializer.go:362-378 | otherwise what is parsed is decided by the stem alone |
| SegmentNames.RecognisedExactly | json_serializer.go:346-350 | a segment file is taken for one if and only if the stem does not contain the marker, or a number follows it there |
| SegmentNames.SomeStemIsNotRecognised | json_serializer.go:362-378 | a stem whose segments are never taken for segments |
| SegmentNames.RemovesCheckpointExactly | json_serializer.go:626-632 | the cleanup pattern matches the checkpoint and its two spare files if and only if the checkpoint's extension starts with ".incremental" |
| SegmentNames.RemovesEverySegment | json_serializer.go:626-632 | the cleanup pattern matches the active log and every sealed segment of its stem |
| SegmentNames.SomeCheckpointIsTaken | json_serializer.go:154-165 | "run.incremental" is such a checkpoint, "run.json" is not |
| SegmentNames.SomeNames | json_serializer.go:152-169 | the names beside run.json |
| SegmentNames.ListSealedSegments | json_serializer.go:318-360 | the loop returns exactly the parseable names with their numbers, ascending, and the largest number, 0 if there is none |
| SegmentNames.ListsInRotationOrder | json_serializer.go:353-359 | all segments written under a well-formed stem are listed once, by strictly rising number |
| Decimal.ParsePadded | json_serializer.go:167-169 | reading what %06d printed gives the number back, also beyond six digits, and refuses a number beyond 64 bits |
| CrashRestart.RestartResumes | processor.go:329-338 | after a crash between two handleReturn calls and a recovery, Exec starts in a state where every invariant holds again, with all recovered jobs enqueued and none skipped |
| CrashRestart.RestartAfterCrash | processor.go:329-338 | the same from the crash on, through constructions that fail or are cut short, up to the one that succeeds |
| CrashRestart.FinishedReturnSurvives | processor.go:374-420 | the job and every kick of a finished handleReturn call are in every later recovery, a crash inside a later call included, exactly as memory had them unless that call was about to log the same id again |
| CrashRestart.CrashAnytime | processor.go:374-420 | a crash inside handleReturn leaves open only the records of this call that are not logged yet |
| HalfReturns.ParentKicksAgain | processor.go:374-396 | a session that keeps every promise and ends in a crash inside handleReturn, from which the parent is recovered at its old value beside a job it has already kicked, so that it will kick again |
| HalfReturns.HalfReturnExactly | json_serializer.go:273-316 | a recovery does that if and only if the checkpoint holds the kicked job and the log ends with an older value of the parent, or neither holds the new one |
| CrashRestart.CrashBetweenReturns | processor.go:374-396 | a recovery returns a part of the run in memory; only jobs added by the caller and never handled can be missing |
| CrashRestart.MoveKeeps | processor.go:329-420 | scheduling, logging and checkpoint steps in any order keep log and run in step |
| CrashRestart.MovesKeep | processor.go:329-420 | the same over whole sessions, and what is owed stays owed |
| CrashRestart.AddJobKeepsPrepared | run.go:67-94 | adding a job with a fresh id keeps a recovered run ready for Exec |
| CrashRestart.ExecStarts | processor.go:297-341 | Exec on such a run starts with the combined invariant |
| Runs.AddJobWithState | run.go:67-89 | the first random id that is free is used, no job is ever replaced, and the run stays ready for Exec |
| Runs.HexHasNoArrow | run.go:39-46 | a generated id never looks like the id of a kicked job |
| Runs.HexInjective | run.go:39-46 | different random numbers give different ids |
| Runs.SomeHex | run.go:39-46 | most significant digit first, leading zeros kept |
| Processing.Processor.HandleReturn | processor.go:374-396 | done if and only if the append file is open and no append fails; in any case the run has the job and, under each new id, a job with the kick's context and state and no errors, and no other change; slots, log, history and the status-update result, too |
| Processing.Processor.PersistAfterCompletion | processor.go:402-420 | one line for the job and then one for each kick with the kick's context and state, up to the first append that fails; done if and only if none does and the file is open |
| ReturnMoves.HandleReturnIsReady | processor.go:374-396 | whenever a result has been received in a reachable state, handleReturn meets no unknown state and no full channel |
| ReturnMoves.HandleReturnMoves | processor.go:374-420 | the effect of handleReturn is where the moves of the step system lead |
| ReturnMoves.HandleReceived | processor.go:343-356 | the call on the real objects succeeds exactly when no append fails, and then ends in exactly that world |
| ReturnMoves.ReachableIsRoomy | processor.go:335-338 | at the start of Exec, however far the enqueueing has come, the next job finds its state registered and room in its channel |
| ReturnMoves.EnqueueAll | processor.go:335-341 | enqueueing the jobs in any order is a run of the step system and never blocks |
| ReturnMoves.ExitCheck | processor.go:366-370 | the check after a drained batch, loops included, exits exactly when the step system does |
| StateStorage.Storage.constructor | processor.go:98-127 | one empty slot for each state, a repeated name replacing the earlier one |
| StateStorage.EmptySlotsAt | processor.go:108-122 | a name is registered if and only if some state has it; the last such state gives its concurrency; all counters start at zero |
| StateStorage.Storage.Validate | processor.go:137-165 | accepts exactly the well-configured sets of states, and otherwise names the first state that is not |
| StateStorage.TerminalTimeoutIsAccepted | processor.go:151-161 | a terminal state with a proper Timeout passes |
| StateStorage.Storage.ProcessJob | processor.go:186-198 | counts, runs or queues the job, case by case on the status counters, the queue and the channel, and changes no other state |
| StateStorage.Storage.RunNextWaitingJob | processor.go:213-228 | takes back a slot and, if a job waits, moves the longest-waiting one to the end of the channel; stated on the counters, the queue and the channel |
| StateStorage.Storage.Queue | processor.go:172-180 | the job waits behind all that wait already |
| StateStorage.Storage.Run | processor.go:167-170 | the job is counted as executing and goes to the end of its channel, which has room |
| StateStorage.Storage.AllJobsAreTerminal | processor.go:204-211 | true exactly when every job of the run is in a terminal state |
| StateStorage.Storage.HasExecutingJobs | processor.go:234-242 | true exactly when some state has an executing job |
| StateStorage.ArriveOk | processor.go:186-198 | an arriving job never finds a full channel, and the slot's bookkeeping stays right |
| StateStorage.RunNextOk | processor.go:213-228 | handing on a freed slot keeps the bookkeeping, and waiting jobs imply that all slots are taken |
| SchedulerSteps.StepKeeps | processor.go:329-490 | every action of worker or central goroutine keeps the scheduler's invariant |
| Kicks.KickedIdsAreNew | processor.go:380-388 | in every run from a start of Exec that keeps the contract, the id of each kicked job is new, for trees of any depth and width |
| SchedulerResults.RunKeeps | processor.go:329-396 | the invariant holds at the end of every run that keeps the Exec contract |
| SchedulerResults.ValidStatesStart | processor.go:137-165 | a set of states that validate accepts is one that Exec can start with |
| SchedulerResults.StartOk | processor.go:297-341 | and at the start of Exec |
| SchedulerResults.EachJobInOnePlace | processor.go:167-228 | a non-terminal job is in exactly one place, with the contents the run holds for it, and nothing else is in a place of its state |
| SchedulerResults.TerminalLaneIsEmpty | processor.go:186-190 | and no job of a terminal state is in any place |
| SchedulerResults.StatusAgrees | processor.go:244-250 | Completed + Executing + Waiting is the number of jobs in the state, Waiting the queue length, and Waiting > 0 implies Executing = Concurrency |
| SchedulerResults.CentralNeverBlocks | processor.go:167-170 | channel occupancy is at most Executing, and every send and lookup of the central goroutine goes through |
| SchedulerResults.WorkerCanMove | processor.go:343-356 | while the loop waits, some worker or result can move |
| SchedulerResults.NeverStuck | processor.go:343-371 | every reachable state before exit has an enabled step |
| SchedulerResults.ExitsExactlyWhenDone | processor.go:366-371 | after a drained batch the loop ends if and only if all jobs are terminal, if and only if nothing is queued, in a channel, in a worker or returned |
| SchedulerResults.ExitedIsFinal | processor.go:422-429 | after the exit no step is possible, so shutdown closes no channel still in use |
| Kicks.KicksAreNewExactly | processor.go:380-388 | in any run, whatever Exec functions return: the ids of a result's kicks are all new if and only if its job has not kicked before, which is if and only if no earlier return of it with kicks was handled and none of its kicks was there at the start |
| Kicks.SecondKickReplaces | processor.go:380-388 | a run in which one job kicks in two returns, and the first job it kicked is replaced by the second under the same id |
| SchedulerResults.ErrorsOnlyGrow | processor.go:519-538 | over a whole run the error list of each state only gains a suffix, one entry per handled failed attempt in that state |
| Termination.HandledAtMostWeight | processor.go:329-396 | if every result with its kicks weighs less than its job, handleReturn is called at most as often as the jobs weigh at the start |
| Endings.NoEndlessRun | processor.go:343-371 | under that condition no endless sequence of actions is a run, whatever the interleaving |
| Endings.MaximalExactlyWhenEnded | processor.go:343-371 | such a run cannot be extended if and only if it has ended with all jobs terminal, provided Exec can hand back something light for each job being executed |
| Endings.EverySchedulingEnds | processor.go:329-372 | every scheduler of such a run brings it to its end with all jobs terminal |
| Endings.SchedulerExists | processor.go:329-372 | and there is one whenever Exec can always hand back something light |
| Endings.EveryStartCanEnd | processor.go:297-372 | with a terminal state registered, some run from every start of Exec ends with all jobs terminal |
| Termination.StepPotential | processor.go:374-396 | no step raises the weight left, and placing a returned job lowers it |
| Fifo.NobodyOvertakes | processor.go:172-180 | jobs sent and jobs waiting together are the jobs that waited or came, in one unbroken order |
| Fifo.SentInOrder | processor.go:213-228 | the first k returns send exactly the k longest-waiting jobs, whatever arrives meanwhile |
| Fifo.RunSendsInOrder | processor.go:374-396 | from any reachable state of the processor, jobs re-entering their own state included: what workers take and what is left in the channel are what was there and then the longest-waiting jobs in order, one for each return |
| Fifo.OneSendPerReturn | processor.go:213-228 | while some of those that waited are left, every return sends one job and no arrival does |
| KickIds.DescendantInjective | processor.go:380-387 | an id decodes to one root and one path of kick indices |
| KickIds.ChildInjective | processor.go:408-414 | an id decodes to one parent and one index |
| KickIds.SomeIds | processor.go:380-387 | a->0, and a->0->12 |
| Jobs.ClassifyAppends | processor.go:519-538 | an attempt adds one entry under its state exactly when it failed or timed out |
| Jobs.ClassifyByCases | processor.go:519-538 | state, context and error lists of the job after a timeout, another error and a success, field by field; which text is added |
| Worker.CloneStateErrorsMap | job.go:5-18 | same contents, sharing neither map nor lists with the original |
| Worker.ClassifyResult | processor.go:519-564 | field by field: a timeout moves the job to the fail state, another error keeps the state Exec returned, each adding its text to the prior state's list alone; the limiter backs off on a rate-limit error, steps up on a success and is untouched otherwise |
| Worker.LimiterByCases | processor.go:540-564 | the rate never rises on a rate-limit error, never falls on a success, and nothing else changes the limiter |
| Worker.ExecuteOne | processor.go:471-490 | id kept, context and state as Exec returned them unless a timeout overrides the state, the error text added under the prior state; the result shares no list with the job; no published map or list is changed; the limiter as for ClassifyResult |
| Limiter.AIMDRateLimiter.constructor | ratelimit.go:130-161 | every field, the defaults for a zero interval and a zero debounce included; the rate within its bounds, the bucket following it |
| Limiter.AIMDRateLimiter.Backoff | ratelimit.go:170-189 | takes effect if and only if merging is off, or none was before, or the debounce time has passed: half the rate, at least the minimum, and the waiting of the additive steps is cleared; otherwise nothing changes |
| Limiter.AIMDRateLimiter.OnSuccess | ratelimit.go:192-216 | below the maximum and with the interval over, one more, at most the maximum; otherwise nothing changes |
| Limiter.NormalizedRates | ratelimit.go:253-270 | the range runs from the larger of 1e-9 and the smaller bound to the larger of that and the larger bound, the start is its point nearest to the one given, and proper input is left alone |
| Limiter.BurstForRate | ratelimit.go:272-281 | the least whole number of at least one that covers one second of the rate |
| LimiterBounds.StepsInTime | ratelimit.go:192-209 | over a time T with b effective backoffs at most b + 1 + T / interval additive steps, for any interleaving |
| LimiterBounds.BackoffsInTime | ratelimit.go:170-180 | with merging on, at most 1 + T / debounce effective backoffs |
| LimiterBounds.BackoffsAtLeast | ratelimit.go:170-180 | rate-limit errors at least the debounce time apart each count: there are at least as many effective backoffs, whatever happens in between |
| LimiterBounds.EveryBackoffCounts | ratelimit.go:170-180 | without merging every rate-limit error is an effective backoff |
| LimiterBounds.BackoffResets | ratelimit.go:178-209 | after an effective backoff the next success raises the rate at once whenever it is below the maximum |
| LimiterBounds.RateByCounts | ratelimit.go:170-216 | the rate lies between halving alone and adding alone |
| LimiterBounds.RateInTime | ratelimit.go:170-216 | with merging on, elapsed time alone bounds the rate on both sides |
| Convergence.Simulate | examples/aimd/gencharts/main.go:30-43 | the series holds the rates of the closed loop, step by step |
| Convergence.SimulateStep | examples/aimd/gencharts/main.go:30-43 | one step: a backoff above the ceiling and the clock stands still, otherwise a success one millisecond later |
| Convergence.LoopFollowsRate | examples/aimd/gencharts/main.go:30-43 | without merging the loop follows a plain recurrence on the rate |
| Convergence.FromAbove | ratelimit.go:182-187 | from above, at most n backoffs reach the band if the start is at most 2^n ceilings |
| Convergence.FromBelow | ratelimit.go:206-214 | from below, at most floor(ceiling / 2 - start) + 1 successes reach it |
| Convergence.NeverLeavesBand | examples/aimd/gencharts/main.go:30-43 | the band, once reached, is never left |
| Convergence.SimulationConverges | examples/aimd/gencharts/main.go:30-43 | the simulated rate is in the band at every step from that bound on |
| Convergence.SimulationFewErrors | examples/aimd/gencharts/main.go:30-43 | in the band n steps hold at most 1 + 2n / (ceiling + 1) rate-limit errors |
| Convergence.SimulationErrorsAreApart | examples/aimd/gencharts/main.go:30-43 | in the band more than (ceiling - 1) / 2 successes lie between two consecutive rate-limit errors |

## Left out

* JSON: a job or a run is taken to survive encoding and decoding; a job's context is its text. Run name and overall context.
* `LastUpdate`: replay stamps it anew, so jobs are compared without it. `Run.Init`, `Run.Equal`.
* A torn last line of a log: appending one line is one step that happens or does not.
* What fsync and directory entries do below the file API: the disk after a crash is the effect of a prefix of the calls.
* Glob metacharacters in stems, directory permissions, two serializers on one stem, other programs changing the directory.
* Lines longer than the replay limit and lines of another version or operation: a recovery that fails while reading is one failing call.
* Deserialize while a background checkpoint runs.
* The retry delay after failed checkpoints, the coalescing of checkpoint requests, the ticker.
* Cancellation of Exec, and with it what closing the channels does to workers still running.
* A restart after a crash inside a handleReturn call: the batch is not atomic. `CrashAnytime` says what is recovered, `HalfReturns` shows how a parent can come to kick twice; the restart theorems are for crashes between calls.
* Two uses of one Processor.
* Status listeners, logging, profiling labels, sorted state names, the no-op serializer, the second example, chart drawing.
* The inner token bucket of the limiter beyond its two settings; waiting for a token. Floating-point rounding: rates are reals.
* How Go prints a duration: a Timeout carries its text. Whether an error is a deadline or a rate-limit error: two flags of the error.
* The event loops of `process` and `StateExec.Run` are the step system, not methods; the code they call at each step is `EnqueueAll`, `ExecuteOne`, `HandleReturn` and `ExitCheck`.
* ReturnMoves.HandleReceived: no checkpoint step falls inside this one call; `CrashRestart.MoveKeeps` has them between any two of its moves.
* Serializer.JsonSerializer.WriteCheckpointAtomic: MkdirAll counts as part of opening the tmp file, and its Sync and Close as one call.
* Serializer.CloseThenReopen: asks for a rotation counter that one more rotation does not take past uint64 (`SegmentsAreNumberedOne`).
* Replaying.LoadCheckpointAndReplay: asks for rotation numbers within uint64, beyond which no file name has a number (`ReachableIsCountable`).
* ReturnMoves.EnqueueAll: no worker takes a job from its channel during this one call; `ReachableIsRoomy` has workers at any moment.
* Runs.AddJobWithState: the loop ends when the given random numbers run out, where the source would draw on.
* Worker.ExecuteOne: a context that shares memory with the one an Exec function returns.
