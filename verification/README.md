# Verified model of the NAS backend

This project models the parts of the NAS backend where state, interleaving or text editing is subtle, and
proves what they keep. Every path below is relative to the repository.

* **Background jobs** (`JobRows`, `JobEngine`, `JobTraces`, `JobWorker`, `JobRequests`, `JobOwnership`, `JobHistory`,
  `JobLog`, `JobScenes`, `JobTimeScenes`, `JobCache`, `JobSnapshots`, `JobTiming`, `JobTicks`). The jobs table is an object with one method
  for each SQL statement (`JobRows.JobTable`); the registry of running jobs is an object with its three critical sections
  (`JobEngine.StopRegistry`). The engine is a transition system over both: the one worker, any number of
  request handlers, heartbeats and stale sweeps, each with a program counter and the local copies it took
  earlier. One step is one SQL statement, one critical section, one `cancel()` call or one file removal.
  A crash drops everything in memory. The theorems hold for every sequence of steps. `JobWorker` and
  `JobRequests` hold the code of the worker, the handlers and the sweep as methods, statement by statement, with
  arbitrary steps of all other threads between any two statements. They reach only states of the transition
  system, so the theorems hold for that code, and each contract gives the exact list of effects of the
  thread's own steps and the answer, by what was read at which moment of the run. A transfer of the worker
  is the retry loop of `DriveUpload` on an object that holds what the remote stored.
* **Resumable uploads** (`Upload`, `UploadProofs`, `UploadAnswers`, `DriveUpload`, `EndToEnd`, `EndToEndScenes`). The tus server with
  failed and partial writes, overlong bodies, failed and torn metadata saves and crashes between its writes; the retry
  loop that sends a file to Google Drive; and the two protocols composed with the job engine.
* **Snapshot schedule** (`Schedule`). An abstract calendar: strictly increasing midnights, weekdays modulo 7.
* **The rclone configuration editor** (`IniFile`, `IniSections`, `IniRepeats`, `IniConfig`) against a map of sections.
* **Transcode caches** (`HlsCache`, `HlsStreams`, `HlsLateStarts`, `Mp4Cache`) against "present means complete".
* **Password hashing** (`Password`, `PasswordHash`) against section 5.2 of RFC 8018.
* **File operations and trash** (`FileNames`, `FileTree`, `FileOps`, `FileOpsProofs`, `FileAnswers`,
  `FileOpsScenes`, `Trash`, `TrashRuns`) over a finite map from component-sequence paths to nodes.
* **Device preparation** (`Devices`, `DevicePrepare`): what is unmounted, stopped and wiped, in which order.

`dafny verify dfyconfig.toml` checks everything. `Text` holds the string operations taken from the Go standard
library, `Wrappers` two shared datatypes.

## What the code does not keep

The model follows the code. These properties one might expect are false of it. What is proved instead is when
they hold, and a run, a request or an input for which they do not:

* Success is not final: `updateCancelled` has no status guard. A success ends exactly by the last statement of a
  cancel or delete handler (`JobHistory.SuccessIsLost`); `JobScenes.SuccessCancelled` is such a run.
* A resume can be undone by the wind-down of the earlier run (`JobHistory.ResumeIsLost`, `JobScenes.ResumePaused`).
* A crash between the insert of a cloud job and the removal of its upload record leaves a record at full
  length. Each such crash costs exactly one job more (`UploadProofs.JobsPerUpload`,
  `UploadProofs.CrashDuplicatesJob`). Without one in that upload's history, or while no PATCH or DELETE takes
  effect on the upload after it, a success has delivered the upload and the file is kept for its job
  (`EndToEnd.SuccessDeliversUpload`, `EndToEnd.UploadedFilePreserved`). Otherwise an empty PATCH after the first
  job has removed the file makes an empty file and a second job, which succeeds and delivers no byte
  (`EndToEndScenes.SecondJobDeliversNothing`), and a DELETE of the upload removes the file of a pending job
  (`EndToEndScenes.DeleteRemovesPendingFile`).
* A stream's directory may hold part of a stream: exactly when a crash cut off a job that touched it and no
  later job ended (`HlsStreams.IncompleteIff`). If that part has a manifest, no job is ever started for it again
  (`HlsLateStarts.CrashFreezesPart`).
* A finished stream may be lost: exactly when a job registered later ends badly for it, the first of which was
  started by a request that had looked for the manifest before it was there (`HlsLateStarts.StreamLostIff`,
  `HlsLateStarts.LateStartLosesStream`).
* A file name that is a single `/` passes the check (`FileNames.ValidNames`). With the storage root as target
  folder it makes the `rename` policy choose a place outside the storage (`FileOpsProofs.MoveRelocates`,
  `FileOpsScenes.EscapePlan`, `FileOpsScenes.FileLeavesRoot`), and the `overwrite` policy remove the whole storage
  (`TrashRuns.WipePlan`, `TrashRuns.OverwritingRootWipes`).
* An overwriting move onto a folder that holds the source loses both (`FileOpsProofs.OverwritingMove`,
  `FileOpsScenes.HolderPlan`, `FileOpsScenes.FileAndFolderLost`).
* Beyond (2^32 - 1) blocks RFC 8018 demands an error where the key derivation goes on; below one iteration it
  behaves as for one (`Password.Pbkdf2SHA256`).
* A settings request that reads the clock before an enqueue and writes after it can make an instant that enqueue
  has used, or passed over, due again: exactly when a selected instant lies between the two
  (`JobTicks.ConfigureTicks`, `JobTimeScenes.SlowSettings`).
* A job whose row is written every 299 s can be failed by a sweep that takes its cutoff late
  (`JobTimeScenes.LateCutoffFailsLiveJob`); with prompt cutoffs it never is (`JobTiming.LiveJobNeverSwept`).

`updateProgress` has no status guard either; that it never touches a success follows from ownership
(`JobHistory.EffectsOk`), not from the statement.

## Model

| member | source | states |
|---|---|---|
| JobRows.JobTable.Insert | internal/jobs/jobs.go:170-202 | a new row is pending, unstarted and unfinished; every other row stays |
| JobRows.JobTable.OldestPending | internal/jobs/jobs.go:525-530 | finds a pending row whose stored creation time, whole seconds, no other pending row's precedes, and nothing only if no row is pending |
| JobRows.JobTable.ClaimNextPending | internal/jobs/jobs.go:525-551 | claims exactly such a row, or changes nothing because none is pending; here nothing comes between its two statements, JobWorker.Server.ProcessOnePendingJob lets other threads in |
| JobRows.JobTable.UpdateProgress | internal/jobs/jobs.go:981-984 | the table after the statement, for any status |
| JobRows.JobTable.UpdateHeartbeat | internal/jobs/jobs.go:986-989 | refreshes a running row only |
| JobRows.JobTable.UpdatePaused | internal/jobs/jobs.go:991-998 | pauses a pending or running row only |
| JobRows.JobTable.UpdateResume | internal/jobs/jobs.go:1000-1007 | makes a paused row pending only |
| JobRows.JobTable.UpdateCancelled | internal/jobs/jobs.go:1009-1016 | cancels a row of any status |
| JobRows.JobTable.UpdateFailure | internal/jobs/jobs.go:1018-1025 | fails a running row only |
| JobRows.JobTable.UpdateSuccess | internal/jobs/jobs.go:1032-1040 | completes a running row only |
| JobRows.JobTable.DeleteJob | internal/jobs/jobs.go:1027-1030 | removes the row and no other |
| JobRows.JobTable.MarkStaleRunningJobs | internal/jobs/jobs.go:553-587 | fails exactly the running rows whose stored time is at least five minutes old, and hands back exactly their cache files |
| JobRows.StoredIsTruncated | internal/jobs/jobs.go:986-989 | the stored time lies less than a second before the write |
| JobRows.EarlierGoesFirst | internal/jobs/jobs.go:525-530 | a pending row is not passed over for one created a second or more later |
| JobRows.StatementsByStatus | internal/jobs/jobs.go:981-1040 | for each statement and each status: the status it leaves, by name |
| JobEngine.StopRegistry.RegisterRunningJob | internal/jobs/jobs.go:879-884 | registers the run and forgets an older reason |
| JobEngine.StopRegistry.UnregisterRunningJob | internal/jobs/jobs.go:885-893 | returns the last accepted reason and leaves no trace of the job |
| JobEngine.StopRegistry.RequestRunningJobStop | internal/jobs/jobs.go:895-907 | accepts exactly when the job is registered, and returns the cancel function to call |
| JobEngine.StepEffect | internal/jobs/jobs.go:378-697 | every step of every thread changes table and files by one statement or one file operation |
| JobLog.LogMeans | internal/jobs/jobs.go:378-697 | in any step, a job is recorded as sent, failed, swept or to be stopped exactly if the step is a transfer that returned, a failure the worker met, a sweep of its running row, or a cancel or delete that goes ahead |
| JobLog.FilesLogged | internal/jobs/jobs.go:170-202 | a job's file is recorded by its submission; a file is recorded as shared exactly when somebody else changes it or a second job is created for it |
| JobWorker.Server.Yield | internal/jobs/jobs.go:153-168 | whatever other threads do, the worker stays where it is, takes no step of its own, and the state stays one of the transition system |
| JobWorker.Server.Take | internal/jobs/jobs.go:507-697 | a statement of the worker is the transition system's step at that place; a transfer is recorded as sent only when the remote holds its bytes |
| JobWorker.Server.Call | internal/jobs/jobs.go:616-622 | a transfer returns without error exactly if an attempt goes through, and then the remote has stored the opened file's bytes once; on an error it has stored them at most once |
| JobWorker.Server.RunCall | internal/jobs/jobs.go:616-622 | progress, registration and the call are the only things the worker does up to the return, in that order |
| JobWorker.Server.RunWork | internal/jobs/jobs.go:616-625 | then it unregisters and reads the status; the reason is the registry's at the one moment, the status the row's at the later one |
| JobWorker.Server.RunCloudSyncJob | internal/jobs/jobs.go:589-670 | exactly the source's effects on every path, in order, decided by the file's presence at the open, the outcome of the call, and the stop reason and the status of their moments of the run; no error means the remote stored one file |
| JobWorker.SyncEndIff | internal/jobs/jobs.go:626-670 | by outcome, stop reason and status: exactly when the file goes, and exactly which statement ends the row |
| JobWorker.Server.SendOpened | internal/jobs/jobs.go:616-670 | the same from the opened file on |
| JobWorker.Server.AfterInterrupt | internal/jobs/jobs.go:626-641 | exactly the effects of the switch on the stop reason |
| JobWorker.Server.RunAutoSnapshotJob | internal/jobs/jobs.go:767-852 | the same for a snapshot job: run exactly if the pool, when it is read, has automatic snapshots enabled and a schedule that is not blank, its next run rewritten from the moment of completion; otherwise its steps are the read and the failure of its row |
| JobWorker.Server.VisitPool | internal/jobs/jobs.go:679-703 | a listed pool is skipped exactly if it is not due or has an active job at the check; else its next run moves to the first selected instant after now and one job is inserted |
| JobWorker.Server.EnqueueDueAutoSnapshotJobs | internal/jobs/jobs.go:672-704 | lists every pool of one moment once, reads the clock at a later one, and visits each pool once, in order, with other threads between all statements |
| JobWorker.Server.ProcessOnePendingJob | internal/jobs/jobs.go:507-551 | at the SELECT no row is pending, or one of the oldest is picked; that one is claimed and run to its end as its job's reads at their moments decide, or lost because it was pending no longer at the UPDATE; nothing else is done |
| JobWorker.Server.StartWorker | internal/jobs/jobs.go:153-168 | every round is one enqueue loop and one such call, with exactly their effects and decided by their reads; in a process that never crashed no row is running between two rounds, and whatever is recorded as sent is stored at the remote, whatever requests and sweeps did |
| JobTraces.ThreadWaits | internal/jobs/jobs.go:378-505 | other threads do not move the worker, a handler or a sweep |
| JobRequests.RequestServer.RequestRunningJobStop | internal/jobs/jobs.go:895-907 | accepted exactly if the job is registered at the critical section; then, apart from it, that run is cancelled |
| JobRequests.RequestServer.ReadRow | internal/jobs/jobs.go:378-384 | the row at one moment of the run, and the course the status sets |
| JobRequests.RequestServer.HandlePause | internal/jobs/jobs.go:402-437 | by the status read: not found without a row; pending or running is paused last, after the stop where it runs; paused changes nothing; any other is a conflict with no effect. Where it does not refuse, the answer is the row read again at the end, or not found if it is gone by then |
| JobRequests.RequestServer.HandleResume | internal/jobs/jobs.go:439-466 | a paused row is resumed exactly if its cache file is there at a later moment; any other status, or no file, is a conflict with no effect; the answer as for a pause |
| JobRequests.RequestServer.HandleCancel | internal/jobs/jobs.go:468-505 | success and failed are a conflict with no effect; a cancelled row stays; any other is stopped where it runs, its file removed and the row cancelled, in that order; the answer as for a pause |
| JobRequests.RequestServer.HandleDelete | internal/jobs/jobs.go:378-400 | fine exactly when a row was read; an accepted stop leaves the file to the worker, any other delete removes it first |
| JobRequests.RequestServer.ReadBack | internal/jobs/jobs.go:430-436 | the answer after the work: the row of that moment, or not found |
| JobRequests.CourseIs | internal/jobs/jobs.go:378-505 | for every status, by name, the steps each request has before it |
| JobRequests.RefusalOnlyReads | internal/jobs/jobs.go:378-505 | an answer that refuses a request means its own steps changed nothing |
| JobRequests.RequestServer.FailStaleJob | internal/jobs/jobs.go:566-584 | the row is failed, and its file removed, exactly if it is running at the UPDATE |
| JobRequests.RequestServer.FindStale | internal/jobs/jobs.go:553-565 | the stale rows: those running at the SELECT and five minutes old at the later cutoff |
| JobRequests.RequestServer.MarkStaleRunningJobs | internal/jobs/jobs.go:553-587 | those rows are visited once each, all of them, and each is failed with its file removed exactly if it is still running at its visit; nothing else is done |
| JobOwnership.HoldStep | internal/jobs/jobs.go:507-697 | any step keeps: a running row is held by the worker or left by a crash |
| JobOwnership.RegStep | internal/jobs/jobs.go:879-907 | any step keeps: the registry holds the current run with its last accepted reason, or nothing |
| JobOwnership.AlwaysOwned | internal/jobs/jobs.go:507-907 | both hold in every reachable state |
| JobOwnership.Ownership | internal/jobs/jobs.go:507-670 | without crashes, every running row is the job the worker holds, the registry holds at most that job, and reasons exist only for registered jobs |
| JobOwnership.OwnershipAfterCrash | internal/jobs/jobs.go:525-587 | with crashes, a running row nobody holds was running when a crash happened |
| JobOwnership.StopReachesUnregister | internal/jobs/jobs.go:879-907 | a run leaves the registry with exactly the last reason accepted for it; an interrupted run always has one |
| JobHistory.EffectsOk | internal/jobs/jobs.go:378-697 | no step reuses an id, inserts anything but a good pending row, or reports progress or success for a row the worker does not hold |
| JobHistory.HistoryStep | internal/jobs/jobs.go:981-1040 | every step moves each row along the allowed status moves and never changes its task |
| JobHistory.HistoryRun | internal/jobs/jobs.go:981-1040 | so does every run |
| JobHistory.RowFacts | internal/jobs/jobs.go:981-1040 | finished_at is set iff success, failed or cancelled; error_message iff failed; started_at for running, success and failed; success is at 100 |
| JobHistory.TerminalStates | internal/jobs/jobs.go:991-1040 | cancelled is absorbing, success and failed can only become cancelled or be deleted, deleted ids never return |
| JobHistory.SuccessIsLost | internal/jobs/jobs.go:1009-1030 | a success ends exactly by the last statement of a cancel or delete handler |
| JobHistory.ResumeIsLost | internal/jobs/jobs.go:991-998 | a pending row becomes paused exactly by a pause handler's last statement or by the wind-down of the earlier run |
| JobScenes.QuietRun | internal/jobs/jobs.go:507-670 | undisturbed, a picked pending job sends its file as it is, removes it and is recorded a success |
| JobScenes.SuccessCancelled | internal/jobs/jobs.go:468-505 | a run from the start in which a cancel that read a running row takes the recorded success away |
| JobScenes.ResumePaused | internal/jobs/jobs.go:439-466 | a run from the start in which the wind-down of a paused run undoes an accepted resume |
| JobCache.CacheStep | internal/jobs/jobs.go:378-670 | any step keeps the invariant on cache files, tasks, local copies and successes |
| JobCache.CacheRun | internal/jobs/jobs.go:378-670 | it holds in every reachable state |
| JobCache.CacheFilePreserved | internal/jobs/jobs.go:589-670 | a cloud job's file keeps its bytes while it exists and is gone only after a successful transfer, a failure, or a cancel or delete request, as long as no second job was created for it and nothing outside the engine changed it |
| JobCache.SuccessMeansDelivered | internal/jobs/jobs.go:657-670 | a cloud job recorded a success has sent a file; under the same condition exactly its own, which is gone |
| JobSnapshots.ActiveAfter | internal/jobs/jobs.go:747-753 | a step adds at most one active snapshot job, only by an insert or an effective resume |
| JobSnapshots.WorkerInserts | internal/jobs/jobs.go:672-704 | between the check and the insert, active jobs never exceed the resumes since the check |
| JobSnapshots.SnapRun | internal/jobs/jobs.go:672-753 | the bound and its gap version hold in every reachable state |
| JobSnapshots.ActiveSnapshotBound | internal/jobs/jobs.go:672-753 | for every pool and run, pending or running snapshot jobs never exceed one plus the effective resumes |
| JobSnapshots.CaptureWasOn | internal/jobs/jobs.go:777-802 | over every run: a snapshot under way was entered from a claimed job whose pool then had automatic snapshots enabled and a schedule that is not blank, and the worker has been at it since |
| JobTiming.CutoffSpares | internal/jobs/jobs.go:560-565 | a row written within d, listed at most g before the cutoff, is not stale when d, g and a second fit into five minutes |
| JobTiming.LiveJobNeverSwept | internal/jobs/jobs.go:553-587 | a job whose row is written often enough is never failed by a sweep, in any run |
| JobTimeScenes.LateCutoffFailsLiveJob | internal/jobs/jobs.go:553-587 | a run from the start in which the row is never older than 299 s and a sweep with a late cutoff fails the job while its transfer goes on |
| JobTiming.StaleRowIsFailed | internal/jobs/jobs.go:553-587 | a running row at least five minutes old is failed by any sweep that starts then, unless it stopped running before |
| JobTicks.NextIsLater | internal/jobs/jobs.go:755-765 | both ways to compute the next run give a selected instant after now |
| JobTicks.TicksRun | internal/jobs/jobs.go:672-704 | the next-run field stays ahead of every enqueue in every reachable state, also through changes of the pool's settings that leave its schedule or disarm the pool for a while |
| JobTicks.ConfigureTicks | internal/storagepool/update.go:45-58 | a settings request that writes the initial next run of the moment it read the clock keeps that invariant iff no selected instant lies between the reading and the last enqueue, or the listing an enqueue under way started from, or it sets no next run |
| JobTicks.InitialIsBeyond | internal/storagepool/create.go:159-165 | the initial next run of one moment lies beyond another iff no selected instant lies between |
| JobTimeScenes.SlowSettings | internal/storagepool/update.go:54-58 | for every calendar, schedule and start, a run from the start in which a request that read the clock before an enqueue and wrote after it makes the next enqueue use the same instant |
| JobTicks.EnqueuesConsumeTicks | internal/jobs/jobs.go:672-704 | two successive enqueues of a pool are separated by the selected instant the later one was due at |
| JobTicks.EnqueuesInject | internal/jobs/jobs.go:823-829 | later enqueues use strictly later instants, although job success and changed settings rewrite the next run |
| Schedule.WeekdayFromDigit | internal/storagepool/create.go:226-245 | a digit names the weekday of its number, seven being Sunday |
| Schedule.Weekly | internal/storagepool/create.go:197-224 | accepts exactly the non-empty strings of digits 1 to 7, and keeps exactly their digits |
| Schedule.NormalizeWeeklySchedule | internal/storagepool/create.go:197-224 | the nested loops compute that: sorted, without repeats, rejecting everything else |
| Schedule.NormalizeIdempotent | internal/storagepool/create.go:197-224 | normalising twice changes nothing |
| Schedule.FirstAllowed | internal/storagepool/create.go:167-182 | the search loop computes the specified first allowed midnight |
| Schedule.LegacyNext | internal/storagepool/create.go:183-195 | the legacy words and the fallback |
| Schedule.NextAutoSnapshotTime | internal/storagepool/create.go:167-195 | computes the specified next time for every string; what that is, the next four rows say |
| Schedule.WeekdaySchedule | internal/storagepool/create.go:169-182 | a trimmed string of digits 1 to 7: the first midnight after the argument of a day whose weekday a digit names, seven being Sunday |
| Schedule.HourlySchedule | internal/storagepool/create.go:184-185 | "hourly": the next whole hour, at most one hour ahead |
| Schedule.MonthlySchedule | internal/storagepool/create.go:188-189 | "monthly": the first midnight after the argument that begins a month |
| Schedule.OtherSchedule | internal/storagepool/create.go:186-193 | any other text: the first midnight after the argument |
| Schedule.NextTimeIsLeast | internal/storagepool/create.go:167-195 | that is the least instant the schedule selects after its argument |
| Schedule.PlanNextIsLeast | internal/storagepool/create.go:167-195 | for weekdays, hourly, daily and monthly plans alike |
| Schedule.NextWeekday | internal/storagepool/create.go:172-182 | seven days ahead always suffice for a weekly schedule |
| Schedule.NextAutoSnapshotAfter | internal/jobs/jobs.go:755-765 | stepping through missed runs ends and gives exactly the next selected instant after now |
| Schedule.InitialRunIsNext | internal/storagepool/create.go:159-165 | an enabled pool with a schedule starts at the least selected instant after now, any other has none |
| Upload.UploadServer.HandleTusCreate | internal/files/uploads.go:74-146 | rejects a missing or negative length and changes nothing; else an empty temp file and a record at offset 0, or what a failed save leaves |
| Upload.UploadServer.HandleTusHead | internal/files/uploads.go:148-167 | reports the stored offset, or 404 |
| Upload.UploadServer.FinalizeTusUpload | internal/files/uploads.go:510-573 | queues a cloud job, or moves the file to a target that is free, or fails |
| Upload.UploadServer.HandleTusPatch | internal/files/uploads.go:169-275 | the whole store and the answer after a PATCH, for every failure and crash point |
| Upload.UploadServer.HandleTusDelete | internal/files/uploads.go:277-304 | removes record and temp file, or answers 404 or 500 |
| UploadAnswers.PatchAnswers | internal/files/uploads.go:169-275 | 204 means the request started at the stored offset and the answer is that offset plus the body, stored unless the upload is finished; 409 carries the stored offset and changes nothing; 404 means no readable record; 400 and 500 name and advance no offset |
| UploadAnswers.GoodPatchIsTaken | internal/files/uploads.go:169-275 | a body that fits, sent to the stored offset, is answered 204 with the offset after it unless the environment fails |
| UploadAnswers.AnsweredOffsetIsTaken | internal/files/uploads.go:189-194 | a PATCH that starts where the last 204 said is not refused for its offset |
| UploadAnswers.AnswersCountBytes | internal/files/uploads.go:169-275 | over every run the offset a 204 names is the number of bytes accepted so far |
| UploadAnswers.CreateAnswers | internal/files/uploads.go:74-146 | a create leaves the announced length and kind at offset 0 with an empty file, or no new readable record, and no other upload changed |
| UploadAnswers.DeleteAnswers | internal/files/uploads.go:277-304 | 204 exactly with a readable record, then neither record nor file is left; any other answer changes nothing |
| UploadProofs.WriteKeepsPrefix | internal/files/uploads.go:207-224 | writing at an offset within the file keeps what precedes it and puts the data there |
| UploadProofs.PatchLeavesOthers | internal/files/uploads.go:169-275 | a PATCH leaves every other upload's record and temp file alone |
| UploadProofs.PrefixRun | internal/files/uploads.go:169-275 | the prefix invariant holds in every reachable state |
| UploadProofs.UploadPrefix | internal/files/uploads.go:169-249 | 0 <= Offset <= UploadLength, and the temp file starts with the accepted bodies in order, through every failure and crash, as long as it has not been removed under its record, which takes a crash between delivery and record removal |
| UploadProofs.FinalisesOnce | internal/files/uploads.go:251-268 | at the declared length the record goes on both outcomes; a cloud upload has one more job with the uploaded bytes or no job and no file; existing targets never change |
| UploadProofs.DoneIsDone | internal/files/uploads.go:169-178 | afterwards every request answers 404 and nothing touches the file |
| UploadProofs.JobsPerUpload | internal/files/uploads.go:251-268 | a cloud upload has exactly one job for each crash between job insert and record removal, and one more if it was delivered without one, after which it has no record; a local upload has none |
| UploadProofs.CrashDuplicatesJob | internal/files/uploads.go:251-268 | a run in which such a crash leads to two jobs |
| DriveUpload.Remote.Send | internal/storage/google_drive.go:827-898 | an accepted request stores what is left of the source, and so does one whose answer is lost; a refused one stores nothing |
| DriveUpload.UploadReader | internal/storage/google_drive.go:609-685 | no error exactly if an attempt goes through, and then exactly one file was stored, the whole source re-read from its start; an error leaves nothing, or that one file when an answer was lost |
| DriveUpload.ThroughIff | internal/storage/google_drive.go:609-685 | an upload goes through exactly if the first attempt meets good answers only, or its first bad one is an expired token that is refreshed and the second attempt, for a source that seeks, meets good answers only |
| EndToEnd.SystemRun | internal/files/uploads.go:226-268 | the joint invariant of uploads, jobs and their one disk holds in every reachable state |
| EndToEnd.SuccessDeliversUpload | internal/jobs/jobs.go:589-670 | in every run, if no crash hit this upload between job insert and record removal, or no PATCH or DELETE took effect on it after: a success of its job delivered a file whose first UploadLength bytes are the accepted bodies in order, and exactly those if no body overran |
| EndToEnd.UploadedFilePreserved | internal/jobs/jobs.go:589-670 | under the same condition the file stays as uploaded for its job, and is gone only after a successful transfer, a failure, or a cancel or delete request |
| EndToEndScenes.SecondJobDeliversNothing | internal/files/uploads.go:199-268 | a run with a crash in that window whose second job is recorded a success and delivered no byte |
| EndToEndScenes.DeleteRemovesPendingFile | internal/files/uploads.go:277-304 | a run with such a crash in which a tus DELETE removes the file of a pending job nobody stopped |
| IniFile.UpsertINISection | internal/storage/google_drive.go:1147-1175 | the text the editor produces |
| IniFile.RemoveINISection | internal/storage/google_drive.go:1177-1206 | the text the editor produces |
| IniFile.FindSection | internal/storage/google_drive.go:1152-1166 | the scanning loop of both editors |
| IniSections.ScanFinds | internal/storage/google_drive.go:1154-1166 | the scan finds a section of that name, spans no other header, and misses none |
| IniSections.UpsertRefinesPut | internal/storage/google_drive.go:1147-1175 | an upsert replaces the section's lines where they stand or appends them; all other lines stay, up to blank lines and outer white space |
| IniSections.RemoveRefinesCut | internal/storage/google_drive.go:1177-1206 | a removal takes out the section's lines and no other |
| IniSections.EditedLines | internal/storage/google_drive.go:1147-1206 | on the lines: what is replaced or removed runs from the name in brackets to the next line that begins and ends with a bracket |
| IniSections.PutSections | internal/storage/google_drive.go:1147-1175 | on sections that is a map update |
| IniSections.CutSections | internal/storage/google_drive.go:1177-1206 | on sections that is a map removal |
| IniSections.EditRefines | internal/storage/google_drive.go:1104-1145 | one edit refines its map operation, keeps headers unique and the lines before the first section |
| IniSections.EditsRefineMap | internal/storage/google_drive.go:1147-1206 | any sequence of edits refines the same sequence on the map |
| IniSections.EditsFromEmpty | internal/storage/google_drive.go:1147-1206 | from an empty file, the file holds exactly the sections of the map |
| IniSections.RemoveUndoesUpsert | internal/storage/google_drive.go:1147-1206 | removing a section just added gives the file's lines back |
| IniSections.UpsertTwice | internal/storage/google_drive.go:1147-1175 | repeating an upsert changes no line |
| IniRepeats.UpsertAgain | internal/storage/google_drive.go:1147-1175 | where the section stands already, repeating an upsert of a trimmed replacement leaves the text to the letter |
| IniRepeats.UpsertSettles | internal/storage/google_drive.go:1147-1175 | so the second of two equal upserts settles any text with unique headers |
| IniConfig.SectionTextIsSection | internal/storage/google_drive.go:1079-1104 | the text written is one section iff no line of its fields looks like a header |
| IniConfig.ConfigIsSection | internal/storage/google_drive.go:1079-1104 | so it is whenever the name and values break no line |
| IniConfig.FieldsIff | internal/storage/google_drive.go:1081-1098 | exactly which key and value lines the section has, by provider, folder and which values are set |
| HlsCache.HlsServer.StartHLSJob | internal/files/transcode.go:98-111 | returns the registered job, registering a new one only if there was none |
| HlsCache.HlsServer.LookForManifest | internal/files/transcode.go:248-250 | the request goes on to start a job exactly if there is no manifest |
| HlsCache.HlsServer.HandleHLSStop | internal/files/transcode.go:295-309 | cancels the registered job and neither removes nor deregisters |
| HlsCache.HlsServer.Transcoder | internal/files/transcode.go:136-180 | the external transcoder's writes are write steps of the job |
| HlsCache.HlsServer.RunDeferred | internal/files/transcode.go:114-120 | the deferred calls run as remove, deregister, close |
| HlsCache.HlsServer.RunJob | internal/files/transcode.go:113-193 | the goroutine alone is that sequence of steps |
| HlsStreams.OneJobPerDirectory | internal/files/transcode.go:98-111 | in every run, crashes included, at most one job of a directory is at work, the registered one |
| HlsStreams.OnlyOwnerTouches | internal/files/transcode.go:113-120 | in every run whatever changes a directory is its registered job's step, and no later job for it exists then |
| HlsStreams.DirectoriesAreSerial | internal/files/transcode.go:98-195 | over every run, crashes included, a directory holds what its jobs would have left had they run one after another in the order they were registered |
| HlsStreams.FileIsLastWriters | internal/files/transcode.go:98-195 | a file is there, by a job, iff that job wrote it and neither it nor a later job of the directory removed or replaced it |
| HlsStreams.CompleteIff | internal/files/transcode.go:98-195 | a directory holds a complete stream iff a job of it completed and no later one touched a file of that job |
| HlsStreams.IncompleteIff | internal/files/transcode.go:111-118 | with crashes, a non-empty directory without a job is no complete stream iff a job cut off by a crash touched the stream it found, or any file where it found none, and no later job of the directory has ended |
| HlsStreams.LeftoversAreComplete | internal/files/transcode.go:113-193 | without crashes a non-empty directory without a job holds a complete stream and only files of jobs that ended well |
| HlsLateStarts.StreamStays | internal/files/transcode.go:248-253 | a directory with a manifest and no job stays as it is over every continuation while no request that found no manifest is left to start one |
| HlsLateStarts.PendingLooked | internal/files/transcode.go:249-251 | every request about to start a job has looked at some step of the run and found no manifest |
| HlsLateStarts.StreamLostIff | internal/files/transcode.go:98-118 | a finished stream is lost iff a job registered since ended badly for it; the first such job was started by a request that had looked before the stream was there |
| HlsLateStarts.LateStartLosesStream | internal/files/transcode.go:248-253 | a run from the empty cache in which such a late start removes a finished stream |
| HlsLateStarts.CrashFreezesPart | internal/files/transcode.go:248-253 | a run from the empty cache whose crash leaves a manifest: over every continuation no job is started for that directory again, and the part stays |
| Mp4Cache.Mp4Server.MakeDirectory | internal/files/transcode.go:56-59 | the directory step |
| Mp4Cache.Mp4Server.RunTranscoder | internal/files/transcode.go:61-91 | the temporary file is overwritten, and complete iff the transcoder ended well |
| Mp4Cache.Mp4Server.MoveIntoPlace | internal/files/transcode.go:95 | the cached file is the temporary file iff the rename works |
| Mp4Cache.Mp4Server.TranscodeToMP4 | internal/files/transcode.go:56-96 | a complete file in the cache, or the cache as before; in the steps' order |
| Mp4Cache.StepKeeps | internal/files/transcode.go:311-353 | every step keeps the lock and file invariant and never replaces a cached file |
| Mp4Cache.PresentMeansComplete | internal/files/transcode.go:338-352 | in every interleaving with crashes, a cached file is complete and whoever is served has one |
| Mp4Cache.CachedOnce | internal/files/transcode.go:338-349 | once cached, a file is never replaced |
| Mp4Cache.OneTranscoder | internal/files/transcode.go:51-54 | at most one request transcodes to a cache path |
| Password.XorInto | internal/users/password.go:74-76 | the in-place loop is the exclusive or |
| Password.DeriveBlock | internal/users/password.go:65-77 | a block is the exclusive or of the iterates, F of RFC 8018 |
| Password.Pbkdf2SHA256 | internal/users/password.go:59-80 | equals the derived key of RFC 8018 section 5.2 wherever that defines one |
| Password.LastBlock | internal/users/password.go:61-79 | cutting the blocks at the key length is the standard's last partial block |
| Password.Int4Value | internal/users/password.go:67 | the four octets written are the block number |
| Password.ShorterIsPrefix | internal/users/password.go:59-80 | a shorter key is the start of a longer one |
| PasswordHash.HashPassword | internal/users/password.go:21-36 | refuses a blank password or a failed random source; else the text of scheme, 120000, salt and the 32-byte key derived with that count |
| PasswordHash.VerifyPassword | internal/users/password.go:38-57 | accepts exactly what the specification accepts |
| PasswordHash.AtoiItoa | internal/users/password.go:43-46 | the iteration count survives being written and read |
| PasswordHash.StoredParts | internal/users/password.go:30-42 | the stored form splits back into its four parts |
| PasswordHash.StoredAccepts | internal/users/password.go:21-57 | a stored password accepts exactly the passwords that derive the same key, its own included |
| PasswordHash.AcceptedForm | internal/users/password.go:38-57 | the check accepts exactly the texts of four parts whose key is what password, salt and count give |
| FileNames.WithinIsPrefix | internal/files/paths.go:60-68 | the check on the relative path's text decides whether the root is a prefix |
| FileNames.ValidNames | internal/files/operations.go:264-266 | a name passes iff it is one component or a single separator |
| FileNames.JoinComponent | internal/files/operations.go:32 | joining a component appends it |
| FileNames.JoinSlash | internal/files/operations.go:117 | joining a bare separator gives the folder itself |
| FileTree.RelocationIsBijection | internal/files/operations.go:357-365 | a move to a free place renames paths one to one and keeps every node |
| FileTree.RelocateBack | internal/files/trash.go:160-164 | moving back restores the tree |
| FileTree.FreeMove | internal/files/operations.go:357-365 | such a rename works and keeps the tree well formed |
| FileTree.MadeAllFacts | internal/files/trash.go:183-185 | making folders adds folders on the way and changes nothing else |
| FileTree.CopyDoneFacts | internal/files/operations.go:367-370 | a copy to a free place, complete or stopped on its way, leaves all that was there and adds only at the places and of the kinds the whole copy has |
| FileOps.NextAvailablePath | internal/files/operations.go:333-355 | the loop returns the first free alternative, or none after 10000 tries |
| FileOps.FirstFreeIsFree | internal/files/operations.go:346-354 | what it returns is free and every earlier alternative is taken |
| FileOps.FileHandler.ResolveConflictTarget | internal/files/operations.go:309-331 | the target and whether it is to be overwritten |
| FileOps.FileHandler.Prepare | internal/files/operations.go:91-125 | all checks of move and copy in their order |
| FileOps.FileHandler.HandleMove | internal/files/operations.go:91-137 | tree and answer after a move |
| FileOps.FileHandler.HandleCopy | internal/files/operations.go:139-185 | tree and answer after a copy, whatever part of it a failing command leaves |
| FileOps.FileHandler.HandleRename | internal/files/operations.go:17-42 | tree and answer after a rename |
| FileOps.PlanTargetIsFree | internal/files/operations.go:119-136 | the target is free when the move or copy happens, so nothing is merged into a folder |
| FileOpsProofs.PlanIsGood | internal/files/operations.go:187-331 | source and target are in place: inside the storage, out of the trash, target not below source |
| FileOpsProofs.CandidateShape | internal/files/operations.go:338-347 | every alternative is one new component beside the target, never the trash |
| FileOpsProofs.MoveRelocates | internal/files/operations.go:91-137 | under the error and rename policies a move relocates one to one, keeps the tree well formed, overwrites nothing, and stays inside the root iff it does not rename the root itself |
| FileOpsProofs.OverwritingMove | internal/files/operations.go:126-136 | an overwriting move keeps the source iff the target did not hold it |
| FileOpsScenes.EscapePlan | internal/files/operations.go:91-125 | naming the root under the rename policy passes every check and picks a place outside the root, as long as an alternative name is free |
| FileOpsScenes.FileLeavesRoot | internal/files/operations.go:309-347 | one storage and one request that do |
| FileOpsScenes.HolderPlan | internal/files/operations.go:91-125 | overwriting a folder above the source passes every check |
| FileOpsScenes.HolderMoveLosesBoth | internal/files/operations.go:126-136 | and then neither the source nor the folder is left |
| FileOpsScenes.FileAndFolderLost | internal/files/operations.go:126-136 | one storage and one request that do |
| FileOpsProofs.CopyAdds | internal/files/operations.go:139-185 | for every policy: what is outside the cleared target stays; a success adds exactly the source's subtree, a failure some part of it, below the target only, and neither breaks the tree |
| FileOpsProofs.RenameRelocates | internal/files/operations.go:17-42 | a rename relocates one to one to a free name in the same folder |
| FileAnswers.PlanAnswers | internal/files/operations.go:91-125 | for every request, which refusal it gets or which target: by prefixes of paths, nodes of the tree, the name and the policy word |
| FileAnswers.CandidateName | internal/files/operations.go:338-347 | the number goes before the last dot of a file name, and behind a folder name or a name without a dot |
| FileAnswers.FirstFreeIff | internal/files/operations.go:346-354 | an alternative is found iff one of the ten thousand is free, and then it is the first |
| FileAnswers.RenameAnswers | internal/files/operations.go:17-42 | which refusal a rename gets, or which target |
| Trash.TrashHandler.EnsureDir | internal/files/trash.go:183-185 | makes missing folders from the top, stops at a file |
| Trash.TrashHandler.HandleDelete | internal/files/trash.go:81-177 | tree, records and answer after a delete, with its rollback |
| Trash.RelJoins | internal/files/trash.go:191-192 | a recorded relative path joined with the root leads back |
| Trash.DeleteIsAllOrNothing | internal/files/trash.go:81-177 | a delete trashes and records the whole subtree, or restores tree and records, also when the record violates uniqueness |
| FileAnswers.DeleteAnswers | internal/files/trash.go:81-177 | which refusal a delete gets, or which recorded path: the day, the identifier and the name |
| TrashRuns.MoveKeeps | internal/files/operations.go:91-137 | a move that does not overwrite the root keeps every node in the trash |
| TrashRuns.DeleteKeeps | internal/files/trash.go:81-177 | a delete keeps them too, and its record leads to its file |
| TrashRuns.TrashStays | internal/files/trash.go:81-177 | over any sequence of renames, moves, copies and deletes, every record leads to a node in the trash and nothing in the trash changes |
| TrashRuns.WipePlan | internal/files/operations.go:91-125 | a request to overwrite the root passes every check, whatever it moves |
| TrashRuns.OverwritingRootWipes | internal/files/operations.go:126-136 | the excepted request does remove the whole storage |
| Devices.MountCollector.Walk | internal/storagepool/devices.go:151-170 | the closure collects the wanted mountpoints of the tree once each, in walk order |
| Devices.CollectNonSystemMountpoints | internal/storagepool/devices.go:151-173 | sorted descending |
| Devices.UnmountListIsExact | internal/storagepool/devices.go:151-173 | exactly the non-system mountpoints of the tree, without repeats, each before any mountpoint that is a prefix of it |
| Devices.DataDiskUnmountsAll | internal/storagepool/devices.go:175-200 | for a device not judged a system disk that is every mountpoint |
| Devices.SystemDiskIff | internal/storagepool/devices.go:190-221 | a system disk is exactly a tree with a system mountpoint |
| Devices.SystemDiskByName | internal/storagepool/devices.go:190-221 | a system disk is exactly a tree that reports a mountpoint which, trimmed, is "/", "/boot" or "/boot/efi" |
| Devices.UnmountListByName | internal/storagepool/devices.go:151-173 | the unmount list holds exactly the other mountpoints that are not blank |
| Devices.SortFacts | internal/storagepool/devices.go:171 | sorting keeps the entries and orders them descending |
| Devices.MDCollector.Walk | internal/storagepool/devices.go:223-242 | the closure collects the RAID paths once each, parents first |
| Devices.CollectChildMDDevices | internal/storagepool/devices.go:223-242 | the stop list |
| Devices.StopListIsExact | internal/storagepool/devices.go:223-252 | exactly the paths of RAID-like devices below, without repeats |
| DevicePrepare.Preparer.ForcePreparePoolDevices | internal/storagepool/devices.go:114-149 | runs the commands of each device in order and stops at the first refusal or failed command, and only there |
| DevicePrepare.WipesAreSafe | internal/storagepool/devices.go:114-149 | a wiped device was unregistered and no system disk, and everything on it had been unmounted and stopped by commands that ended well; no system mountpoint is ever unmounted |
| DevicePrepare.AllowedIff | internal/storagepool/devices.go:114-130 | a device may be wiped exactly if it is known to be unregistered, is listed, and has none of "/", "/boot" and "/boot/efi" in its tree |
| DevicePrepare.SystemIsSpared | internal/storagepool/devices.go:114-149 | no device with "/", "/boot" or "/boot/efi" in its tree is ever wiped, and none of the three is ever unmounted |

## Left out

- SQL text, JSON, HTTP headers, logging, audit records and response bodies: the database is maps with atomic guarded updates, and statements succeed.
- Pagination, job counts, titles and messages, translation of legacy texts: easy members that add nothing.
- Monitoring, GeoIP, thumbnails, shares, users, sessions, Docker: not modelled.
- sudo, ffmpeg, rclone, btrfs, mdadm, mount and the network are outside steps that succeed or fail arbitrarily; file removals and rollback renames are assumed to succeed. A transcoder is assumed to die with the server, in both caches: one that outlived a crash would go on writing.
- Inside the transition system the table and the registry are values; the objects `JobRows.JobTable` and `JobEngine.StopRegistry` are proved to change theirs by the same functions.
- JobWorker.Server.RunCloudSyncJob: an interruption is met only by a run whose context was cancelled, and the storage lookup and the opening of the file are one step.
- JobRows.JobTable.ClaimNextPending: its two statements run without interference; `JobWorker.Server.ProcessOnePendingJob` has the interleavings.
- The sweep the worker runs between jobs, and the one a request starts when it reads a row, is one of the independent sweeps of the model, which allows more interleavings than the program has.
- The removal of the emptied cache directory after a cache file, and cloud-sync jobs without a local path.
- Requests on one upload do not overlap, and no two finalisations race for one target; the in-process lock is the `busy` answer of a PATCH.
- The fallback of a move from rename to the `mv` command, across devices or for lack of permission: one step that works or changes nothing, where a stopped `mv` may leave part of a copy.
- The fallback from rename to copy in `persistUploadedFile` is one outcome that moves the file, refuses, or leaves a partial new target.
- JobTicks.EnqueuesConsumeTicks: while the pool is armed it keeps one schedule, and every request that changes its settings is timely, in the exact sense of `JobTicks.ConfigureTicks`.
- JobTiming.LiveJobNeverSwept: the gap d between writes and the delay g between listing and cutoff are parameters with d + g + 1 s <= 5 min, so that a heartbeat within 299 s needs a prompt cutoff.
- Text.ToLower: lower-cases ASCII only, which is all the schedule words and policies need.
- Time zones: local midnights are any strictly increasing sequence; the zero time of Go counts as no time.
- IniSections.UpsertRefinesPut: speaks of trimmed, non-blank lines; blank lines and outer white space of the text may change.
- IniSections.EditsRefineMap: starts from a text whose headers are unique; duplicate headers are not modelled.
- Paths of several upper directories, symbolic links, permissions, nested storages and changes made outside the program: the tree has folders and files only, and file identifiers that decode to relative paths are refused before the model starts.
- The message a refused target carries (`InvalidTarget` covers them all), and stat errors other than a missing path or a file in the way.
- Identifiers of jobs, uploads and trash entries never repeat.
- The sort and base64 of the Go standard library: sorting is an insertion sort with the same order, base64 a parameter with its round trip.
- Listing, previewing and restoring trash entries: the deleting side is modelled only.
