# Backup and restore sessions of the Backrest operator

A Dafny model of the operator's backup and restore protocol, and of three smaller parts that it rests on: the shell
scripts of its restic Jobs, its edits of the Backrest host configuration, and its admission check.

The protocol is a state machine over Kubernetes objects. `Protocol.World` holds the stored `PVCBackup`s and
`PVCRestore`s, the Jobs, the replica counts of the workloads, the runs that are between quiesce and Job creation, a clock,
and a count of refused status writes. A step (`Protocol.Step`) is one reconcile of a backup up to the point where its Job
is about to be created, the rest of that reconcile from its re-check on, one reconcile of a restore, or something the
environment does: a crash in the middle of a run, a Job that finishes or is removed, an annotation that is written, a
workload that is scaled, a new object, time passing. Every API call may fail in every step (`Inputs.faults`,
`Inputs.scaleFaults`), and lists come back in any order. A run (`Protocol.IsRun`) is any sequence of such steps from a
cluster the operator has not touched yet.

Both reconcilers are also written in their own form in `Cluster` and `Controller`: classes for the API server's objects and
for the in-memory copies, methods that change them field by field, and loops over lists and maps. Each method is proved to
move the cluster exactly as the protocol function of the same name does, so what is proved of the functions over whole runs
holds of the methods.

## Layout

| module | contents |
|---|---|
| `Text` | prefixes, truncation, decimal printing and its inverse |
| `JobNames` | names of backup and prune Jobs and the prefixes they are found by |
| `Types` | resources, phases, claims, lock keys, tokens, schedule |
| `Workloads`, `Conservation` | scaling down, recording and bringing back |
| `Protocol` | both reconcilers as functions from one cluster state to the next; steps and runs |
| `OneJob`, `Exclusion`, `Mounts`, `Preemption`, `Uploading`, `Schedule`, `Progress`, `Outcomes`, `Tokens`, `Concurrency`, `Isolation`, `Footprint`, `Replicas` | one family of guarantees each |
| `Examples`, `SessionExamples` | runs from an untouched cluster that show a failure |
| `Cluster`, `Controller` | the same reconcilers as classes and methods |
| `Shell`, `Scripts` | a lexer, parser and runner for a part of the POSIX shell; the Job scripts |
| `HostConfig`, `HostSync` | edits of the host configuration; plan IDs, syncing and cleanup |
| `JobVolumes`, `Admission` | volumes, mounts and paths of a Job; the admission check |

## What turned out not to hold as stated

Each of these is a lemma with the exact condition, or with the input that shows the failure.

- A backup that fails, is cancelled or is preempted while nothing is recorded has its targets put at one replica, whatever
  they had before (`Replicas.ReconcileConserves`, `Replicas.InterruptConservesIff`). That happens for a missing repository,
  a malformed schedule (`Examples.MalformedScheduleFallsBack`), and a run that found the session busy after its quiesce and
  still says Quiescing (`Examples.BusyAbortThenPreempted`).
- A write lost at the wrong moment costs the counts: the one that ends a successful run
  (`Replicas.LostCompletionFallsBack`), the one of a preemption (`Replicas.LostPreemptionFallsBack`), or the annotation patch
  of a launch (`Replicas.FailedRecordFallsBack`). So does a target that cannot be scaled when its run ends
  (`Replicas.ScaleFaultLosesCount`).
- The operator dies between quiesce and Job creation, or the status write after Job creation is lost and the Job ends
  before it is adopted: the next run records zero for every target (`Replicas.RunOverDownedTargets`,
  `SessionExamples.CrashForgetsCounts`). So does a run that overlaps another backup's over the same workload
  (`SessionExamples.SharedTargetLosesCount`).
- A cancel deletes the Job the status names; another unfinished Job of the backup survives it (`Exclusion.CancelStops`,
  `SessionExamples.CancelMissesJob`).
- A lost status write leaves a Job without an active phase in front of it, unless one was stored before
  (`Exclusion.LaunchHoldsIff`, `Exclusion.RestoreHoldsIff`), and a second session starts on its claim
  (`SessionExamples.LostWriteOverlaps`).
- When the status write after a Job is lost and the Job ends before it is adopted, its slot is started twice
  (`Examples.LostWriteStartsTwice`); if it is adopted in time, no start is too many (`Schedule.StartsWithinSlots`).
- Beyond 46 characters the prune scan misses prune Jobs. For the names that are not confusable (`JobNames.Confusable`) a
  backup Job is then created beside one (`Examples.BackupJobBesidePrune`); for the confusable ones of up to 52 the prune Job
  is adopted as a backup Job instead (`Exclusion.AdoptionConfuses`).
- Job names longer than 63 characters lose digits of their timestamp: two runs share a name exactly as
  `JobNames.BackupJobNamesEqual` says, and a run that takes the name of a succeeded Job reports success without backing
  anything up (`Uploading.TakenNameReportsSuccess`).
- Restores whose names agree on their first 52 characters print one Job name, and a restore that takes the name of a
  succeeded Job reports success without writing to its claim (`Outcomes.LongRestoreNames`, `Outcomes.TakenRestoreName`).
- A force-run token is claimed before the session is looked at. If it is taken, the forced run is forgotten unless the
  backup would have run without it (`Progress.ForcedRunForgotten`).
- A backup marked Failed whose pipeline neither quiesces nor takes a snapshot opens runs and claims tokens, but the second
  look at its phase aborts every one of them (`Progress.RunsAtOnce`).
- The clone that a snapshot pipeline uploads is not among the keys its backup locks (`Mounts.CloneIsNotLocked`).
- A pod that was absent when its backup quiesced and has come up since is deleted when the backup ends
  (`Conservation.PodRoundTrip`).
- A backup called `prune-x` and a prune of `x` in the same second share a Job name (`JobNames.BackupAndPruneNamesCollide`);
  a confusable name of 47 characters is "prune-" seven times over and "prune" (`JobNames.ConfusedAt47`).
- A prune Job never fails, because both of its commands are followed by `|| true` (`Scripts.PruneJobAlwaysSucceeds`).
- A Job over a snapshot's clone backs up another path than the host shows, unless the paths are explicit
  (`JobVolumes.ClonePaths`); more claims than explicit paths are mounted at one path (`JobVolumes.ExplicitMountsDistinct`).
- Plan IDs of different backups collide when a dash moves between namespace and name, when characters sanitize alike, or
  when they agree on the 64 characters kept (`HostSync.PlanIDsCollide`), and
  then cleanup of one removes the plan of the other (`HostSync.FinalizerUndoesSync`).
- A list of empty claim names is accepted and takes part in no session lock (`Admission.AcceptedLocks`).

## Model

| member | source | states |
|---|---|---|
| `OneJob.OneUnfinishedBackupJob` | internal/controller/pvcbackup_controller.go:174-363 | In every state of every run, with lost status writes, crashes, cancels, preemptions and API failures, a backup has at most one unfinished backup Job, whatever its name |
| `OneJob.StepKeeps` | internal/controller/pvcbackup_controller.go:174-363 | Every step keeps the invariant behind it: Jobs carry names of their kind printed not later than their creation, and an open run has no unfinished Job of its own beside it |
| `OneJob.BackupScanComplete` | internal/controller/pvcbackup_controller.go:765-795 | When the backup scan finds nothing, no backup Job of the owner is unfinished, for names up to 52 characters |
| `OneJob.PruneScanComplete` | internal/controller/pvcbackup_controller.go:797-826 | When the prune scan finds nothing, no prune Job of the owner is unfinished, for names up to 46 characters |
| `OneJob.ConfusedScanComplete` | internal/controller/pvcbackup_controller.go:765-795 | For confusable names of 47 to 52 characters the backup scan finds the prune Jobs that the prune scan misses |
| `OneJob.LongNamesShared` | internal/controller/pvcbackup_controller.go:342-346 | Beyond 52 characters all backup Jobs of one owner have one name |
| `Exclusion.SessionMutualExclusion` | internal/controller/repo_busy.go:105-175 | In no state of any run whose status writes after Job creation get through do two distinct backups or restores with overlapping claims both have an unfinished Job, over every interleaving of claims, launches, restore-starts, polls, cancels, prunes, crashes and other failing calls, and for names of any length |
| `Exclusion.ExclusionWithLostWrites` | internal/controller/pvcbackup_controller.go:347-363 | The same when a backup's status write after Job creation may get lost over the stored phase of its quiesce or snapshot, for names up to 46 characters of such backups and no cancel before the Job is adopted |
| `SessionExamples.LostWriteOverlaps` | internal/controller/pvcbackup_controller.go:347-363 | A run in which a status write is lost over a phase that holds nothing, and two backups have unfinished Jobs on one claim |
| `Mounts.OneJobPerClaim` | internal/controller/repo_busy.go:105-175 | In no state of any run whose status writes after Job creation get through do two unfinished backup or restore Jobs of a namespace mount one claim, the clones of snapshots aside; claims are those in the Job itself, not lock keys |
| `Mounts.BackupJobMounts` | internal/controller/pvcbackup_controller.go:281-312 | Over every run a backup Job mounts the claims its spec names, the list before the single name, or where the pipeline takes a snapshot the clone named after the backup and the second in the Job's name |
| `Mounts.RestoreJobMounts` | internal/controller/pvcrestore_controller.go:151-174 | Over every run a restore Job mounts the existing claim of its spec, or the one created for it: the name given, else the restore's own with -pvc after it |
| `Mounts.LocksWhatItMountsAlways` | internal/controller/repo_busy.go:58-97 | Over every run an unfinished Job mounts a claim if and only if its owner locks the key of that claim, clones aside |
| `Mounts.CloneIsNotLocked` | internal/controller/pvcbackup_controller.go:307-312 | A backup over a clone mounts the clone alone, which its keys cover only if the spec names it as well |
| `Mounts.BackupHoldsIff` | internal/controller/repo_busy.go:16-68 | One backup holds back another exactly if it is in one of the six active phases and both name a claim of one namespace |
| `Mounts.RestoreHoldsBackupIff` | internal/controller/repo_busy.go:25-97 | A restic restore holds back a backup exactly if it is pending, quiescing or restoring to a claim the backup names |
| `Mounts.RestoreHoldsRestoreIff` | internal/controller/repo_busy.go:25-97 | Two restic restores hold each other back exactly over one claim |
| `Mounts.PreemptsIff` | internal/controller/repo_busy.go:73-97 | A backup is preempted by a restic restore exactly if it is active and names the claim restored to |
| `Mounts.SnapshotRestoreLocks` | internal/controller/repo_busy.go:80-85 | A restore from a volume snapshot locks the claim that a restic restore of the same names would create |
| `Exclusion.StepSessions` | internal/controller/pvcbackup_controller.go:264-363 | Every such step keeps the session invariant: the owner of an unfinished Job says Uploading and names it (or, where a write may get lost, is in the phase before), an open run has no unfinished Job beside it, and no two sessions overlap |
| `Exclusion.LaunchTies` | internal/controller/pvcbackup_controller.go:329-363 | A launch that creates its Job found no overlapping session, and leaves the status naming that Job, or in the phase before where its write may get lost |
| `Exclusion.LaunchHoldsIff` | internal/controller/pvcbackup_controller.go:347-363 | After creating its Job a backup holds its session if and only if the status write lands or an active phase was stored before |
| `Exclusion.RestoreHoldsIff` | internal/controller/pvcrestore_controller.go:246-254 | The same for a restore and its own status write |
| `Exclusion.CancelStops` | internal/controller/pvcbackup_controller.go:605-632 | A cancel leaves no unfinished backup Job of its owner if and only if every unfinished one was the Job the status named |
| `SessionExamples.CancelMissesJob` | internal/controller/pvcbackup_controller.go:605-632 | A run in which a cancel is handled and the Job, whose status write was lost, is still unfinished |
| `Exclusion.WatchesLiveJob` | internal/controller/pvcbackup_controller.go:97-183 | As long as its Job runs, a reconcile without a pending cancel deletes and creates nothing and stays tied to it |
| `Exclusion.AdoptionClassifies` | internal/controller/pvcbackup_controller.go:160-183 | Reached in their order, the two scans adopt a Job of their own kind only, for every name but the confusable ones of 47 to 52 characters |
| `Exclusion.AdoptionConfuses` | internal/controller/pvcbackup_controller.go:160-183 | For the confusable names of 47 to 52 characters they never do: an unfinished prune Job with no backup Job beside it is adopted as a backup Job |
| `Exclusion.InterruptAllClears` | internal/controller/pvcrestore_controller.go:130-149 | After the preemptions of a restore no holder has an unfinished backup Job left, provided each was active with Jobs its status names or its scan can recognise; the other backups may be in any state and are left alone |
| `Exclusion.StopJobsClears` | internal/controller/repo_busy.go:177-192 | The two deletions of interruptBackup leave no unfinished backup Job where each is named by the status or can be recognised by the scan |
| `Preemption.PreemptionPostcondition` | internal/controller/repo_busy.go:177-194 | In any reachable state, interrupting an active backup with recorded counts leaves none of its backup Jobs unfinished, phase Failed, every recorded workload that can be scaled at its recorded count and the record cleared; asked are only that its Jobs are named by its status or recognisable by its scan, and that the two writes of fail() get through |
| `Preemption.LandedRunsCovered` | internal/controller/pvcbackup_controller.go:347-363 | In every state of a run whose status writes after Job creation get through, the status of every backup names its unfinished Jobs, so preemption stops them all |
| `Preemption.FailReleasesRecorded` | internal/controller/pvcbackup_controller.go:717-743 | When its two writes get through, fail() applies the recorded counts, clears the record, sets Failed and dates the attempt now |
| `Preemption.InterruptDeactivates` | internal/controller/repo_busy.go:177-194 | An interrupted backup is no longer active, whatever it had recorded |
| `Preemption.RestoreGetsPast` | internal/controller/pvcrestore_controller.go:124-149 | A restore that no other restore holds back gets past every backup: no active backup overlaps its claims afterwards, and it goes on to create its Job |
| `Preemption.PreemptsOnlyHolders` | internal/controller/pvcrestore_controller.go:130-149 | The preemptions of a restore leave every backup alone that does not hold one of its claims |
| `Preemption.PreemptsOnlyTheirJobs` | internal/controller/repo_busy.go:177-192 | They delete only Jobs that the status of such a backup names or its scan finds |
| `Uploading.UploadingNamesLatestJob` | internal/controller/pvcbackup_controller.go:342-363 | In every state of every run with at least a second between the starts of two runs of a backup with up to 42 characters, an Uploading status names the Job launched or adopted last, and every unfinished backup Job is that one |
| `Uploading.ReconcileStatus` | internal/controller/pvcbackup_controller.go:48-327 | A reconcile leaves a status Uploading only if it already was, with the same Job, or by adopting the Job its scan found |
| `Uploading.LaunchNameIsFree` | internal/controller/pvcbackup_controller.go:343-346 | Up to 42 characters the name a launch prints is not taken by any Job, of whatever owner whose name keeps apart |
| `Uploading.TakenNameReportsSuccess` | internal/controller/pvcbackup_controller.go:343-363 | A launch whose name is taken by a succeeded Job creates nothing and reports success |
| `Schedule.StartsWithinSlots` | internal/controller/pvcbackup_controller.go:641-662 | Over any run the Jobs created by due slots number at most the slots between the object's creation and now, for any Next that yields the least slot after its argument, however long the operator was down, and also when status writes are lost as long as each Job whose write was lost is adopted before it ends |
| `Schedule.SlotsCount` | internal/controller/pvcbackup_controller.go:655-661 | Counting slots by stepping through Next counts exactly the seconds that are slots |
| `Schedule.ReconcileCursor` | internal/controller/pvcbackup_controller.go:385-388 | A reconcile keeps the schedule cursor or moves it to now, and a run whose Job is up never ends without moving it |
| `Schedule.LostLaunchStaysDue` | internal/controller/pvcbackup_controller.go:352-363 | When the status write after the Job is lost, status and due date are as before |
| `Examples.LostWriteStartsTwice` | internal/controller/pvcbackup_controller.go:352-363 | A run with a lost status write whose Job ends before it is adopted: two scheduled starts in a time with one slot |
| `Progress.DueIff` | internal/controller/pvcbackup_controller.go:641-662 | A scheduled backup is due exactly if it is forced or a slot lies after its last attempt, or after its creation if there was none, and not after now; only a malformed schedule is an error, and only unforced; for any Next that yields the least slot after its argument |
| `Progress.OpensIff` | internal/controller/pvcbackup_controller.go:174-327 | A reconcile opens a run if and only if there is a claim, the run is wanted by token, by slot or as a first run, no cancel, prune, watched or adoptable Job comes first, no other session holds a claim, every target can be scaled, the snapshot steps are allowed and no call fails; the run then holds what its own quiesce recorded |
| `Progress.OpensUnder` | internal/controller/pvcbackup_controller.go:228-306 | A run opens with its token claimed and under the last phase written on the way |
| `Progress.BusyWaits` | internal/controller/pvcbackup_controller.go:257-263 | With the session taken, a wanted backup changes nothing but its claimed token |
| `Progress.ForcedRunForgotten` | internal/controller/pvcbackup_controller.go:228-263 | A forced run that finds the session taken is forgotten: afterwards the backup is wanted if and only if it would have been without the token |
| `Progress.LaunchesIff` | internal/controller/pvcbackup_controller.go:329-351 | An open run creates its Job, over the claims it uploads, if and only if the stored backup has not failed, the session is free and the API takes the Job |
| `Progress.RunsAtOnce` | internal/controller/pvcbackup_controller.go:174-351 | From a wanted backup to its Job with nothing in between: created unless the API refuses it, or the backup is marked Failed and its pipeline writes no phase on the way |
| `Tokens.TokensSpentOnce` | internal/controller/pvcbackup_controller.go:228-234 | Over any run the recorded run, prune and cancel tokens each change at most as often as the matching annotation is written, the claim on success included |
| `Tokens.ReconcileClaims` | internal/controller/pvcbackup_controller.go:118-131 | A reconcile leaves every recorded token as it was or sets it to the annotation it read |
| `Tokens.LaunchClaims` | internal/controller/pvcbackup_controller.go:376-380 | The same for the second half of a run |
| `Concurrency.LaunchConflicts` | internal/controller/pvcbackup_controller.go:352-363 | A launch meets a conflict exactly when its status write is attempted on a version that changed since the claim and was not refreshed by the quiesce-state patch |
| `Concurrency.NoWriteConflicts` | internal/controller/pvcbackup_controller.go:539-559 | In every run in which nobody else writes an object between its claim and its Job, the status write of a preemption of an open run getting through, no status write of either controller ever meets a conflict, whatever else fails |
| `Outcomes.SuccessMeansJob` | internal/controller/pvcbackup_controller.go:366-388 | Over every run a backup's success time changes only in a step that finds the Job its status then names succeeded, and to the second of that step |
| `Outcomes.BackupPolled` | internal/controller/pvcbackup_controller.go:366-422 | Watching a backup Job: a running one changes nothing at all, a missing or failed one marks the backup Failed as of now, a succeeded one sets the idle phase, both times and the token; a lost write leaves the status as it was |
| `Outcomes.BackupAdopted` | internal/controller/pvcbackup_controller.go:173-183 | An adopted backup Job is named by an Uploading status, and nothing else happens |
| `Outcomes.PrunePolled` | internal/controller/pvcbackup_controller.go:424-495 | Watching a prune Job: the same outcomes, with times and tokens left alone |
| `Outcomes.PruneAdopted` | internal/controller/pvcbackup_controller.go:159-168 | An adopted prune Job is named by a Pruning status, and nothing else happens |
| `Outcomes.PruneStarted` | internal/controller/pvcbackup_controller.go:112-157 | A pending prune is deferred while a backup is in flight, fails and spends its token without a positive retention, and otherwise names its new Job under Pruning |
| `Outcomes.Cancelled` | internal/controller/pvcbackup_controller.go:586-632 | A cancel deletes the named Job and spends its token; a backup in flight is Failed as of now, a prune is Failed with its times as they were, anything else keeps its phase |
| `Outcomes.BetweenSlots` | internal/controller/pvcbackup_controller.go:193-201 | Between slots a backup is Scheduled unless its last run failed, and on a malformed schedule it fails |
| `Outcomes.NothingToBackUp` | internal/controller/pvcbackup_controller.go:88-91 | A backup that names no claim fails before anything else is looked at |
| `Outcomes.RestoreSuccessMeansJob` | internal/controller/pvcrestore_controller.go:257-268 | Over every run a restic restore is reported as done only in a step of its own that finds the Job its status then names succeeded; with a name of less than 63 characters that Job is its own and mounted its claim |
| `Outcomes.RestoreOutcomeFinal` | internal/controller/pvcrestore_controller.go:41-48 | Over every run a restore that has succeeded or failed never changes again |
| `Outcomes.RestorePolled` | internal/controller/pvcrestore_controller.go:257-274 | Watching a restore Job: running changes nothing, missing or failed ends in Failed, succeeded in Succeeded, and a lost write leaves the restore as it was |
| `Outcomes.ResticRestoreStarted` | internal/controller/pvcrestore_controller.go:114-255 | A restic restore without a competing restore fails without a claim or on a failing call; else its Job is there and named, with its outcome if it has one already |
| `Outcomes.RestoreWithoutJob` | internal/controller/pvcrestore_controller.go:50-132 | A restore waits for another one of the same disk; a claim from a volume snapshot is done at once, and an unknown mode fails |
| `Outcomes.LongRestoreNames` | internal/controller/pvcrestore_controller.go:207-210 | From 52 characters on, two restores print one Job name, whatever the second, exactly if they agree that far |
| `Outcomes.TakenRestoreName` | internal/controller/pvcrestore_controller.go:243-255 | A restore whose printed name is that of a succeeded Job creates nothing and reports success |
| `Isolation.PruneIsolated` | internal/controller/pvcbackup_controller.go:112-169 | No prune start, poll, failure, adoption or cancel changes a workload, an open run, the quiesce record, LastBackupTime, LastSuccessTime or LastForceRun |
| `Isolation.NoBackupJobDuringPrune` | internal/controller/pvcbackup_controller.go:160-191 | Over every run, no backup Job is created while a prune Job of the same backup is unfinished, for names up to 46 characters and for confusable names of any length |
| `Examples.BackupJobBesidePrune` | internal/controller/pvcbackup_controller.go:797-807 | For every name of 47 characters or more that is not confusable, a run in which a backup Job is created beside an unfinished prune Job of the same backup |
| `Isolation.ReconcileNeverRaises` | internal/controller/pvcbackup_controller.go:239-248 | With leaveDown, no reconcile of the backup raises a replica count, whether it succeeds, fails or is cancelled |
| `Isolation.LaunchLeavesDown` | internal/controller/pvcbackup_controller.go:329-363 | With leaveDown, the second half of a run scales nothing, its deferred restore included |
| `Isolation.InterruptLeavesDown` | internal/controller/repo_busy.go:177-194 | With leaveDown, preemption scales nothing |
| `Footprint.LeftDownStaysDown` | internal/controller/pvcbackup_controller.go:239-248 | Over any stretch of a run in which only leaveDown backups list a workload and no user scales it, it keeps its count or is at zero |
| `Footprint.OnlyOwnTargets` | internal/controller/pvcbackup_controller.go:828-853 | In every run a backup's own steps scale only its own targets, and what its annotation records is keyed by them |
| `Footprint.ReconcileWithin` | internal/controller/pvcbackup_controller.go:48-327 | A reconcile scales only the backup's targets, and what it records or holds on to is keyed by them |
| `Footprint.LaunchWithin` | internal/controller/pvcbackup_controller.go:329-363 | The same for the second half of a run |
| `Footprint.InterruptWithin` | internal/controller/repo_busy.go:177-194 | The same for preemption |
| `Replicas.ReplicasConserved` | internal/controller/pvcbackup_controller.go:236-248 | Over every run of careful steps, whenever the backup has nothing in flight again every target has the replica count it had before, however many runs succeeded, failed, were cancelled or preempted in between, whatever targets other backups list as long as their steps leave these counts alone meanwhile, and also when the status write after Job creation was lost and the Job was adopted |
| `Replicas.CountsNeverLost` | internal/controller/pvcbackup_controller.go:236-248 | In between, the counts are in the cluster, in the open run, or in the annotation of a backup whose status points at the Job it waits for or whose next reconcile will adopt that Job |
| `Replicas.ApartLeavesCounts` | internal/controller/pvcbackup_controller.go:828-853 | A step of a backup that lists none of another one's targets leaves their counts alone |
| `Replicas.ReconcileConserves` | internal/controller/pvcbackup_controller.go:508-530 | From rest, a reconcile keeps the counts if and only if it does not release an unrecorded backup, or all targets were at one |
| `Replicas.SnapshotSaved` | internal/controller/pvcbackup_controller.go:272-327 | A failing snapshot first applies the one-replica fallback, and the deferred restore then brings every count back |
| `Replicas.LaunchConserves` | internal/controller/pvcbackup_controller.go:329-363 | After the re-check the counts come back at once, or wait in the annotation for the new Job, whether the status write that points at it lands or is lost |
| `Replicas.ReconcileAdrift` | internal/controller/pvcbackup_controller.go:173-183 | While the counts wait for a Job whose status write was lost, a reconcile adopts that Job, waits, or brings the counts back |
| `Replicas.ReconcileRecorded` | internal/controller/pvcbackup_controller.go:97-102 | While counts are recorded, a reconcile keeps them recorded or brings them all back |
| `Replicas.InterruptConserves` | internal/controller/repo_busy.go:177-194 | Preempting a backup brings recorded counts back, and does not disturb counts held by an open run |
| `Replicas.InterruptConservesIff` | internal/controller/pvcbackup_controller.go:514-526 | Preempting a resting active backup keeps its counts if and only if all targets were at one |
| `Replicas.LostCompletionFallsBack` | internal/controller/pvcbackup_controller.go:376-406 | When the write that ends a successful run is lost, the next poll puts every target at one replica |
| `Replicas.FailedRecordFallsBack` | internal/controller/pvcbackup_controller.go:354-361 | When the annotation patch of a launch fails and its status write lands, the success of the Job puts every target at one replica |
| `Replicas.LostPreemptionFallsBack` | internal/controller/repo_busy.go:177-194 | When the status write of a preemption is lost, the counts come back, but the next poll puts every target at one replica |
| `Replicas.ScaleFaultLosesCount` | internal/controller/pvcbackup_controller.go:508-530 | A target that cannot be scaled when the run ends stays where it is, and its count is cleared with the record |
| `Examples.MalformedScheduleFallsBack` | internal/controller/pvcbackup_controller.go:193-197 | A run of one faultless step: a schedule that does not parse puts three replicas at one |
| `Examples.BusyAbortThenPreempted` | internal/controller/pvcbackup_controller.go:333-341 | A run in which a launch aborted because the session is busy leaves Quiescing with nothing recorded, and a later faultless preemption puts three replicas at one |
| `Replicas.RunRecordsScene` | internal/controller/pvcbackup_controller.go:267-274 | A run holds the counts its own quiesce read, whatever an earlier run left in the annotation |
| `Replicas.RunOverDownedTargets` | internal/controller/pvcbackup_controller.go:828-842 | A run opened over targets that are already down records zero for all of them |
| `SessionExamples.CrashForgetsCounts` | internal/controller/pvcbackup_controller.go:236-274 | A run with a crash between quiesce and Job creation: the run opened after it holds zero for a workload that had three |
| `SessionExamples.SharedTargetLosesCount` | internal/controller/pvcbackup_controller.go:828-842 | A run in which two backups are active at once over one workload: when both have ended, it is at zero instead of three |
| `Conservation.QuiesceRecords` | internal/controller/pvcbackup_controller.go:828-842 | Quiescing takes every target to zero and records its count under its key, zero if it is listed twice, and touches nothing else |
| `Conservation.UnquiesceRecorded` | internal/controller/pvcbackup_controller.go:844-853 | Unquiescing what a quiesce recorded gives every target its recorded count and touches nothing else, whatever happened in between |
| `Conservation.QuiesceRoundTrip` | internal/controller/pvcbackup_controller.go:828-853 | Quiesce and unquiesce give the counts back if and only if every target listed more than once was at zero |
| `Conservation.FallbackSetsOne` | internal/controller/pvcbackup_controller.go:516-525 | The fallback puts every target at one replica and touches nothing else |
| `Conservation.OwnNamespace` | internal/controller/pvcbackup_controller.go:831-834 | A target with a namespace of its own is quiesced the same from every backup |
| `Conservation.QuiesceQualified` | internal/controller/pvcbackup_controller.go:831-834 | A target without one is quiesced as the same target with the backup's namespace written in |
| `Conservation.QuiesceMeant` | internal/controller/pvcbackup_controller.go:828-842 | A successful quiesce takes every StatefulSet and Deployment of a target's kind and name, in its namespace or else the backup's, to zero and records it under these parts; no other is ever scaled |
| `Conservation.FallbackMeant` | internal/controller/pvcbackup_controller.go:516-525 | The fallback puts exactly these at one replica |
| `Conservation.QuiesceOkIff` | internal/controller/pvcbackup_controller.go:828-906 | A quiesce succeeds if and only if every target can be scaled down: an unknown kind and a missing StatefulSet or Deployment fail it, a missing pod does not |
| `Conservation.PodRoundTrip` | internal/controller/pvcbackup_controller.go:861-880 | A pod target is deleted and recorded as present or absent; unquiescing leaves a pod that was present alone and deletes one that was absent |
| `Workloads.SplitOfJoin` | internal/controller/pvcbackup_controller.go:840-857 | Splitting a recorded key gives back kind, namespace and name when the first two hold no slash |
| `Workloads.JoinOfSplit` | internal/controller/pvcbackup_controller.go:855-857 | A recorded key is determined by the parts it splits into |
| `JobNames.BackupJobNamesEqual` | internal/controller/pvcbackup_controller.go:342-346 | For n up to 52 characters two backup Job names of one backup are equal exactly when the seconds agree after division by 10^max(0, n-42) |
| `JobNames.PruneJobNamesEqual` | internal/controller/pvcbackup_controller.go:143-147 | The same for prune Jobs with the bounds 46 and 36 |
| `JobNames.BackupJobNameInjective` | internal/controller/pvcbackup_controller.go:342-346 | Up to 42 characters a backup Job name determines the backup and the second |
| `JobNames.OtherBackupName` | internal/controller/pvcbackup_controller.go:342-346 | No backup of up to 52 characters prints the backup Job name of another one of up to 42 |
| `JobNames.NamesKeepApart` | internal/controller/pvcbackup_controller.go:342-346 | Names of up to 42 characters are never printed for another backup of any length, backup Job or prune Job, unless that one is pruned under this name or goes on from it and a dash beyond the cut |
| `JobNames.BackupAndPruneNamesCollide` | internal/controller/pvcbackup_controller.go:143-147 | A backup Job and a prune Job share a name exactly when the backup is called prune- plus the pruned one and both start in the same second |
| `JobNames.BackupPrefixSurvives` | internal/controller/pvcbackup_controller.go:765-775 | The finder's prefix survives truncation exactly up to 52 characters |
| `JobNames.PrunePrefixSurvives` | internal/controller/pvcbackup_controller.go:797-807 | The prune finder's prefix survives truncation exactly up to 46 characters |
| `JobNames.BackupJobIsNotPrune` | internal/controller/pvcbackup_controller.go:797-807 | A backup Job never matches its owner's prune prefix |
| `JobNames.PruneJobLooksLikeBackup` | internal/controller/pvcbackup_controller.go:765-775 | A prune Job matches its owner's backup prefix exactly when the name and a dash are a power of prune- |
| `JobNames.ConfusedAt47` | internal/controller/pvcbackup_controller.go:160-183 | At 47 characters there is an owner of a confusable name, whose prune Job matches its backup prefix and not its prune prefix |
| `JobNames.CutPruneLooksLikeBackup` | internal/controller/pvcbackup_controller.go:143-147 | Beyond 46 characters a prune Job matches its owner's backup prefix exactly for the confusable names of up to 52 |
| `JobNames.CutNamesEqual` | internal/controller/pvcbackup_controller.go:143-147 | Beyond 52 characters a backup Job and a prune Job of one owner share their name exactly where it is confusable |
| `Protocol.FindOwned` | internal/controller/pvcbackup_controller.go:765-826 | The scan yields an unfinished owned Job with the prefix that no other is newer than and no later one as new, or there is none |
| `Protocol.BackupHolders` | internal/controller/repo_busy.go:105-125 | The holders are exactly the listed active backups of other objects whose claims overlap |
| `Protocol.RestoreHolders` | internal/controller/repo_busy.go:127-145 | The same for restores |
| `Protocol.WriteStatus` | internal/controller/pvcbackup_controller.go:352-363 | A status write changes nothing but its own object, which keeps its identity; from a copy with current metadata it never conflicts, and the copy stays current |
| `Protocol.PatchQuiesce` | internal/controller/pvcbackup_controller.go:543-559 | The annotation patch leaves the stored and the unsaved status alone and never conflicts; after a patch that goes through the in-memory metadata is the stored one |
| `Protocol.Reconcile` | internal/controller/pvcbackup_controller.go:48-327 | A reconcile changes its own object, its run, the workloads and at most one Job; it opens a run only when both scans found nothing and it is due; it meets no write conflict |
| `Protocol.Launch` | internal/controller/pvcbackup_controller.go:329-363 | The second half closes the run and creates at most the one Job named after it |
| `Protocol.RestoreReconcile` | internal/controller/pvcrestore_controller.go:31-66 | A restore changes its own object, creates at most its own Job, and changes backups only by preempting them |
| `Cluster.Server.UpdateStatus` | internal/controller/pvcbackup_controller.go:352-363 | Refused on a stale version, otherwise stores the status under a new version: exactly Protocol.WriteStatus |
| `Cluster.Server.PatchAnnotation` | internal/controller/pvcbackup_controller.go:543-559 | Exactly Protocol.PatchQuiesce |
| `Cluster.Server.DeleteJob` | internal/controller/pvcbackup_controller.go:610-619 | Removes the named Job, if a name was given, and nothing else |
| `Cluster.Server.CreateJob` | internal/controller/pvcbackup_controller.go:1103-1109 | Creates the Job unless one of the name exists, which counts as created |
| `Cluster.Server.UpdateRestore` | internal/controller/pvcrestore_controller.go:246-254 | Exactly Protocol.WriteRestore |
| `Cluster.ScaleWorkload` | internal/controller/pvcbackup_controller.go:859-906 | Kind, missing object, failing call and previous count as Workloads.ScaleWorkload has them |
| `Cluster.Quiesce` | internal/controller/pvcbackup_controller.go:828-842 | The loop leaves exactly the scene and the record of Workloads.Quiesce, also when it stops at an error |
| `Cluster.Unquiesce` | internal/controller/pvcbackup_controller.go:844-853 | Walking the record in any order leaves the one scene of Workloads.Unquiesce |
| `Cluster.UnquiesceOneMore` | internal/controller/pvcbackup_controller.go:844-853 | One more entry after any set of others acts as scaling the workload it names |
| `Controller.PvcKeysOverlap` | internal/controller/repo_busy.go:38-55 | True exactly when the lists share a non-empty key |
| `Controller.BackupPVCKeys` | internal/controller/repo_busy.go:58-68 | One lock key per non-empty claim name, in order |
| `Controller.ListHolders` | internal/controller/repo_busy.go:105-145 | Exactly the holders of the protocol: backups, then restores, with their phases |
| `Controller.HoldersOfKind` | internal/controller/repo_busy.go:147-155 | The keys of the holders of one kind, in order |
| `Controller.KindsSplit` | internal/controller/repo_busy.go:147-155 | Filtering the holders by kind gives back the two lists they were put together from |
| `Controller.SessionBusy` | internal/controller/repo_busy.go:166-175 | True exactly when another active backup or restore overlaps |
| `Controller.FindOwnedJob` | internal/controller/pvcbackup_controller.go:765-826 | The loop with its newest name and timestamp finds the Job of Protocol.FindOwned |
| `Controller.PersistQuiesce` | internal/controller/pvcbackup_controller.go:497-506 | An empty state is not written; otherwise the annotation patch |
| `Controller.ClearQuiesce` | internal/controller/pvcbackup_controller.go:532-537 | An absent record is not patched; otherwise it is removed |
| `Controller.ReleaseQuiesce` | internal/controller/pvcbackup_controller.go:508-530 | leaveDown, recorded counts or the fallback loop, then the record cleared: exactly Protocol.ReleaseQuiesce |
| `Controller.Deferred` | internal/controller/pvcbackup_controller.go:239-248 | The deferred restore of a run that ends without a Job |
| `Controller.Fail` | internal/controller/pvcbackup_controller.go:717-743 | Exactly Protocol.Fail, the branch for an already Failed object included |
| `Controller.FailPrune` | internal/controller/pvcbackup_controller.go:467-495 | Exactly Protocol.FailPrune |
| `Controller.PollBackupJob` | internal/controller/pvcbackup_controller.go:366-422 | Exactly Protocol.PollBackup |
| `Controller.PollPruneJob` | internal/controller/pvcbackup_controller.go:424-465 | Exactly Protocol.PollPrune |
| `Controller.HandleForceCancel` | internal/controller/pvcbackup_controller.go:605-632 | Exactly Protocol.Cancel |
| `Controller.StartPrune` | internal/controller/pvcbackup_controller.go:112-157 | Exactly Protocol.StartPrune |
| `Controller.CreatePruneJob` | internal/controller/pvcbackup_controller.go:143-157 | Exactly Protocol.StartedPrune |
| `Controller.AdoptPrune` | internal/controller/pvcbackup_controller.go:159-168 | Exactly Protocol.AdoptPrune |
| `Controller.AdoptBackup` | internal/controller/pvcbackup_controller.go:173-183 | Exactly Protocol.AdoptBackup |
| `Controller.WaitForSlot` | internal/controller/pvcbackup_controller.go:193-219 | Exactly Protocol.WaitForSlot |
| `Controller.RunPipeline` | internal/controller/pvcbackup_controller.go:281-327 | The pipeline loop: exactly Protocol.SnapshotSteps |
| `Controller.Snapshot` | internal/controller/pvcbackup_controller.go:281-327 | Exactly Protocol.Snapshot |
| `Controller.QuiesceAndSnapshot` | internal/controller/pvcbackup_controller.go:271-279 | Exactly Protocol.AfterQuiesce after the quiesce loop |
| `Controller.Prepare` | internal/controller/pvcbackup_controller.go:250-279 | Exactly Protocol.Prepare |
| `Controller.Claim` | internal/controller/pvcbackup_controller.go:228-234 | Exactly Protocol.Claim |
| `Controller.Reconcile` | internal/controller/pvcbackup_controller.go:48-327 | Moves the cluster exactly as Protocol.Reconcile does |
| `Controller.Launch` | internal/controller/pvcbackup_controller.go:329-363 | Moves the cluster exactly as Protocol.Launch does |
| `Controller.UploadRun` | internal/controller/pvcbackup_controller.go:352-363 | Exactly Protocol.Upload |
| `Controller.InterruptBackup` | internal/controller/repo_busy.go:177-194 | Exactly Protocol.Interrupt |
| `Controller.InterruptHolders` | internal/controller/pvcrestore_controller.go:134-149 | Exactly Protocol.InterruptAll |
| `Controller.FailRestore` | internal/controller/pvcrestore_controller.go:68-77 | Exactly Protocol.FailRestore |
| `Controller.PollRestoreJob` | internal/controller/pvcrestore_controller.go:257-274 | Exactly Protocol.PollRestore |
| `Controller.CreateRestoreJob` | internal/controller/pvcrestore_controller.go:151-254 | Exactly Protocol.CreateRestore |
| `Controller.StartResticRestore` | internal/controller/pvcrestore_controller.go:114-255 | Exactly Protocol.StartRestore |
| `Controller.ReconcileRestore` | internal/controller/pvcrestore_controller.go:31-66 | Moves the cluster exactly as Protocol.RestoreReconcile does |
| `Scripts.QuotedReads` | internal/controller/pvcbackup_controller.go:1176-1178 | A quoted string anywhere outside quotes adds exactly itself to the current word |
| `Scripts.QuotedIsOneWord` | internal/controller/pvcbackup_controller.go:1176-1178 | Unquoting shellQuoteOne(s) yields the single word s |
| `Scripts.QuoteInjective` | internal/controller/pvcbackup_controller.go:1176-1178 | Different strings are never quoted alike |
| `Scripts.BackupScriptReads` | internal/controller/restic_job_script.go:19-43 | For all paths, excludes, IDs and retentions the backup script lexes to the same operators and fixed words, with the paths, excludes and tags as single words |
| `Scripts.BackupScriptParses` | internal/controller/restic_job_script.go:19-43 | Its commands are unlock anyhow, open or create, the backup with exactly the intended arguments, and the retention if asked for |
| `Scripts.BackupScriptCommands` | internal/controller/restic_job_script.go:19-48 | Argument by argument: restic unlock or true; restic snapshots or restic init; restic backup with the fixed flags, the paths, one --exclude per exclude, and the two tags plan: and created-by:; and with a retention restic forget or true, whose argument after --keep-last is the decimal notation of the number |
| `Scripts.BackupJobSucceedsIff` | internal/controller/restic_job_script.go:19-48 | Under sh -e the Job succeeds if and only if the repository opens or can be created and the backup succeeds; the exact commands run in every case |
| `Scripts.PruneScriptReads` | internal/controller/restic_job_script.go:45-57 | The prune script lexes to unlock anyhow and forget anyhow |
| `Scripts.PruneJobAlwaysSucceeds` | internal/controller/restic_job_script.go:45-57 | A prune Job succeeds whatever its commands do |
| `Scripts.PruneScriptCommands` | internal/controller/restic_job_script.go:45-57 | Argument by argument: restic unlock or true, restic forget down to the decimal notation of the number or true |
| `Scripts.RestoreScriptReads` | internal/controller/restic_job_script.go:69-83 | For all snapshots and filters the restore script lexes to the same two commands with every value as a single word |
| `Scripts.RestoreJobSucceedsIff` | internal/controller/restic_job_script.go:69-83 | A restore Job succeeds if and only if restic restore does |
| `Scripts.RestoreScriptCommands` | internal/controller/restic_job_script.go:69-83 | Argument by argument: restic unlock or true, restic restore of the snapshot into /data with one --include per filter |
| `Scripts.PrintIntDenotes` | internal/controller/restic_job_script.go:45-48 | The printed retention consists of digits and denotes the number, after a minus sign if it is negative |
| `Scripts.BackupScript` | internal/controller/restic_job_script.go:19-43 | The builder writes exactly the text whose reading is proved |
| `Scripts.RestoreScript` | internal/controller/restic_job_script.go:69-83 | The same for the restore script |
| `Scripts.AppendFlags` | internal/controller/restic_job_script.go:30-33 | The loop appends one flag and quoted value for each text, in order |
| `HostConfig.FilterInPlace` | internal/backrest/client.go:208-217 | The filter that overwrites the array it reads keeps exactly the plans of other IDs, in order |
| `HostConfig.Host.EnsureInstance` | internal/backrest/client.go:131-145 | Sets the instance and nothing else; fails exactly for an empty instance or a failing call that is needed |
| `HostConfig.Host.UpsertRepo` | internal/backrest/client.go:148-167 | Replaces the first repository of the ID, keeping its GUID when none is given, or asks the host to add one |
| `HostConfig.Host.UpsertPlan` | internal/backrest/client.go:170-194 | Writes the plan, with a disabled schedule if it has none, over the first of its ID or adds it, and nothing else; each error case |
| `HostConfig.Host.DeletePlan` | internal/backrest/client.go:197-223 | Removes every plan of the ID and nothing else; an absent or empty ID writes nothing |
| `HostConfig.EditsRefineMap` | internal/backrest/client.go:170-223 | Any sequence of upserts and deletes of an ID-unique list keeps IDs unique and acts as on a map from ID to plan |
| `HostConfig.UpsertExcept` | internal/backrest/client.go:181-190 | An upsert leaves every other plan and their order alone |
| `HostConfig.OthersKeepOrder` | internal/backrest/client.go:170-223 | The plans that no edit of a sequence names stay as they are and in their order |
| `HostConfig.DeleteUndoesUpsert` | internal/backrest/client.go:197-223 | Deleting undoes the upsert of an absent ID |
| `HostConfig.CleanupUndoesSync` | internal/backrest/client.go:170-223 | Deleting a plan after an upsert and any edits of other plans leaves what those edits alone make, if and only if its ID was free |
| `HostSync.SanitizeID` | internal/controller/host_sync.go:43-58 | The loop writes exactly the sanitized, cut string |
| `HostSync.SanitizeClean` | internal/controller/host_sync.go:43-58 | Sanitized IDs are clean, and exactly the clean strings are left alone |
| `HostSync.PlanIDsCollide` | internal/controller/host_sync.go:39-58 | Any two namespace and name pairs share a plan ID exactly when their sanitized parts are the same or a dash-separated part moves between them, or both are cut and agree on the 64 characters kept |
| `HostSync.CleanPlanID` | internal/controller/host_sync.go:39-41 | A clean namespace and name are the plan ID as they are, with a dash between |
| `HostSync.ClusterReference` | internal/controller/host_sync.go:22-32 | A cluster reference with a namespace names one cluster from everywhere; without one it names a cluster beside the repository, and without a name the cluster main |
| `HostSync.SyncPlan` | internal/controller/host_sync.go:180-209 | On success the host of the repository's cluster has the instance and the backup's plan, and nothing else changed |
| `HostSync.RemovePlan` | internal/controller/host_sync.go:211-234 | On success no plan of the backup's ID is left on that host and every other is where it was |
| `HostSync.FinalizerUndoesSync` | internal/controller/host_sync.go:180-234 | With any edits of other plans in between, the finalizer undoes the sync if and only if the ID was free before |
| `HostSync.PlanAndJobAgree` | internal/controller/host_sync.go:189-201 | The Job over the backup's own claims runs restic backup with exactly the paths, excludes and ID of the plan on the host and forgets down to the number the plan's retention gives, which is the backup's own; the plan names the repository and its schedule is disabled |
| `JobVolumes.PVCBackupPaths` | internal/controller/host_sync.go:60-74 | The paths shown on the host are the paths a Job over all claims backs up |
| `JobVolumes.BuildVolumes` | internal/controller/pvcbackup_controller.go:1007-1045 | One volume and one mount of the same name per claim, in order, and the paths to back up |
| `JobVolumes.VolumeNamesDistinct` | internal/controller/pvcbackup_controller.go:1015-1017 | Volume names are pairwise distinct |
| `JobVolumes.DefaultMountsArePaths` | internal/controller/pvcbackup_controller.go:1013-1025 | Without explicit paths the mounts and the backed-up paths are the same list |
| `JobVolumes.RootMeansDefault` | internal/controller/pvcbackup_controller.go:1009-1013 | A single root or empty path means the default paths /data/ and the claim, and every other list of paths is backed up as it is |
| `JobVolumes.ExplicitPathsMounted` | internal/controller/pvcbackup_controller.go:1026-1042 | With explicit paths every path is mounted if and only if those beyond the number of claims repeat earlier ones |
| `JobVolumes.ExplicitMountsDistinct` | internal/controller/pvcbackup_controller.go:1026-1042 | With explicit paths no two claims share a mount path if and only if each has a path of its own and these differ |
| `JobVolumes.DefaultMountsDistinct` | internal/controller/pvcbackup_controller.go:1160-1166 | Without explicit paths every claim is mounted at /data/ and its name, and no two share a path if and only if they are distinct |
| `JobVolumes.ClonePaths` | internal/controller/pvcbackup_controller.go:281-312 | A Job over a snapshot's clone backs up what the host shows if and only if the paths are explicit or the names sanitize alike |
| `Admission.ValidateBackup` | internal/webhook/validation.go:44-70 | Accepts exactly the acceptable backups, and each refusal gives the first reason that applies |
| `Admission.PipelineFailsIff` | internal/controller/pvcbackup_controller.go:281-298 | As long as snapshots are taken, the pipeline loop fails exactly on the snapshot steps the admission check refuses, for any pipeline length |
| `Admission.AcceptedPipelineRuns` | internal/webhook/validation.go:55-66 | An accepted backup has a non-empty claim list and reaches neither the failure for missing claims nor the two snapshot failures, for any pipeline |
| `Admission.AcceptedLocks` | internal/controller/repo_busy.go:58-68 | An accepted backup takes part in the session lock unless all of its listed claim names are empty |

## Left out

Assumptions of the protocol model:

- Lists hold every object once; reads see the current objects and do not fail; deleting a Job and listing Jobs succeed, and
  a deleted Job is gone at once.
- A restore lists its holders, interrupts them and creates its Job in one step, and a backup makes its re-check and creates
  its Job in one step: the code takes no lock there, and the races inside are not modelled.
- Restores run without quiesce and without quiesce targets: `persistRestoreQuiesce` copies back annotations but not the
  resource version (internal/controller/pvcrestore_controller.go:284-296), so the status write at 251 would conflict.
- The spec of an object does not change after its creation.
- Replica counts are unbounded integers; the API server keeps them within 32 bits, so the truncation at
  internal/controller/pvcbackup_controller.go:891 never bites.
- Restores have no other writer, so their resource versions are not modelled.
- A Job is finished when it counts a success or a failure, which is the code's own test, not the Job's conditions.
- Custom resources are not deleted, and finalizers are only modelled on the host's side.
- The cron expression is an abstract function from a second to the next slot; its own parsing is not modelled, and a
  timestamp in the status is always one the operator wrote.
- The quiesce record is a map, not its JSON text; an absent annotation is the empty map.
- A status write that changes nothing still raises the resource version here.
- Requeue times, metrics, conditions, logs, watch filters, secret mirroring and the sync to the host during a poll have no
  effect on the protocol state and are not part of it.
- Snapshot and clone objects: taking a snapshot, waiting for it and cloning is one call that succeeds or fails.
- Deleting a pod and waiting for it is one call that succeeds or fails.
- Lower-casing and case-insensitive comparison are those of ASCII.

What is claimed only under a condition:

- Exclusion.SessionMutualExclusion: the status writes that follow the creation of a Job get through; `LaunchHoldsIff` and
  `RestoreHoldsIff` give the exact effect of losing one, and `ExclusionWithLostWrites` the case in which it does no harm.
- Preemption.PreemptionPostcondition: the two writes of fail() get through, and the status names the unfinished Jobs of the
  backup or its scan can recognise them, which `LandedRunsCovered` and `ShortNamesCovered` establish.
- Uploading.UploadingNamesLatestJob: the backup's name has up to 42 characters, Unix times have ten digits, two of its runs
  that get as far as their Job start in different seconds, and the names of other backups of its namespace keep apart from
  it in the sense of `JobNames.KeepsApart`.
- Schedule.StartsWithinSlots: a Job whose status write was lost is adopted before it ends, or the step that ends it dates
  the attempt; beyond 52 characters, where no Job is adopted, the write lands. The object was not created in the future.
- Isolation.NoBackupJobDuringPrune: names have up to 46 characters or are confusable; `Examples.BackupJobBesidePrune` shows
  all the others.
- Exclusion.AdoptionClassifies: not for confusable names of 47 to 52 characters; `AdoptionConfuses` shows all of these.
- Concurrency.NoWriteConflicts: no annotation is written on a backup between its claim and its Job, and the status write
  of a preemption that meets an open run gets through.
- Replicas.ReplicasConserved: targets are distinct existing StatefulSets and Deployments, the backup quiesces and does not
  leave them down, and the steps are careful in the sense of `Replicas.Careful`: while its counts are away from its targets
  or it rests, other backups and users leave these targets' counts alone, which a backup that lists none of them always
  does (`ApartLeavesCounts`). What a careless step costs is shown for a crash, another active backup of the same workload,
  the lost status writes of a completion and of a preemption, the failed patch of a launch, a scale fault, a Job that ends
  before it is adopted, and a release with nothing recorded; not for a failed clearing of the record, nor for a user's
  scaling. Pods have no count to conserve.
- HostConfig.Host.UpsertRepo: adding a repository is a request to the host, and what the host does with it is not modelled.
- Progress.RunsAtOnce: two steps with nothing in between; nothing is claimed of waiting over whole runs, where a backup in
  phase Quiescing with a pending force-prune keeps returning at internal/controller/pvcbackup_controller.go:114-117 until
  its Job ends or a cancel comes.
- Mounts.OneJobPerClaim: as for `Exclusion.SessionMutualExclusion`, and clones of snapshots are set aside, since nothing
  locks them.
- Outcomes.PruneStarted: where no call fails and the printed name is free.
- Outcomes.RestoreSuccessMeansJob: that the Job is the restore's own, for names of less than 63 characters.

Not modelled at all:

- The check script, whose loop needs reserved words of the shell that the lexer refuses.
- Download URLs, operations and snapshot listings of the Backrest client; cluster, repository, plan and download
  controllers; MCP tools, metrics, logging and filters.
- The other kinds of the admission check: they test single fields.
- `jobRetries`, environment variables and other fields of the Job templates.
