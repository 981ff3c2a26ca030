# Verification of the EBS snapshot restore operator

The operator restores the PersistentVolumeClaims of StatefulSets from VolumeSnapshots. One call of
`Reconcile` validates the plans of a custom resource, runs hooks, scales workloads down, replaces the
claims, scales up and runs hooks again. Any API call can fail, so a call can stop anywhere; the next one
finds its way by the status of the resource. This project models that protocol and proves what holds over
all sequences of such calls.

## How the model is built

- `Api` has the custom resource, `Kube` the cluster: a class whose fields are the objects, and one method
  for each API call. Every call may fail, and a failed write may still have taken effect. Between two
  observations of a poll the cluster moves within stated limits (`SetsMayBecome`, `ClaimsMayBecome`,
  `JobsMayBecome`); between two passes it may change at will, but for the status and the ConfigMaps of
  hooks. Ghost fields keep the log of what the operator did and saw, every value of the stored status,
  the claims present at every moment, and the number of status writes that returned an error. The log
  records calls, whatever the answer; of deletions and creations of claims it also records whether they
  took effect, as an error does not tell.
- `StatusManager`, `Validate`, `Scale`, `Restore`, `HookJobs`, `Hooks`, `HookEngine` and `Controller` have
  one method for each Go function, with its loops, branches and order of calls. Loops over Go maps go
  through `Enumerate`, in any order. The body of a long function is spread over several methods.
- The goroutines of a fan-out are threads that make one API call per step; `HookJobs.ExecuteAll` picks the
  next thread at will.
- `Passes` describes one call of `Reconcile` by the moments between its stages, `PassLaws` has what holds
  of each, `Runs` what holds of any number of them in a row. `Runs.Requeue` shows that what the methods do
  is such a run.
- The log says of the cluster only what it showed: sightings are taken down by methods of `Cluster` that
  require them to be so, and no other module writes the log. `References` has what a pass does to claims in
  terms of the spec.
- `Losses` has what becomes of claims over whole runs, and `LossExample` a run that loses one.
- `Calendar`, `Names`, `HookList`, `Locks`, `Claims` and `HookLaws` have the theory behind snapshot times,
  names and checksums, the list of hook results, the lock flag, the effect of a restore, and hooks under
  the names the operator uses.

## What the proofs found

- The flag `lock` is declared outside the loop over the plans (`internal/validate/manage_validate.go:39-52`). A locked plan locks the
  plans visited after it, although they were never restored, and they never will be. `Locks.NeverLeaksIff`
  says exactly when this cannot happen. The documentation says that a plan is locked once its restore
  completes (README.md:31-32).
- The lock is honoured only for plans still in the spec (`internal/restore/manage_restore.go:44-48`): a plan removed from the spec is
  restored again by every pass that gets that far (`PassLaws.StalePlansAreRestoredAgain`).
- A StatefulSet deleted to change its pod policy is not created again if the operator stops, or the short
  wait times out, before the creation and the deletion goes through: from that alone `Scale.RetryScaleUp`
  does not recover. A set that is marked for deletion and still there keeps its end state.
- A retry does not bring back a claim that an interrupted pass deleted. The next pass lists the claims there
  are (`internal/validate/manage_validate.go:110-118`), so the missing one is in no reference and nothing is done about it: with other
  claims selected the plan is locked and completed without it, with none validation refuses the plan.
  `Losses.LostIffInterrupted` says by the log alone when a claim is lost, `Losses.MissingAtTheLockIff` when
  a retry fails to bring it back: exactly if no reference that pass is to restore names it, and none can
  once the claim is gone (`Losses.GoneForGood`). `LossExample.ARunLosesAClaim` follows a run that loses a
  claim write by write. A lock therefore means that the references recorded by the pass that closed it were
  restored, not all claims.
- A claim that is absent when its restore begins cannot be restored: the copy has no name
  (`internal/restore/manage_restore.go:87-95`), and `Restore.RestorePVC` shows that this is always an error. It takes a claim deleted
  by others during the pass, or a plan no longer in the spec with its old references.
- When the ConfigMap of an immutable hook cannot be read the pass ends without the phase Failed
  (`internal/hooks/manage_hooks.go:205-208`): the status stays at RunningPreHooks or RunningPostHooks.
- Two mutable hooks of a plan that share a Job name and want different things run again in every pass, as
  the result of one is outdated for the other. A hook on nodes `a` and a hook `a-<hash of a node>` do
  (`HookLaws.NamedAfterNodeIsRival`).
- Snapshots of a plan named `p-x` are taken for snapshots of a plan named `p`, and sort above all times
  (`Validate.PlanNamesCanClash`).
- Plans whose names differ by `-rh` can give two hooks one Job name (`Names.PlansCanClashIff`).
- A word moved between command and arguments does not make a mutable hook run again
  (`Names.ChecksumBlindSpots`), while the documentation says any change does (api/v1alpha1/hooks_types.go:84-88).
- Each pass rewrites the phases of the targets (`internal/validate/manage_validate.go:267`), so a completed resource need not have
  completed targets; the fixed point is stated for everything but the status.
- `originalReplicas` is the count the spec asks for (`internal/validate/manage_validate.go:222`), not the count before scaling down that
  the type documents (api/v1alpha1/status_type.go:129-131).

## Model

| member | source | states |
|---|---|---|
| `Runs.RestoredAtMostOnce` | internal/restore/manage_restore.go:38-48 | over every sequence of passes, stopped anywhere and with any edits of the spec that keep the plan: once a pass began with the plan locked, no claim is deleted, created, patched or reported restored on its behalf, in that pass or any later one |
| `Runs.LockAndRestorePointStay` | internal/validate/manage_validate.go:47-52 | over every such sequence a lock never opens again, and the non-empty time a plan is locked to is the time every later pass stores, at its start and its end, whatever the spec says by then |
| `Runs.RestorePointStays` | internal/validate/manage_validate.go:47-92 | one pass, on all outcomes of validation and however it ends, keeps a lock and the time locked to |
| `Runs.StagesMoveForwards` | internal/status/manage_status.go:104-132 | in every run of a new resource every single write of the status moves each plan at most one stage, from not restored over locked to scaled up, never back and never past one, and leaves a locked time alone |
| `Runs.CompletedCanBeTrusted` | internal/controller/ebssnapshotrestore_controller.go:144-154 | in every run of a new resource, whenever phase Completed is what is stored after a pass, some pass of the run stored it with every plan of the spec it worked on locked and counted as scaled up, and nothing was stored since |
| `Runs.OrderlyIsMonotone` | internal/status/manage_status.go:104-132 | read off such a history: any two stored values, however far apart, order lock, scale-up count and locked time; a plan counted as scaled up is locked |
| `Runs.SinglePlanLockIsSound` | internal/validate/manage_validate.go:39-52 | with one plan in the spec throughout: if the plan is locked, some earlier pass of the run restored every reference its validation recorded and that is not to be skipped |
| `Runs.SinglePlanLockIsEarned` | internal/restore/manage_restore.go:50-80 | one pass over a single plan closes its lock for no other reason than that its restore went through |
| `Runs.LeakedPlansAreNeverRestored` | internal/validate/manage_validate.go:39-52 | a plan locked by validation for the lock of another plan is never restored, in that pass or any later one |
| `Runs.InterruptedRestoreIsFinished` | internal/scale/manage_scale.go:83-127 | a pass that finds a plan locked but not counted as scaled up brings it up, counts it, and touches no claim for it |
| `Runs.DoneHooksRestForever` | internal/hooks/manage_hooks.go:260-298 | a recorded result that every hook of its name takes as done stays recorded as it is, and no Job is created for it in the rest of the run |
| `Runs.SucceededHooksNeverRunAgain` | internal/hooks/manage_hooks.go:260-298 | after a success is recorded under a name no mutable hook has, no Job is created under it again, whatever the spec is edited to |
| `Runs.FirstAttemptDecides` | internal/hooks/manage_hooks.go:637-646 | any two Jobs ever created under a name no mutable hook has run the same command and arguments, despite edits of the spec in between |
| `Runs.ConfigsHoldWhatSpecsSaid` | internal/hooks/manage_hooks.go:754-841 | in every run: what a ConfigMap of hooks holds that was not there at first, the spec of some pass so far gave as command and arguments of the hook it is named after |
| `Runs.JobsRunWhatSpecsSaid` | internal/hooks/manage_hooks.go:637-646 | so every Job under a name no mutable hook has runs the command and the arguments that the spec of some pass gave for the hook it is named after |
| `Runs.JobsRunAsFrozen` | internal/hooks/manage_hooks.go:754-776 | all Jobs created so far under such a name ran what its ConfigMap holds, at the end of every pass |
| `Runs.HookResultsAreSound` | internal/status/manage_status.go:134-153 | in every run of a new resource, whatever status writes failed: no key occurs twice in the hook list of a plan, and every success recorded is backed by the log: the creation of the Job was requested, and it was later seen to succeed |
| `Runs.NoPreRestoreJobsEver` | internal/hooks/manage_hooks.go:268-272 | once a pass began with the plan locked, no Job of a hook before the restore is created for it by that pass or a later one |
| `Runs.CompletionIsFinal` | internal/controller/ebssnapshotrestore_controller.go:66-157 | the fixed point, in a run whose spec edits keep all plans: after a pass completes without a lost status write, no later pass writes anything but the status, whether or not its validation succeeds, as long as spec and nodes stay and no two mutable hooks of a plan want one Job to have run different things |
| `Runs.CompletionIsFinalIff` | internal/controller/ebssnapshotrestore_controller.go:66-157 | that premise is the exact one: for a later pass that completes without a lost write too, the log is as it was exactly when no two hooks are such rivals |
| `Runs.SettledForever` | internal/controller/ebssnapshotrestore_controller.go:66-157 | from a settled status on every later pass leaves the event log and the ConfigMaps as they are, and the status settled |
| `Runs.StatusFollowsSpec` | internal/controller/ebssnapshotrestore_controller.go:84-94 | in a run whose spec edits keep all plans, the status never lists a plan the spec does not |
| `Runs.NextPass` | internal/controller/ebssnapshotrestore_controller.go:66-157 | edits of the spec and changes of the cluster, then one call of `Reconcile`, are a pass that carries on from where the last one ended |
| `Runs.Requeue` | internal/controller/ebssnapshotrestore_controller.go:152-157 | any number of such calls in a row is a run: what is proved of runs is proved of the program |
| `PassLaws.ScaledDownBeforeRestore` | internal/controller/ebssnapshotrestore_controller.go:112-126 | before any claim is touched in a pass, every plan that validation found unlocked has, in this pass, had first all its operators and then all its clusters brought to zero and, unless waiting is skipped, then seen with a status that shows no replica |
| `PassLaws.OperatorThenClusterThenClaim` | internal/controller/ebssnapshotrestore_controller.go:112-126 | event by event, for any operator and any cluster of such a plan: the operator is found or set at zero, and unless skipped seen without a replica, before the cluster is; and the cluster likewise before the claim is touched |
| `PassLaws.RestoredPlansWereUnlocked` | internal/restore/manage_restore.go:44-48 | a claim touched for a plan of the spec is touched for a plan that validation left unlocked and that was scaled down in this pass |
| `PassLaws.LockedPlansKeepTheirClaims` | internal/restore/manage_restore.go:44-48 | no claim is touched for a plan of the spec that was locked when the pass began |
| `PassLaws.ClaimEventsAreOfTheRestore` | internal/controller/ebssnapshotrestore_controller.go:120-126 | claims are touched in the restore stage only, and only for plans that stage does not skip |
| `PassLaws.StalePlansAreRestoredAgain` | internal/restore/manage_restore.go:38-48 | a plan the status lists but the spec no longer does is restored by every pass that gets that far, all its references not to be skipped, even if it is locked |
| `PassLaws.LocksStayClosed` | internal/status/manage_status.go:88-132 | a lock seen between two stages of a pass is seen between all later ones; hooks and scaling neither open nor close one |
| `PassLaws.CompletionMeansDone` | internal/controller/ebssnapshotrestore_controller.go:128-154 | a pass that reaches the hooks after the restore leaves every plan of the spec locked and counted as scaled up, whatever the hooks do |
| `PassLaws.CompletedMeansDone` | internal/controller/ebssnapshotrestore_controller.go:84-154 | every value of the status a pass stores with phase Completed, whether or not that write was reported to fail, has every plan of the spec locked and counted as scaled up; no other write of the pass stores that phase |
| `PassLaws.NewLocksAreEarned` | internal/restore/manage_restore.go:50-80 | a plan that was unlocked and ends a pass locked was either locked by validation already, or the log of this pass reports every reference recorded for it that is not to be skipped |
| `PassLaws.DoneHooksRest` | internal/hooks/manage_hooks.go:260-298 | one pass keeps every result that all hooks of its name take as done, and runs no Job for it |
| `PassLaws.NoPreRestoreJobsOnceLocked` | internal/hooks/manage_hooks.go:268-272 | a Job of a hook before the restore is created only for a plan of the spec that was unlocked when the pass began |
| `PassLaws.ConfigsStayFrozen` | internal/hooks/manage_hooks.go:754-776 | the ConfigMap of a name no mutable hook has is never changed, and the Jobs of the pass under that name run what it holds |
| `PassLaws.NewConfigsHoldWhatSpecSays` | internal/hooks/manage_hooks.go:754-841 | a ConfigMap a pass creates or changes has the command and the arguments the spec gives for the hook it is named after |
| `PassLaws.JobsAreCalledFor` | internal/hooks/manage_hooks.go:131-188 | every Job created is the Job of some hook of the spec, for its plan, event and node; that of a mutable hook runs a command with the checksum of the spec |
| `PassLaws.HookResultsStaySound` | internal/hooks/manage_hooks.go:300-308 | one pass keeps hook keys unique and adds no success without a Job whose creation was requested and that was then seen to succeed |
| `PassLaws.SettledPassWritesNothing` | internal/controller/ebssnapshotrestore_controller.go:66-157 | from a settled status one pass writes nothing but the status, wherever it stops, and ends settled |
| `PassLaws.CompletionSettles` | internal/controller/ebssnapshotrestore_controller.go:128-154 | a pass that completes without a lost status write settles the status, if no two hooks are rivals and no plan is left over |
| `PassLaws.CompletionSettlesIff` | internal/controller/ebssnapshotrestore_controller.go:128-154 | the status such a pass ends with is settled exactly when no two hooks are rivals |
| `PassLaws.RivalsRunAgain` | internal/hooks/manage_hooks.go:260-298 | of two mutable hooks of a plan that share a Job name and want different things one is never skipped: every pass that completes without a lost write requests the creation of a Job under that name again |
| `PassLaws.TargetsStayInStep` | internal/scale/manage_scale.go:83-111 | whenever targets are scaled or restored by position, the entries of the status are those of the spec in the same order, by name, namespace and kind, at all five moments between the stages |
| `References.TouchedClaimsAreAskedFor` | internal/restore/manage_restore.go:50-66 | whatever a pass does to a claim for a plan of the spec, a cluster of that plan selects the claim and does not list it to be skipped; a claim reported restored is from the snapshot named claim-plan-time, with the time recorded for the plan, on the class the spec gives or else the one the claim had |
| `References.SkippedClaimsAreLeftAlone` | internal/restore/manage_restore.go:54-58 | a claim that every cluster of a plan selecting it lists to be skipped is never touched for that plan |
| `References.RestoredAsAsked` | internal/restore/manage_restore.go:50-163 | from spec to result: after a pass that gets through the restore a claim to be restored is there, filled from the snapshot named after the claim, a plan that asks for it and its time, on the class asked for; labels, annotations, access modes, size and volume mode are as before |
| `PassLaws.ClaimsChangeInTheRestore` | internal/controller/ebssnapshotrestore_controller.go:120-126 | no other stage of a pass changes a claim |
| `PassLaws.LostClaimIsForgotten` | internal/validate/manage_validate.go:110-118 | a claim that is missing when a pass begins is named by no reference recorded for a plan of the spec, touched for none, and still missing at the end; a pass that gets through the restore locks every plan of the spec all the same |
| `Controller.Reconcile` | internal/controller/ebssnapshotrestore_controller.go:66-157 | every call is a pass; a completed pass and a failed hook are looked at again after 30 seconds, other errors are retried, a missing resource needs nothing; when a hook failed the phase is Failed or a status write was lost, when it could not be read what an immutable hook is to run the phase stays at what was announced; other errors show as phase Failed unless a write was lost or hooks were about to run |
| `Controller.Stages` | internal/controller/ebssnapshotrestore_controller.go:84-156 | the stages in their order with their early exits, which exit requeues and which retries, and what the phase shows of each |
| `Controller.HookStage` | internal/controller/ebssnapshotrestore_controller.go:96-110 | without a lost status write every Job of every hook of the event was skipped before or requested now, and all hooks are done afterwards unless two are rivals; if they all were done before, nothing is written but the phase; told apart are an error before the hooks, a ConfigMap that could not be read, which leaves the announced phase and takes an immutable hook, and a failed hook, which shows as phase Failed |
| `Controller.Scaling` | internal/controller/ebssnapshotrestore_controller.go:112-118 | scaling after its announcement: every plan of the spec skipped or brought all the way, and on success the object equals what is stored; after scaling down every workload of a plan not skipped that is there asks for no replica, and the restore that follows changes no workload |
| `Controller.RestoreStage` | internal/controller/ebssnapshotrestore_controller.go:120-126 | the restore after its announcement, with the same promise |
| `Validate.ValidateListSnapshots` | internal/validate/manage_validate.go:38-103 | each plan visited comes out with the lock flag as it stood when it was visited, that is the disjunction of the locks of all plans visited so far; other plans are untouched; success means all plans passed at the time they had to be checked at; a refusal shows as phase Failed |
| `Validate.ValidateHeld` | internal/validate/manage_validate.go:44-52 | the flag with this plan visited, and the locked time put before the one of the spec |
| `Validate.ValidateNext` | internal/validate/manage_validate.go:44-99 | one iteration: only this plan changes, its hooks and count excepted; it becomes the active plan while none was refused |
| `Validate.ValidatePlan` | internal/validate/manage_validate.go:54-99 | a passed plan has an accepted time, the given one or else the latest there is, and exact references for every target; a refused plan is marked failed, active, and shows which target and error refused it |
| `Validate.ValidateLatest` | internal/validate/manage_validate.go:54-92 | a plan without a restore time passes at the latest time there is, which is an accepted one, and never while a stray name sorts above all accepted times |
| `Validate.ValidateAt` | internal/validate/manage_validate.go:68-92 | the same for a given time, which is what is recorded on both outcomes |
| `Validate.FailPlan` | internal/validate/manage_validate.go:138-150 | the refusal is stored with the time and lock passed in, the plan made active, and the phase set to Failed |
| `Validate.FetchClusterResources` | internal/validate/manage_validate.go:105-136 | the claims are exactly those the selector picks in the namespace, and if there are none it is an error; the snapshots exactly those of the namespace, or of it and of the time |
| `Validate.LatestSuffix` | internal/validate/manage_validate.go:172-185 | the suffix found is attained at some claim and snapshot and exceeded at none, in byte order |
| `Validate.LatestOfCluster` | internal/validate/manage_validate.go:158-190 | the time is that of a snapshot of a selected claim for this plan, and no such snapshot has a greater one |
| `Validate.FindLatestSnapshotTime` | internal/validate/manage_validate.go:152-200 | over all clusters the time is attained and nowhere exceeded; on an error the entries end with the target that failed |
| `Validate.LatestIsLatestInTime` | internal/validate/manage_validate.go:192-199 | if the time found is an accepted one, no snapshot with an accepted time is later in the calendar |
| `Validate.LatestIsAcceptedIff` | internal/validate/manage_validate.go:158-199 | the time found is an accepted one exactly when every snapshot name of a selected claim that has the prefix of the plan but no accepted time after it sorts below one that has; and exactly when some accepted time is exceeded by none |
| `Validate.OtherPlansSnapshotIsStray` | internal/validate/manage_validate.go:172-185 | a snapshot of a plan whose name goes on from this one after a dash counts as one of this plan, under a time that is not accepted |
| `Validate.PlanNamesCanClash` | internal/validate/manage_validate.go:172-185 | whatever plan, claim and rest of the name: the snapshots of a plan named like this one, a dash and a letter on, count for this one and sort above all accepted times, so that its restore time cannot be found |
| `Validate.JoinSnapshots` | internal/validate/manage_validate.go:236-258 | every pair that matches by name is joined once, with its ready snapshot; an error means some matching snapshot is not ready |
| `Validate.MatchingIsInjective` | internal/validate/manage_validate.go:238-238 | two claims match the same snapshot name only if they have the same name |
| `Validate.MatchesIff` | internal/validate/manage_validate.go:172-238 | a snapshot is joined exactly when its name is the prefix the search for the latest time looks for, followed by the time |
| `Validate.JoinedIsCandidate` | internal/validate/manage_validate.go:172-238 | so every snapshot joined is one that search takes for a snapshot of that time |
| `Validate.JoinIsExact` | internal/validate/manage_validate.go:236-269 | the references are exactly the selected claims with a ready snapshot named claim-plan-time, each claim once, no matching snapshot unready |
| `Validate.ValidatedRefsAreAsAsked` | internal/validate/manage_validate.go:236-269 | of every reference a passed validation records: claim-plan-time is the name of a snapshot that is there, ready and has the recorded UID; the claim is there and selected; the class is that of the spec or else that of the claim; it is to be skipped exactly if the spec lists it |
| `Validate.ValidateCluster` | internal/validate/manage_validate.go:209-269 | a target that passed is recorded with what its StatefulSet has, and a non-empty exact join of references; a target that selects no claim never passes |
| `Validate.ValidatedRefsArePresent` | internal/validate/manage_validate.go:110-118 | every reference recorded by a passed validation names a claim that is there, and that a cluster of the plan selects |
| `Validate.ValidateClusters` | internal/validate/manage_validate.go:209-269 | all clusters in order, or those before the one that failed and then that one |
| `Validate.ValidateOperators` | internal/validate/manage_validate.go:271-290 | all operators in order, or those before the one that failed and then that one |
| `Validate.ValidateSnapshot` | internal/validate/manage_validate.go:202-293 | all targets of a plan at one time, or entries that end with the failed target |
| `Validate.ValidateSnapshotTime` | internal/validate/manage_validate.go:316-323 | the time is parsed field by field, and accepted exactly when it is twelve digits that name a minute of the calendar |
| `Validate.BuildFailedClustersStatus` | internal/validate/manage_validate.go:301-314 | one failed entry for each cluster, in order, with the error, the replicas of the spec and no reference |
| `Validate.NewRef` | internal/validate/manage_validate.go:239-255 | a reference is built exactly if the snapshot is ready; it has the name of the claim, UID and name of the snapshot, the storage class of the spec if it names one and else that of the claim, and is marked to be skipped exactly if the spec lists the claim |
| `Calendar.StampOrderIsTimeOrder` | internal/validate/manage_validate.go:181-194 | on accepted times byte order is the order of minutes, from year 0000 to 9999, leap years included |
| `Calendar.LessIff` | internal/validate/manage_validate.go:181-194 | one string is below another exactly when at the first difference its byte is the smaller, or it ends there |
| `Calendar.Parse` | internal/validate/manage_validate.go:317-317 | reading year, month, day, hour and minute one after the other, the hour with one digit or two, ends well exactly for twelve digits that name a minute of the calendar, and with that minute |
| `Calendar.AcceptedIffCivil` | internal/validate/manage_validate.go:316-323 | which stamps these are, by the closed form of the Gregorian calendar with years from March: month from 1 to 12, day before the first of the next month, hour to 23, minute to 59 |
| `Calendar.DaysAreCivil` | internal/validate/manage_validate.go:316-323 | counting days by years and months, leap years included, gives the day number of that closed form |
| `Calendar.MonthsAreCivil` | internal/validate/manage_validate.go:316-323 | every month has the days between its first and the first of the next in that closed form |
| `Calendar.WrittenIsRead` | internal/validate/manage_validate.go:316-323 | a minute of the years 0 to 9999 written in twelve digits is accepted and read back as it was |
| `Calendar.ReadIsWritten` | internal/validate/manage_validate.go:316-323 | an accepted stamp is what is written for the minute it is read as |
| `Calendar.MinutesAreConsecutive` | internal/validate/manage_validate.go:316-323 | the count of minutes is that of a clock: one tick, carried through hour, day, month and year, adds one |
| `Calendar.YearIsItsMonths` | internal/validate/manage_validate.go:316-323 | the months fill each year exactly, 365 or 366 days |
| `Locks.PlanLockedIff` | internal/validate/manage_validate.go:39-52 | validation leaves locked exactly the plans from the first it visits that was locked before on |
| `Locks.NeverLeaksIff` | internal/validate/manage_validate.go:39-52 | no order of visits leaks a lock exactly when all plans were locked before, or none was |
| `Locks.LeakExample` | internal/validate/manage_validate.go:39-52 | two plans, one locked: in one order of visits the other comes out locked without a restore |
| `Locks.SinglePlanKeepsItsLock` | internal/validate/manage_validate.go:39-52 | with a single plan validation leaves its lock as it was |
| `Locks.LocksStay` | internal/validate/manage_validate.go:47-52 | validation opens no lock, and keeps the time locked to, at every point of the pass |
| `Restore.RestoreFromPlan` | internal/restore/manage_restore.go:37-84 | ranges over the plans the status had; locked plans of the spec are untouched; a plan turns locked only once all its references not to be skipped are reported restored; claims follow the reports; a failure names its target and shows in the phase |
| `Restore.RestoreNext` | internal/restore/manage_restore.go:38-81 | one iteration: announced, then skipped without an event, or restored and locked, or failed and recorded |
| `Restore.RecordRestoreFailure` | internal/restore/manage_restore.go:60-72 | a failed restore stores the progress with the plan unlocked, then phase Failed |
| `Restore.RestoreTargets` | internal/restore/manage_restore.go:53-76 | targets in order; on an error exactly the entry of the failing target is marked failed, those before it restored, those after it as they were |
| `Restore.RestoreTarget` | internal/restore/manage_restore.go:54-73 | references in order, those to be skipped without any event |
| `Restore.RestorePVC` | internal/restore/manage_restore.go:86-134 | success: same labels, modes and size, data source and storage class of the reference, bound to a volume provisioned for this very claim; any end: the claim is old, new or gone, all others as decided before, and never more than this one missing; a claim that was absent is an error |
| `Restore.BuildPVCFromExisting` | internal/restore/manage_restore.go:136-163 | what a user decided about the claim stays but for storage class and data source; what the server records is blank |
| `Restore.WaitPVCDeleted` | internal/restore/manage_restore.go:165-182 | ends well only when the claim is gone |
| `Restore.WaitPVCBound` | internal/restore/manage_restore.go:184-196 | ends well only when the claim is there and bound |
| `Restore.WaitPVProvisioned` | internal/restore/manage_restore.go:198-218 | the volume is one whose claim reference has this name, namespace and UID |
| `Claims.AtMostOneClaimMissing` | internal/restore/manage_restore.go:97-112 | at every moment of a pass, however it ends, at most one of the claims there were is missing |
| `Claims.ClaimNamesAreConserved` | internal/restore/manage_restore.go:53-83 | after a pass that got through the restore, the claims have the names they had; only those already being deleted may be gone |
| `Claims.ReferencedClaimsAreRestored` | internal/restore/manage_restore.go:53-83 | after a restore that went through, the claim of a reference not to be skipped has the snapshot and the storage class of such a reference to it and is otherwise, labels included, as it was; if several name it, one of these |
| `Claims.AgreedClaimsAreRestored` | internal/restore/manage_restore.go:53-83 | references that name one claim and agree leave no choice |
| `Claims.LastReportDecides` | internal/restore/manage_restore.go:60-76 | of all reports about a claim the last decides what it looks like |
| `Claims.UnnamedClaimsStay` | internal/restore/manage_restore.go:53-83 | a claim no such reference names is as it was, however the restore ended, but for the one under way |
| `Claims.AgreeingReportsDecide` | internal/restore/manage_restore.go:60-76 | reports that agree decide what a claim looks like, in any order and any number |
| `Losses.LostIffInterrupted` | internal/restore/manage_restore.go:97-112 | in every run in which only the operator deletes claims: a claim there at the first pass is missing after a pass exactly when the log shows that this pass or an earlier one ended within the restore with the deletion of the claim as its last effect on it, and that in no pass since its creation was the last effect |
| `Losses.NeverInterruptedNeverLost` | internal/restore/manage_restore.go:97-112 | without a pass that ended so over the claim no run loses it |
| `Losses.MissingAtTheLockIff` | internal/restore/manage_restore.go:38-80 | exactly when a retry brings a lost claim back: after a pass that gets through the restore, and so locks the plans, a claim is missing exactly when it was lost before that pass began and no reference the pass is to restore names it |
| `Losses.ThereAfterRestoreIff` | internal/restore/manage_restore.go:38-80 | what a pass that gets through the restore makes of a claim can be told before the restore: it is there afterwards exactly when it was there and not marked for deletion, or a reference to be restored names it |
| `Losses.LiveAsLogged` | internal/restore/manage_restore.go:87-112 | however a pass ends, whether a claim is there afterwards follows from whether it was before and from the deletions and creations that the log says took effect |
| `Losses.LossIsInterruption` | internal/restore/manage_restore.go:97-112 | a pass loses a claim only by ending within the restore with the deletion of the claim as its last effect on it, creations without effect notwithstanding, and it is the one claim under way |
| `Losses.RevivalIsLogged` | internal/restore/manage_restore.go:87-112 | a pass brings a missing claim back only by creating it, while the claim marked for deletion is still there to be copied |
| `Losses.SavedInTime` | internal/restore/manage_restore.go:87-112 | a pass that gets through the restore brings a lost claim back exactly when it restores a reference to it, and then the claim was still there to be copied |
| `Losses.GoneForGood` | internal/restore/manage_restore.go:87-95 | a claim that is gone when a pass begins is gone after it and after all later ones |
| `Losses.LockedWithoutTheClaim` | internal/validate/manage_validate.go:110-118 | from then on no pass refers to it for a plan of the spec, and each that gets through the restore locks its plan |
| `Losses.RestoredIff` | internal/restore/manage_restore.go:44-58 | a pass that gets through the restore restores a recorded reference of a plan of the spec that is not to be skipped exactly when validation left the plan unlocked, restored before or not |
| `Losses.TouchedTwice` | internal/restore/manage_restore.go:50-80 | claims are touched for a plan in two passes only if the first ended within the restore with the plan not locked: a later reference failed, or the write of the lock was lost |
| `LossExample.ARunLosesAClaim` | internal/restore/manage_restore.go:97-112 | a plan with two claims, in any cluster that has them: the trace of two calls, every value stored and every call logged; the server refuses to create the first claim again and the pass ends as Failed, the second pass restores the other claim, locks the plan and completes |
| `LossExample.FirstWritesAreSetters` | internal/restore/manage_restore.go:38-80 | each value the first pass of the trace stores is what the setter of that step makes of the one before: idle, validating, the plan found and made active, the announcements, the scaling down, the refused restore, failed |
| `LossExample.SecondWritesAreSetters` | internal/restore/manage_restore.go:38-80 | so is each value of the second: the plan found again with the other claim alone, scaled down, restored and locked, scaled up, completed |
| `Scale.ScaleRestorePlan` | internal/scale/manage_scale.go:71-160 | every plan of the spec is skipped, untouched, or brought all the way with its count stored; with all plans skipped nothing is written but the status; a failure names its target and shows in the phase; after scaling down the workloads of plans not skipped that are there ask for no replica |
| `Scale.ScaleNext` | internal/scale/manage_scale.go:72-157 | one iteration, for a plan whose entries are in step with the spec |
| `Scale.RecordScaleFailure` | internal/scale/manage_scale.go:101-111 | a failure stores the progress with the scale-up count at zero, then phase Failed |
| `Scale.ScaleTargets` | internal/scale/manage_scale.go:99-156 | down: all operators, then all clusters; up: all clusters, then all operators |
| `Scale.DownInOrder` | internal/scale/manage_scale.go:99-156 | what the log shows of a plan brought down: each operator at zero and seen empty before any cluster is at zero, then each cluster seen empty |
| `Scale.UpInOrder` | internal/scale/manage_scale.go:99-156 | and of a plan brought up: each cluster at its count and seen ready before any operator is at its count, then each operator seen ready |
| `Scale.ProcessTargets` | internal/scale/manage_scale.go:43-69 | entry by entry the progress of the targets before the failing one, the failure at its own place, the rest as it was |
| `Scale.ScaleClusterDown` | internal/scale/manage_scale.go:162-212 | replicas at zero, and unless skipped the status of the set shows no replica, ready or not, when the call ends, and a poll saw it so; nothing else of this set or another changes |
| `Scale.ScaleOperatorDown` | internal/scale/manage_scale.go:310-362 | the same for a Deployment, available replicas included |
| `Scale.ScaleClusterUp` | internal/scale/manage_scale.go:214-308 | success: replicas the larger of old and target, a policy switched to Parallel back at OrderedReady, strategy and template as before; unless skipped or recreated the status shows all replicas ready, by the strategy of the set; both flags together are refused; on any end the set has the same end state still ahead, or is gone after a deletion to switch its policy |
| `Scale.ScaleOperatorUp` | internal/scale/manage_scale.go:364-415 | replicas the larger of old and target, and unless skipped the status shows all of them ready, updated and available; else the same end state still ahead |
| `Scale.RecreateWithPodManagementPolicy` | internal/scale/manage_scale.go:417-456 | success: the set is there with only the policy changed; on any end a set that is there is as it was, or with that policy |
| `Scale.UpGoalIsStable` | internal/scale/manage_scale.go:227-303 | the end state of scaling up is a fixed point, and a set left Parallel by an interrupted attempt has the same end state |
| `Scale.CountReturnsIff` | internal/scale/manage_scale.go:64-64 | a set scaled down and up again has the count it had before exactly when the spec asked for that count |
| `Scale.RetryScaleUp` | internal/scale/manage_scale.go:214-308 | any number of attempts with time going by in between: the one that goes through ends where the first would have, however the others were interrupted; if the set is gone, every attempt fails and it stays gone |
| `StatusManager.Patch` | internal/status/manage_status.go:39-61 | the stored status becomes the merge of the change into what is stored, or stays; nothing is sent if nothing changed; a failed write may or may not have been stored, and leaves the object changed |
| `StatusManager.MergeOfCurrent` | internal/status/manage_status.go:39-61 | patching an up-to-date status yields the mutated status: leaving out unchanged fields does not show |
| `StatusManager.MergeKeepsSync` | internal/status/manage_status.go:39-61 | an object that lags in hook results only lags in nothing else after any patch |
| `StatusManager.MergeOfPlan` | internal/status/manage_status.go:88-132 | a change of one plan that leaves its hooks alone does to the stored plan what it does to the object, even if hook results lag |
| `StatusManager.MergeOfHooks` | internal/status/manage_status.go:134-153 | recording a hook replaces the stored list of that plan as a whole, and nothing else |
| `StatusManager.SetInitStatusRestorePlan` | internal/status/manage_status.go:63-71 | only the phase changes, to Idle |
| `StatusManager.SetPhase` | internal/status/manage_status.go:74-79 | only the phase changes |
| `StatusManager.SetActivePlan` | internal/status/manage_status.go:82-86 | only the active plan changes |
| `StatusManager.SetValidateRestorePlan` | internal/status/manage_status.go:88-102 | of one plan lock, time and targets change, its hooks and count stay; the history stays orderly if the step is a legal one |
| `StatusManager.SetScaleRestorePlan` | internal/status/manage_status.go:104-117 | of one plan targets and count change, its lock, time and hooks stay |
| `StatusManager.SetRestoreFromPlan` | internal/status/manage_status.go:119-132 | of one plan targets and lock change, its count, time and hooks stay |
| `StatusManager.SettersWriteTheirFields` | internal/status/manage_status.go:88-150 | field by field what the three writes of a plan store, and what of the plan they keep |
| `StatusManager.SetHooksRestoreFromPlan` | internal/status/manage_status.go:134-153 | for a plan the status lists the object carries the result, the stored list is the old one or the new one, no other field or plan changes; for one it does not list an entry with the one result is stored |
| `StatusManager.StaysOrderly` | internal/status/manage_status.go:104-132 | a write that moves every plan by a legal step keeps a history orderly |
| `HookList.Record` | internal/status/manage_status.go:141-151 | the scan and assignment in place compute the list with the first entry of the key replaced, or a new last entry |
| `HookList.FindAfterUpsert` | internal/hooks/manage_hooks.go:274-293 | scanning after recording finds what looking up a map after updating it would |
| `HookList.UpsertKeepsTheRest` | internal/status/manage_status.go:141-151 | exactly one position changes, all other entries keep value and order |
| `HookList.UpsertKeepsUnique` | internal/status/manage_status.go:141-151 | unique keys stay unique |
| `HookList.UpsertAllIsMapUpdate` | internal/hooks/manage_hooks.go:745-749 | a whole sequence of results keeps keys unique and entries of other keys as found |
| `HookList.UpsertAllRecordsEach` | internal/hooks/manage_hooks.go:745-749 | results with distinct keys are each found afterwards |
| `HookList.CompletionOrderDoesNotShow` | internal/hooks/manage_hooks.go:730-741 | every order in which the threads of a fan-out end gives the results array, and the recorded list, of running them left to right |
| `Names.JobNamesFitALabel` | internal/hooks/manage_hooks.go:87-129 | the name of a hook Job, and of each of its Jobs on a node, has at most 63 characters, whatever plan, hook and node |
| `Names.JobNamesAreLabels` | internal/hooks/manage_hooks.go:87-129 | from plan and hook names made of lower-case letters, digits and inner dashes, every name of a Job, on a node or not, is again so made and has at most 63 characters |
| `Names.SchemeNamesJobs` | internal/hooks/manage_hooks.go:72-129 | names and checksums are taken of plan and hook, Job and node, command and arguments, in that order |
| `Names.TrimRightDashes` | internal/hooks/manage_hooks.go:104-111 | the longest prefix not ending in a dash |
| `Names.Shortened` | internal/hooks/manage_hooks.go:103-111 | all of a part of at most 25 characters, else of its first 25 all but the dashes they end in |
| `Names.ShortNamesAreWhole` | internal/hooks/manage_hooks.go:87-129 | names that fit 63 characters are plan, separator and hook as they are, and on a node the hash after a dash |
| `Names.TruncatedNameParts` | internal/hooks/manage_hooks.go:99-113 | a truncated name is what is left of the plan, the separator, what is left of the hook, a dash, and eight characters of the hash of the full name |
| `Names.PerNodeNamesDifferByHash` | internal/hooks/manage_hooks.go:116-129 | names on two nodes are equal exactly when the six hash characters are |
| `Names.PlansCanClashIff` | internal/hooks/manage_hooks.go:94-97 | hooks of two plans can share an untruncated name exactly when one plan name is the other followed by "-rh", or begins with the other followed by "-rh-" |
| `Names.UntruncatedNamesAreInjective` | internal/hooks/manage_hooks.go:94-97 | if no plan name contains "-rh-" or ends in "-rh", untruncated names determine plan and hook |
| `Names.TruncatedNamesDifferByHash` | internal/hooks/manage_hooks.go:99-113 | within a plan, truncated names differ when the hashes of the full names do |
| `Names.HookChecksum` | internal/hooks/manage_hooks.go:72-85 | the writer fed in two loops is fed the stream of command followed by arguments, and the checksum is the first eight characters of its digest |
| `Names.StreamRoundTrip` | internal/hooks/manage_hooks.go:74-82 | for strings without NUL the bytes hashed decode to exactly these strings |
| `Names.ChecksumsAgreeIff` | internal/hooks/manage_hooks.go:72-85 | without a collision two checksums are equal exactly when command and arguments read the same end to end |
| `Names.ChecksumBlindSpots` | internal/hooks/manage_hooks.go:72-85 | a word moved between command and arguments, and a NUL within a word, change no checksum |
| `HookJobs.ExecuteHookJob` | internal/hooks/manage_hooks.go:618-689 | the result names hook, event, image, mutability, restart policy and ConfigMap; success means that the creation of the Job was requested and the Job seen to succeed in this call, which it still shows, with the checksum of what the ConfigMap now holds, which for a mutable hook is that of the spec |
| `HookJobs.FetchConfig` | internal/hooks/manage_hooks.go:758-790 | the ConfigMap is to be created exactly if it is not there, patched exactly if it is, the hook is mutable and the checksums differ, and else is read |
| `HookJobs.WriteConfig` | internal/hooks/manage_hooks.go:792-841 | afterwards the ConfigMap has the command and the arguments the spec wants, and no other is touched |
| `HookJobs.StepRead` | internal/hooks/manage_hooks.go:846-865 | command, arguments and checksum come from the ConfigMap, not from the spec |
| `HookJobs.StepLaunch` | internal/hooks/manage_hooks.go:653-677 | the Job requested is to run what was read and is labelled with its checksum; a Job found there is waited for exactly when it could not be looked at or has that checksum |
| `HookJobs.PollJob` | internal/hooks/manage_hooks.go:448-485 | one poll: success only for a Job there and succeeded; waiting on only for one unseen so far and not there, or there and neither succeeded nor failed for good |
| `HookJobs.ExecuteAll` | internal/hooks/manage_hooks.go:729-741 | threads interleaved call by call in any order: each result is at its own index, so that the array is that of the order in which they ended, and of running them left to right; the first failure is kept, all Jobs and ConfigMaps stay those of the hook |
| `HookJobs.StaysCoherent` | internal/hooks/manage_hooks.go:733-739 | a step of one thread of a fan-out does not disturb what another has read or is about to do |
| `Hooks.SetupRestoreHooks` | internal/hooks/manage_hooks.go:131-188 | exactly the hooks of the event, each once, plans and within them hooks in ascending order; of each, command, arguments, image, mutability, nodes, restart policy and event are those of the spec, with the checksum of that command and those arguments and the name for that plan and hook |
| `Hooks.HookSkipReason` | internal/hooks/manage_hooks.go:260-298 | skipped exactly when the plan is known and either locked before the restore, or the first entry of the key succeeded and is not outdated; with the reason |
| `Hooks.SortedNames` | internal/hooks/manage_hooks.go:148-162 | the names in ascending byte order, each once |
| `HookEngine.RunHooks` | internal/hooks/manage_hooks.go:190-233 | only hooks with reason to run do; results taken as done stay and get no Job; keys stay unique and successes backed; on success without a lost status write every Job of the hooks listed was skipped before or requested now, and all hooks are done unless two are rivals; if all were before nothing is written; a hook that failed shows in the phase, one that could not be read, which must be an immutable one, leaves the phase as it was |
| `HookEngine.ResolveHookFromConfigMap` | internal/hooks/manage_hooks.go:867-883 | a mutable hook and one without a ConfigMap stay as they are, any other gets command, arguments and checksum of its ConfigMap; only an immutable hook can fail here |
| `HookEngine.GroupByPlan` | internal/hooks/manage_hooks.go:191-194 | for each plan its hooks in the order given |
| `HookEngine.PendingHooks` | internal/hooks/manage_hooks.go:197-221 | pending are the hooks on nodes and those not skipped, in order, each with what it is to run |
| `HookEngine.RunPlanHooks` | internal/hooks/manage_hooks.go:310-326 | hooks one after the other until one fails; without a lost write those run are done |
| `HookEngine.RunHook` | internal/hooks/manage_hooks.go:301-308 | one Job, and its result recorded whether it failed or not |
| `HookEngine.RunNodeAccessHook` | internal/hooks/manage_hooks.go:691-752 | the Jobs run are exactly those of matching nodes that are not skipped, each on its own node; with none nothing is written; without a lost write the list of hook results is that of recording one result for each of these Jobs from left to right, and if none failed all of them are done |
| `HookEngine.PendingNodes` | internal/hooks/manage_hooks.go:702-723 | each node is skipped or pending, and what is pending is not skipped |
| `HookEngine.RecordAll` | internal/hooks/manage_hooks.go:743-749 | results are recorded in the order of the array, failed writes notwithstanding; without one the list is that of recording all |
| `HookEngine.FanOut` | internal/hooks/manage_hooks.go:725-751 | the Jobs side by side, then their results; without a lost write the list is that of recording one result for each Job from left to right; the first failure is returned |
| `HookEngine.DueIfNotSkipped` | internal/hooks/manage_hooks.go:260-298 | a hook not skipped now has no result at the start of the stage that all hooks of its name take as done, and its plan is not locked before the restore |
| `HookLaws.UntruncatedHooksAreApart` | internal/hooks/manage_hooks.go:94-97 | no name truncated, hooks on nodes included, and no hook that runs alone named like another followed by a dash and the hash of one of its nodes: the hooks of a plan have Jobs of different names, and after the restore no two hooks are rivals, which is what the fixed point presumes |
| `HookLaws.JobsMeetIff` | internal/hooks/manage_hooks.go:87-129 | two hooks share a Job name exactly when their names are the same and, on nodes, two hashes are, or the one that runs alone is named like the other on a node |
| `HookLaws.NoneRivalIff` | internal/hooks/manage_hooks.go:87-129 | no two hooks are rivals exactly when no two mutable hooks of a plan with different checksums meet: on names, truncated or not, and on the hashes of the nodes they run on |
| `HookLaws.NamedAfterNodeIsRival` | internal/hooks/manage_hooks.go:116-129 | the second premise cannot be dropped: a mutable hook named so is a rival of the other if they run different things |
| `HookLaws.MutableHookRunsAgainIff` | internal/hooks/manage_hooks.go:285-289 | a mutable hook after the restore whose success is recorded is skipped exactly when command and arguments still read the same, no collision and no NUL presumed |
| `HookLaws.ConfigIsPatchedIff` | internal/hooks/manage_hooks.go:758-790 | the ConfigMap of a mutable hook is patched exactly when command and arguments of the spec read differently from what it holds, no collision and no NUL presumed |
| `HookLaws.KeysAreUniqueIff` | internal/hooks/manage_hooks.go:702-706 | the results a fan-out records have different keys exactly when the six-character hashes of the nodes it ran on differ |
| `HookLaws.OneEntryPerNode` | internal/hooks/manage_hooks.go:743-749 | then the list a fan-out leaves has exactly the own result for each node it ran on, unique keys, and all other entries as found |
| `HookLaws.DeliveredIsEachOnesOwn` | internal/hooks/manage_hooks.go:733-741 | when all threads are through the results array is each thread's own status by position |

## Left out

- Names.UntruncatedNamesAreInjective: for names that fit 63 characters; truncated ones depend on eight characters of a hash, and nothing rules out that these collide.
- Validate.LatestIsLatestInTime: only if the time found is an accepted one; `Validate.LatestIsAcceptedIff` says exactly when.
- Claims.ReferencedClaimsAreRestored: says of several references to one claim only that one of them decides; two clusters or plans may select the same claim.
- Claims.AgreedClaimsAreRestored: presumes that references naming one claim agree.
- Runs.CompletionIsFinal: presumes that no two hooks are rivals; `Runs.CompletionIsFinalIff` shows that it must.
- Losses.LostIffInterrupted: presumes that between passes claims only get bound and deletions only come to their end.
- Losses.MissingAtTheLockIff: presumes the same.
- References.RestoredAsAsked: presumes that the status lists no plan the spec does not; such a plan is restored by its old references.
- Runs.ConfigsHoldWhatSpecsSaid: for ConfigMaps that were not there when the run began.
- Runs.JobsRunWhatSpecsSaid: presumes the same.
- Deletions of claims come to their end while claims are waited for and between passes; during validation, hooks and scaling the claims stand still.
- Runs.SinglePlanLockIsSound: single-plan resources only, since with more plans the lock flag leaks.
- PassLaws.ScaledDownBeforeRestore: for plans that validation left unlocked, as the others are neither scaled down nor restored.
- SHA-256 is any function with 64 characters of output and no dash; freedom from collisions is a hypothesis where it is needed.
- Strings are sequences of characters that stand for bytes; Go measures and cuts bytes.
- `LastUpdated`, the difference of nil and empty lists, and the wall clock; a poll is any finite number of observations, so durations and timeouts do not matter.
- JSON of the ConfigMap entries is assumed to read back as written; errors of marshalling are not modelled.
- The pod of a hook Job: environment, secrets, pod-exec roles, security context, tolerations. The ServiceAccount is one call that may fail.
- Label selectors are functions from labels to truth, and selectors may be malformed.
- Spec edits take effect with the next pass: that an accepted status patch also brings back the spec of the server is not modelled.
- Users and other controllers change specifications of workloads, claims, snapshots and nodes between passes only, not during one; ConfigMaps of hooks are changed by the operator alone.
- The order of evaluation of `return pvName, wait.Poll…` (internal/restore/manage_restore.go:200) is left open by the Go specification; the model makes the call first.
- When no node matches, the early return and the return for no pending node are one branch, as both do nothing.
- The lookup of the resource's own kind may fail like an API call does.
- Log messages, `logMutationStatus`, and the exact texts of errors.
- Command line, metrics, leader election, manifests: plumbing without properties of the protocol.
