# A verified model of the FluxUp upgrade and rollback protocol

FluxUp upgrades an application that Flux deploys from Git: it suspends Flux, stops the workloads, snapshots
their volumes, commits the new version, resumes Flux and waits until the application is reconciled and
healthy. A rollback goes the other way: it replaces every volume by one made from its snapshot and commits
the previous version. Both are Kubernetes reconcilers whose only memory is a set of conditions in a status.
Each pass reads that status, makes single API calls, any of which may fail, and writes the status back; a
pass may die between two calls, other actors may resume Flux, and the other reconciler runs in between.

This project models the two reconcilers, the YAML and version-path editing, snapshot retention and workload
discovery in Dafny, and proves what they keep. `dafny verify dfyconfig.toml` checks all of it.

## How it is built

- `Protocol.dfy` is the transition system. `Event` is a single API call, answer, failure, status write or
  step of somebody else; `Enabled` says when a step may be taken, `Apply` what it does, `Play` which lists of
  steps are runs. What `Enabled` asks of a controller's call or write speaks only of that controller's own
  request and of what its running pass has itself seen and done (`Pass`); of the cluster it asks only what the
  API server asks, and that answers be true. `History` records what has happened; no controller reads it, and
  `Theorems.HistoryIsTrue`, `Theorems.RunIsRemembered`, `Theorems.SnapshotsWereTaken`, `Theorems.BoundWasSeen`,
  `Theorems.TouchedMeans` and `ProgressTheorems.CleanMeansUnhindered` tie it to the steps of the run; the theorems
  themselves speak of the run.
- `Invariants.dfy`, `DataInvariants.dfy`, `ProgressInvariants.dfy`: one predicate per property and a lemma
  that no enabled step breaks it. `Runs.dfy` carries them along whole runs.
- `Theorems.dfy`, `ProgressTheorems.dfy`, `PhaseTimers.dfy`: the properties of whole runs, over every
  interleaving and failure. `Promises.dfy`: what a run does for whoever asked for it, told by the request's own
  fields, the calls of the run and the state of the cluster alone, so that nothing hangs on what the protocol takes
  those to mean; `WorldFacts.dfy` says what a call or an answer is in the cluster. `Witnesses.dfy`: concrete runs in
  which the unexpected happens.
- `Cluster.dfy` is the API as the controllers meet it: a class whose methods first let everybody else take
  any number of legal steps, then let the call go through or fail. Its validity says that what has happened
  so far is a run.
- `Upgrade.dfy`, `Rollback.dfy`: the reconcilers, handler by handler, updating the fetched request in place.
  A call or status write the protocol does not enable at that point does not verify, so `Reconcile` refines
  the protocol: every theorem about runs holds of them. A handler's contract has three parts: what was done
  continues the run legally, the pass may end there (`EndOk`), and what the outcome says of the persisted
  request (`Leads`); the rows below spell out the last. `UpgradeSteps.dfy`, `RollbackSteps.dfy` and
  `PassSteps.dfy` hold the steps of these proofs that are about values only.
- `YamlTree.dfy`, `VersionPath.dfy`, `Retention.dfy`, `Discovery.dfy`: the supporting cores.

## Where the code does not do what one might expect

- A status write lost after a commit makes the next pass commit again. `Theorems.ExtraCommits` says exactly
  how often, `Theorems.CommitsDoNotPileUp` that the file does not show it; `Witnesses.TwoCommits` is such a run.
- A skipped stop phase, or a snapshot phase that finds no PVC, leaves its start in the status, so the next
  timed phase counts from there. `PhaseTimers.TimerOfItsPhase` says exactly when a persisted start is one of the
  present phase; in `Witnesses.TimesOutAtOnce` an upgrade fails by its reconcile deadline in the second its
  reconciliation began.
- If the request names no target version and the app's available update is withdrawn after the upgrade has
  begun, the commit phase dereferences a nil pointer. `Upgrade.UpgradeReconciler.HandleCommitting` dies if and only
  if that is what it finds, no other phase ever dies (`Upgrade.UpgradeReconciler.Reconcile`), and
  `Witnesses.TargetCanBeWithdrawn` is a run that gets there. Nothing has been committed by that pass.
- The waits for health and for the first PVC to be deleted are not written down, so no deadline is claimed
  for them (`Protocol.Anchored`).
- A read that fails while PVCs are looked for is passed over, so discovery is complete only if none fails;
  and Deployments are matched to ReplicaSets by prefix, so one may claim another's pods
  (`Discovery.ClaimsOnlyItsOwn` says exactly when). The comment on `findDeploymentForReplicaSet` speaks of a hash of ten
  characters; the code accepts 5 to 12, and the model follows the code.
- A rollback that fails before its revert is on record makes no resume call
  (`Theorems.FailedRollbackNeverResumes`): Flux stays as it is until somebody else resumes it.

## Model

| member | source | states |
|---|---|---|
| `YamlTree.UpdateThenLookup` | internal/yaml/editor.go:50-77 | The text written at a path is the text found there; a non-empty version written is the version read back |
| `YamlTree.ReadableIsWritable` | internal/yaml/editor.go:50-117 | Wherever a scalar can be read, any version can be put in its place: the preview's read is the commit's licence |
| `YamlTree.CreateThenLookup` | internal/yaml/editor.go:50-77 | Missing mapping keys are created on the way, and the text is found at their end |
| `YamlTree.LastUpdateWins` | internal/yaml/editor.go:50-77 | An edit leaves nothing of an earlier edit of the same path, and succeeds wherever that one did |
| `YamlTree.UpdateIsIdentity` | internal/yaml/editor.go:50-77 | Writing a text leaves the tree exactly as it was if and only if that text was already there |
| `YamlTree.RevertRestores` | internal/yaml/editor.go:50-117 | Write a new version, then a previous one: the original tree comes back if and only if the previous one was its text |
| `YamlTree.UpdateFrame` | internal/yaml/editor.go:50-77 | An edit is visible nowhere but at its path |
| `YamlTree.DecimalIsIndex` | internal/yaml/editor.go:114-198 | A number written as a path segment is an index, and the one it says; 0 is the first item |
| `VersionPath.ReadUntil` | internal/yaml/editor.go:157-172 | The inner loops of the bracket scan stop at the first stop character or the end, with all the text before it |
| `VersionPath.ReadBracket` | internal/yaml/editor.go:147-184 | The bracket part of the scan: quoted or not, with its closing quote and bracket skipped if they are there |
| `VersionPath.ParseVersionPath` | internal/yaml/editor.go:121-198 | The index loop computes the path's meaning, for every string |
| `VersionPath.PrintThenParse` | internal/yaml/editor.go:114-198 | Parsing undoes printing for every list of legally written segments: dotted, in brackets, or in quotes and brackets; a leading dot makes no difference |
| `VersionPath.ParseRange` | internal/yaml/editor.go:114-198 | A list of segments is the meaning of some path if and only if each of them can be written in one of the three ways; so no path has an empty segment |
| `VersionPath.LeadingDotIgnored` | internal/yaml/editor.go:122-123 | A leading dot is ignored |
| `VersionPath.DefaultPath` | internal/yaml/editor.go:27-28 | The default path leads to spec, chart, spec, version |
| `Protocol.UpRank` | internal/controller/upgraderequest_controller.go:324-381 | The measure of progress of an upgrade: at its top exactly when Complete is set |
| `Protocol.RbRank` | internal/controller/rollbackrequest_controller.go:248-306 | The measure of progress of a rollback: at its top exactly when Complete is set |
| `Invariants.OrderKept` | internal/controller/upgraderequest_controller.go:348-381 | No enabled step of anybody breaks the order of the phases |
| `Invariants.ExclusiveKept` | internal/controller/rollbackrequest_controller.go:646-705 | No step breaks this: a rollback that has begun to suspend has an upgrade that is over and can be rolled back, and what it has read of it is still true |
| `Invariants.FilesKept` | internal/controller/upgraderequest_controller.go:1154-1206 | No step breaks this: unless somebody else commits, the file is the original with the last committed version put in, and what is recorded as committed is what was |
| `Invariants.CommitsKept` | internal/controller/upgraderequest_controller.go:1187-1219 | No step breaks this: commits are the recorded one plus those that went unrecorded, and these number at most the status writes lost and passes died with a commit to record |
| `Invariants.MirrorKept` | internal/controller/upgraderequest_controller.go:793-823 | No step breaks this: the Suspended condition and the pass's own last Flux call tell the controller's last Flux call, unless a status write was lost |
| `Invariants.HoldKept` | internal/controller/upgraderequest_controller.go:1469-1502 | No step breaks this: while no call has failed, the target is held by the upgrade only if that is on record or this very pass has just suspended it |
| `DataInvariants.SnapsKept` | internal/controller/upgraderequest_controller.go:999-1072 | No step breaks this: recorded snapshots cover the PVC list, were created after the workloads stopped, and were seen ready before SnapshotReady |
| `DataInvariants.NamesKept` | internal/snapshot/manager.go:157-189 | No step breaks this: the snapshots of a request carry one timestamp; and unless somebody else deletes snapshots, no two share a name |
| `DataInvariants.OneTimestampDistinct` | internal/snapshot/manager.go:160-161 | Under one timestamp a list of different PVCs has different snapshot names, whoever deletes snapshots |
| `DataInvariants.VolumesKept` | internal/controller/rollbackrequest_controller.go:908-992 | No step breaks this, whoever deletes snapshots or PVCs: the restored PVCs are a prefix, in order, of the snapshot list with each PVC taken once; those nobody else has touched are the ones made from their snapshots |
| `DataInvariants.FirstsAreDistinct` | internal/controller/rollbackrequest_controller.go:909-920 | The snapshot list with each PVC taken once: no PVC twice, nothing that was not listed, and every listed PVC |
| `DataInvariants.DistinctAreFirsts` | internal/controller/rollbackrequest_controller.go:909-920 | A list that names no PVC twice is taken as it is |
| `DataInvariants.NextIsNext` | internal/controller/rollbackrequest_controller.go:909-920 | The first PVC not on record is the one right behind the recorded prefix |
| `ProgressInvariants.ProgressKept` | internal/controller/upgraderequest_controller.go:324-381 | No step breaks this: while nothing stands in the way, every ended pass has raised the rank, and no request has failed |
| `ProgressInvariants.RolledOutKept` | internal/controller/upgraderequest_controller.go:1445-1468 | No step breaks this: a committed upgrade that failed has created a rollback if it is to, unless a call failed |
| `ProgressInvariants.TimersKept` | internal/controller/upgraderequest_controller.go:1054-1081 | No step breaks this: once snapshots, or restored PVCs, are on record, so is the start of their phase |
| `ProgressInvariants.UpWriteKeeps` | internal/controller/upgraderequest_controller.go:348-381 | No status write of an upgrade takes a condition or a record back |
| `ProgressInvariants.RbWriteKeeps` | internal/controller/rollbackrequest_controller.go:271-305 | No status write of a rollback takes a condition or a restored PVC back |
| `ProgressInvariants.UpTimerFixed` | internal/controller/upgraderequest_controller.go:91-112 | A write that changes a running phase timer finishes the phase or the request |
| `ProgressInvariants.RbTimerFixed` | internal/controller/rollbackrequest_controller.go:58-81 | The same for a rollback |
| `Runs.RunKeeps` | internal/controller/upgraderequest_controller.go:301-381 | Every state any run reaches has all the invariants |
| `Runs.OthersLeaveAlone` | internal/controller/rollbackrequest_controller.go:225-306 | Whatever the others do for however long, a controller's own request and pass stay as they are |
| `Theorems.UpgradeNeverReverts` | internal/controller/upgraderequest_controller.go:348-381 | Between any two points of a run no condition of the upgrade reverts, except Suspended from true to false; records stay; a complete request never changes |
| `Theorems.RollbackNeverReverts` | internal/controller/rollbackrequest_controller.go:271-305 | The same for the rollback; the list of restored PVCs only grows |
| `Theorems.PhaseOrder` | internal/controller/upgraderequest_controller.go:352-380 | In every reachable state Complete=True implies Healthy implies Reconciled implies GitCommitted implies WorkloadStopped and SnapshotReady, which imply Suspended is set; likewise for rollbacks |
| `Theorems.MutualExclusion` | internal/controller/rollbackrequest_controller.go:652-655 | Every mutating call of a rollback comes after its upgrade's Complete condition is persisted, and after every mutating call and status write of that upgrade |
| `Theorems.CompleteIsAbsorbing` | internal/controller/upgraderequest_controller.go:334-341 | Once Complete is persisted, true or false, the request's status never changes again |
| `Theorems.VerifiedWasSeen` | internal/flux/suspend.go:272-283 | A pass that counts the target as verified has seen it suspended, earlier in the same pass |
| `Theorems.CommitIsGuarded` | internal/controller/upgraderequest_controller.go:1112-1194 | Every commit is made in a pass that has seen the target suspended, with stopped workloads and ready snapshots, or restored volumes, persisted |
| `Theorems.DeletionIsGuarded` | internal/controller/rollbackrequest_controller.go:894-932 | Every PVC deletion is the rollback's, in a pass that has seen the target suspended, with the workloads persisted as stopped, of a listed PVC not yet on record as recreated |
| `Theorems.RunIsRemembered` | internal/controller/upgraderequest_controller.go:1187-1219 | What a state keeps of its run is what the run says: passes under way, commits, unrecorded commits and misses counted, failed calls and dead passes, the last committed versions and the last Flux call |
| `Theorems.ExtraCommits` | internal/controller/upgraderequest_controller.go:1187-1219 | Counted in the run: an upgrade commits once if it has a commit on record or may still record one, plus once for every pass that committed and was followed by another without having recorded it; and each of those lost a status write, or died, after its commit |
| `Witnesses.TwoCommits` | internal/controller/upgraderequest_controller.go:1187-1219 | A run in which a lost status write leads to a second commit: exactly one commit is false |
| `Theorems.CommitsDoNotPileUp` | internal/controller/upgraderequest_controller.go:1171-1194 | However often it commits, the file is the original with the version the run committed last put in once |
| `Theorems.RollbackResumeIsSafe` | internal/controller/rollbackrequest_controller.go:1122-1144 | A rollback resumes Flux only with restored volumes and the revert persisted; unless somebody else commits, the file then is the original with the text of the recorded previous version in the version's place |
| `Theorems.FailedRollbackNeverResumes` | internal/controller/rollbackrequest_controller.go:1377-1403 | A rollback that fails before its revert is persisted has not resumed Flux and never will |
| `Theorems.UpgradeResumeIsSafe` | internal/controller/upgraderequest_controller.go:1236-1241 | At each resume of a live upgrade the file is, after a recorded commit, the original with the target version; before one, the original if no pass left a commit unrecorded, or else the original with the version committed last |
| `Theorems.RollbackRestoresTheFile` | internal/controller/rollbackrequest_controller.go:1035-1094 | A completed rollback leaves exactly the original file if and only if the version recorded as previous is the text it held, unless somebody else commits |
| `Theorems.NothingElseInTheFile` | internal/yaml/editor.go:50-77 | Whatever both controllers do, a path that parts from the version path finds what it always found, unless somebody else commits |
| `Theorems.RestoredIsAPrefix` | internal/controller/rollbackrequest_controller.go:908-971 | In every state of every run, whoever deletes snapshots or PVCs, the restored PVCs are a prefix, in order, of the snapshot list with each PVC taken once; an auto-discovered list, or a configured one without repetition, is that list |
| `Theorems.RestoredIsLeftAlone` | internal/controller/rollbackrequest_controller.go:910-920 | A PVC on record as recreated is never deleted or created by the rollback again |
| `Theorems.RecordedWasCreated` | internal/controller/rollbackrequest_controller.go:946-970 | Every PVC on record was created by the rollback from its own snapshot, and neither deleted nor created by it since |
| `Theorems.AllVolumesRestored` | internal/controller/rollbackrequest_controller.go:973-1006 | Unless the request skips snapshots, when VolumesRestored is persisted every listed PVC is on record, was created from its own snapshot, then seen bound, and never replaced since; and it is still that PVC unless somebody else has touched it since |
| `Theorems.NoPvcIsForgotten` | internal/controller/rollbackrequest_controller.go:909-920 | Every PVC of the snapshot list is among those |
| `Theorems.TouchedMeans` | internal/controller/rollbackrequest_controller.go:946-970 | A PVC that counts as touched was changed by somebody else after the rollback had last created it |
| `Theorems.BoundWasSeen` | internal/controller/rollbackrequest_controller.go:979-991 | A PVC counted as bound was seen bound, and neither deleted nor created since |
| `Theorems.SnapshotsCoverTheList` | internal/controller/upgraderequest_controller.go:999-1072 | If the request does not skip snapshots, the app has them on and lists its PVCs, a committed upgrade has one snapshot per listed PVC, in order, each created after WorkloadStopped was persisted and each seen ready; names are distinct if the list has no PVC twice, or nobody else deletes snapshots |
| `Theorems.SnapshotsWereTaken` | internal/snapshot/manager.go:160-189 | A snapshot on record was created in the run, and the record tells truly whether that was after the workloads were persisted as stopped |
| `Theorems.ConditionMirrorsFlux` | internal/controller/upgraderequest_controller.go:793-823 | Between the passes of a live upgrade of which no status write failed and no pass died, the Suspended condition tells exactly the last Flux call in the run: absent for none, true for a suspend, false for a resume |
| `Theorems.ResumedStaysResumed` | internal/controller/upgraderequest_controller.go:1377-1384 | Once Suspended=False is persisted, the last Flux call was a resume, and the request never suspends again |
| `Theorems.NothingHeldAfterAbort` | internal/controller/upgraderequest_controller.go:1469-1498 | A request that ended without a commit, none of whose calls failed in the run and no pass died, does not hold the target suspended; this covers every end of a dry run |
| `Theorems.DryRunNeverCommits` | internal/controller/upgraderequest_controller.go:383-462 | An upgrade dry run only ever suspends, resumes and scales: no commit, no snapshot, no PVC, no rollback; and nothing can be rolled back after it |
| `Theorems.FailureLeadsToRollback` | internal/controller/upgraderequest_controller.go:1445-1468 | A committed upgrade that failed has created a rollback if auto-rollback is on, if in the run none of its calls failed and no pass died |
| `Theorems.HistoryIsTrue` | internal/controller/upgraderequest_controller.go:1154-1206 | What a state says of the original file, and of others committing or deleting snapshots, is the truth about the run |
| `Promises.StepsAreFacts` | internal/workload/scaler.go:90-129 | Every call that went through shows in the cluster at once and makes nothing in the place of something else; every answer is how things were in the cluster |
| `Promises.StoppedIsAFact` | internal/workload/scaler.go:338-356 | When a request that wants its workloads stopped has WorkloadStopped persisted, there is a list the pass had discovered, and every workload on it had its replicas at zero in the cluster and, no earlier than that, no pods; so for an upgrade with snapshots, every dry run, and a rollback with volumes to restore |
| `Promises.UpgradeDoesWhatIsAsked` | internal/controller/upgraderequest_controller.go:871-885 | A request that skips snapshots, or an app without them, has no snapshot created and, unless it is a dry run, nothing scaled; snapshots are deleted and the app updated only once the upgrade is healthy, a rollback is created only after the commit and if wanted |
| `Promises.RollbackDoesWhatIsAsked` | internal/controller/rollbackrequest_controller.go:755-770 | A rollback of an upgrade that skipped or took no snapshots scales nothing and deletes or creates no PVC; every call of a rollback has an upgrade that is over, with a previous version on record |
| `Promises.SuspensionIsPrepared` | internal/controller/upgraderequest_controller.go:751-783 | An upgrade suspends Flux only in a pass that has read a version to go to and a file with a version to replace, and found the suspend target fit and, with snapshots on, the snapshot class |
| `Promises.RollbackIsPrepared` | internal/controller/rollbackrequest_controller.go:84-171 | A rollback suspends Flux only in a pass that has read a file with a version to replace and, unless snapshots are skipped, seen every one of them ready, of which there are some |
| `Promises.CommitsTheTarget` | internal/controller/upgraderequest_controller.go:1119-1175 | What an upgrade commits is the text of the requested version, or without one of the version on offer when the committing pass last read the app: the chart's, or the first image's tag; put in its place in the file that pass has read, where it is then found |
| `Promises.RecordIsTrue` | internal/controller/upgraderequest_controller.go:1200-1206 | The recorded previous version is the one current when the committing pass last read the app, the recorded new one is the requested one or the one on offer |
| `Promises.RoundTrip` | internal/controller/rollbackrequest_controller.go:1035-1094 | A completed rollback leaves exactly the original file if and only if what stood in the version's place is the text of the version that was current when the committing pass read the app, unless somebody else commits |
| `Promises.ActsWhileSuspended` | internal/flux/suspend.go:272-283 | Every commit and every deletion or creation of a PVC is made by a pass during which the target was suspended in the cluster |
| `Promises.RestoredIsAFact` | internal/controller/rollbackrequest_controller.go:946-1006 | Unless snapshots are skipped, once VolumesRestored is persisted every listed PVC had been absent, was made from its snapshot, which the same pass had seen ready, and then was bound in the cluster |
| `Promises.SnapshotsAreFacts` | internal/snapshot/manager.go:148-193 | With snapshots on and an explicit PVC list, every snapshot of a committed upgrade was made new, of its PVC, with WorkloadStopped persisted, and was ready in the cluster |
| `Promises.ReconciledIsAFact` | internal/controller/upgraderequest_controller.go:1236-1276 | A request persisted as Reconciled had Flux resumed, and the target found reconciled after that |
| `Promises.CompleteIsAFact` | internal/controller/upgraderequest_controller.go:1297-1359 | A live upgrade or rollback that is successfully complete had Flux resumed, the target found reconciled after that, and the app found healthy |
| `Promises.CompletionUpdatesTheApp` | internal/controller/upgraderequest_controller.go:1570-1576 | A live upgrade that is successfully complete, none of whose calls failed, has written to the app that the version it committed last is current and no update is left to offer; unless others have committed, that version is in the file |
| `Promises.FailureCreatesRollback` | internal/controller/upgraderequest_controller.go:1445-1468 | A committed upgrade that failed, none of whose calls failed, has made the call that creates a rollback if it is to |
| `Promises.DryRunLeavesItRunning` | internal/controller/upgraderequest_controller.go:621-679 | A dry run that is successfully complete has resumed Flux, after which the target was running in the cluster |
| `Promises.ScaledUpIsAFact` | internal/controller/upgraderequest_controller.go:561-618 | A dry run persisted as scaled up again had every discovered workload at one replica in the cluster |
| `ProgressTheorems.CleanMeansUnhindered` | internal/controller/upgraderequest_controller.go:301-381 | A request counts as unhindered if and only if in the run no call failed, no pass died and no answer was a no, a version or file to work with missing, or a suspension other than the pass's last Flux call |
| `ProgressTheorems.EightPassesSuffice` | internal/controller/upgraderequest_controller.go:324-381 | An unhindered request, upgrade, dry run or rollback, is successfully complete once eight passes have ended |
| `ProgressTheorems.EveryPassAdvances` | internal/controller/upgraderequest_controller.go:324-381 | Every pass of an unhindered request raises its rank or finds it over |
| `ProgressTheorems.RankNeverFalls` | internal/controller/upgraderequest_controller.go:324-381 | The rank of a request never falls |
| `ProgressTheorems.ProgressIsBounded` | internal/controller/upgraderequest_controller.go:324-381 | In any run the steps that raise the rank number at most eight |
| `ProgressTheorems.NoRequestIsDropped` | internal/controller/upgraderequest_controller.go:301-381 | A pass that ends with nothing more to do has a request that is over; one called again at once has brought it forward; one that waits looked at the phase's deadline, which was still ahead, even after a failed call; an error means a call failed |
| `ProgressTheorems.PassSince` | internal/controller/upgraderequest_controller.go:301-312 | A pass keeps the clock and rank of its begin, and is untroubled if none of its calls failed |
| `ProgressTheorems.UpgradeTimerStaysFixed` | internal/controller/upgraderequest_controller.go:93-112 | The persisted start of a phase stays as it is until the phase or the request is over |
| `ProgressTheorems.RollbackTimerStaysFixed` | internal/controller/rollbackrequest_controller.go:58-81 | The same for a rollback |
| `ProgressTheorems.UpgradeDeadline` | internal/controller/upgraderequest_controller.go:953-964 | The first pass that begins later than a phase's start plus its timeout, and does not end with an error, ends the phase or the request, whatever calls of it failed: 300 seconds for scaling, 1800 for snapshots, 600 for the reconciliation, and in a dry run 120 for suspending and resuming |
| `ProgressTheorems.RollbackDeadline` | internal/controller/rollbackrequest_controller.go:843-854 | The same for a rollback: 300 seconds to scale down, 1800 to restore volumes after the first PVC, 600 to reconcile |
| `PhaseTimers.TimerOfItsPhase` | internal/controller/upgraderequest_controller.go:871-907 | In every run, for upgrade and rollback alike: the persisted start of a phase is a clock reading of that very phase, set in it, if and only if no stop or snapshot phase was skipped since the timer was last cleared |
| `PhaseTimers.StampOfThePhase` | internal/controller/upgraderequest_controller.go:93-98 | A start kept in memory was read from the clock in the same phase, if the pass had not yet brought the request forward |
| `Witnesses.TimesOutAtOnce` | internal/controller/upgraderequest_controller.go:871-885 | A run in which an upgrade fails by its reconcile deadline in the very second the reconciliation began: the deadline counts from a skipped stop phase |
| `ClusterApi.Cluster.Mutate` | internal/controller/upgraderequest_controller.go:1542-1544 | Before a mutating call everybody else may take any legal steps; the call then goes through as the API server accepts it, and shows in the cluster, or fails without effect |
| `ClusterApi.Cluster.Scale` | internal/workload/scaler.go:90-129 | On success the workload has that many replicas in the cluster, set by the call or found already set; either way the pass knows |
| `ClusterApi.Cluster.DeletePvc` | internal/controller/rollbackrequest_controller.go:926-932 | A PVC that is not there is as good as deleted |
| `ClusterApi.Cluster.WriteUpgrade` | internal/controller/upgraderequest_controller.go:818-820 | A status write must be one the protocol allows; it takes effect or is lost |
| `ClusterApi.Cluster.WriteRollback` | internal/controller/rollbackrequest_controller.go:727-729 | The same for a rollback |
| `ClusterApi.Cluster.Ask` | internal/workload/scaler.go:338-356 | A question is answered with how things are in the cluster at that moment, down meaning no pod at all, or with an error if its object is missing or the call fails |
| `ClusterApi.Cluster.StartTimer` | internal/controller/upgraderequest_controller.go:93-98 | The phase's start is set to the present unless it is set already |
| `ClusterApi.Cluster.TimedOut` | internal/controller/upgraderequest_controller.go:107-112 | A phase is over its time if more than the timeout has passed since its start |
| `Upgrade.UpgradeReconciler.Reconcile` | internal/controller/upgraderequest_controller.go:301-381 | One pass takes only steps the protocol enables, whatever happens between its calls, and ends as the protocol asks; unless it dies, which it does only in the commit phase, with neither the request nor the app naming a target and nothing committed by it |
| `Upgrade.UpgradeReconciler.Advance` | internal/controller/upgraderequest_controller.go:343-380 | Called again at once means exactly the phase the persisted conditions call for was taken, or, past a skipped stop phase, also the next; nothing more to do means the request is over; a death is one for want of a target in the commit phase |
| `Upgrade.UpgradeReconciler.AdvanceStopped` | internal/controller/upgraderequest_controller.go:356-380 | The same for the phases after the stop phase |
| `Upgrade.UpgradeReconciler.Prepare` | internal/controller/upgraderequest_controller.go:751-783 | Success means a target version, a file it can be written in, a fit suspend target and, with snapshots on, PVCs, workloads and snapshot class; failure means a failed call or a negative answer |
| `Upgrade.UpgradeReconciler.RunGitDiffPreview` | internal/controller/upgraderequest_controller.go:229-286 | The preview succeeds only if the version can be read and replaced |
| `Upgrade.UpgradeReconciler.RunPreflight` | internal/controller/upgraderequest_controller.go:128-225 | The preflight's outcome and the workloads it found |
| `Upgrade.UpgradeReconciler.HandleSuspend` | internal/controller/upgraderequest_controller.go:748-823 | Called again at once means Suspended=True is persisted, and SnapshotReady too exactly if the request skips snapshots or the app has them off; nothing more to do means the request failed |
| `Upgrade.UpgradeReconciler.HandleScaleDown` | internal/controller/upgraderequest_controller.go:859-985 | Called again at once means WorkloadStopped is persisted; a wait of 5 seconds is before the deadline; a skip is persisted, and the pass goes on from there |
| `Upgrade.UpgradeReconciler.HandleSnapshotting` | internal/controller/upgraderequest_controller.go:988-1101 | Called again at once means SnapshotReady is persisted; a wait of 10 seconds is before the deadline; otherwise the request failed |
| `Upgrade.UpgradeReconciler.CreateSnapshotsForUpgrade` | internal/snapshot/manager.go:148-193 | One snapshot per PVC, in order, under one timestamp; the first failure ends it |
| `Upgrade.UpgradeReconciler.AllSnapshotsReady` | internal/controller/upgraderequest_controller.go:1061-1072 | Yes only if every recorded snapshot was seen ready |
| `Upgrade.UpgradeReconciler.VerifyStillSuspended` | internal/flux/suspend.go:272-283 | Success only if the target was just seen suspended |
| `Upgrade.UpgradeReconciler.Render` | internal/controller/upgraderequest_controller.go:1119-1175 | The version and the tree to commit are the target's and the edit of the file just read |
| `Upgrade.UpgradeReconciler.HandleCommitting` | internal/controller/upgraderequest_controller.go:1104-1222 | Called again at once means the commit is persisted, with the version current and the version wanted as this pass read them, and nothing else; a pass dies if and only if it has read the app and seen the target suspended, and neither the request nor the app names a target, and then without a commit or a change of the request |
| `Witnesses.TargetCanBeWithdrawn` | internal/controller/upgraderequest_controller.go:1134-1147 | A run that gets there: the update on offer is withdrawn after the upgrade has begun |
| `Upgrade.UpgradeReconciler.HandleReconciling` | internal/controller/upgraderequest_controller.go:1225-1294 | Called again at once means Reconciled=True and Suspended=False are persisted; a wait of 10 seconds is before the deadline |
| `Upgrade.UpgradeReconciler.HandleHealthChecking` | internal/controller/upgraderequest_controller.go:1297-1359 | Called again at once means Healthy=True is persisted; otherwise a wait of 10 seconds, or the request failed |
| `Upgrade.UpgradeReconciler.HandleCompleted` | internal/controller/upgraderequest_controller.go:1362-1417 | Nothing more to do means Complete is persisted; if true, this pass has written to the app that the recorded version is current and no update is on offer, or a call failed |
| `Upgrade.UpgradeReconciler.SetFailed` | internal/controller/upgraderequest_controller.go:1439-1513 | Nothing more to do means Complete=False is persisted, which the protocol allows, unless a call failed, only with what was suspended resumed before the commit, and a rollback created after it if one is wanted |
| `Upgrade.UpgradeReconciler.HandleDryRun` | internal/controller/upgraderequest_controller.go:384-462 | Called again at once means one of suspending, scaling down and scaling up is persisted, and nothing else; nothing more to do means the request is over |
| `Upgrade.UpgradeReconciler.DryRunSuspend` | internal/controller/upgraderequest_controller.go:465-510 | Called again at once means Suspended=True is persisted, verified; a wait of 2 or 5 seconds is before the deadline; otherwise it failed |
| `Upgrade.UpgradeReconciler.DryRunScaleDown` | internal/controller/upgraderequest_controller.go:513-558 | Called again at once means WorkloadStopped is persisted; a wait of 5 seconds is before the deadline; otherwise it failed |
| `Upgrade.UpgradeReconciler.DryRunScaleUp` | internal/controller/upgraderequest_controller.go:561-618 | Called again at once means scaled up again is persisted, with the suspension seen after the scaling; a wait of 5 seconds is before the deadline; otherwise it failed |
| `Upgrade.UpgradeReconciler.DryRunResumeAndComplete` | internal/controller/upgraderequest_controller.go:621-679 | Nothing more to do means Complete is persisted; a wait of 2 or 5 seconds is before the deadline |
| `Upgrade.UpgradeReconciler.SetDryRunFailed` | internal/controller/upgraderequest_controller.go:730-745 | Nothing more to do means Complete=False is persisted |
| `Rollback.RollbackReconciler.Reconcile` | internal/controller/rollbackrequest_controller.go:225-306 | One pass takes only steps the protocol enables and always ends as the protocol asks: no missing upgrade record or snapshot list can stop it |
| `Rollback.RollbackReconciler.Advance` | internal/controller/rollbackrequest_controller.go:271-305 | Called again at once means exactly the phase the persisted conditions call for was taken, or, past a skipped stop phase, also the next; nothing more to do means the request is over |
| `Rollback.RollbackReconciler.HandleSuspend` | internal/controller/rollbackrequest_controller.go:637-732 | Called again at once means Suspended=True is persisted, and VolumesRestored too exactly if snapshots are skipped or there are none; that takes an upgrade that is over, has snapshots unless skipped and a previous version, and checks that passed; otherwise the request failed |
| `Rollback.RollbackReconciler.RunRollbackGitDiffPreview` | internal/controller/rollbackrequest_controller.go:174-216 | The preview succeeds only if the version can be read and put back |
| `Rollback.RollbackReconciler.RunRollbackPreflight` | internal/controller/rollbackrequest_controller.go:84-171 | Success only if every snapshot to restore was seen ready |
| `Rollback.RollbackReconciler.HandleStopWorkload` | internal/controller/rollbackrequest_controller.go:737-875 | Called again at once means WorkloadStopped is persisted; a wait of 5 seconds is before the deadline; a skip is persisted, and the pass goes on from there |
| `Rollback.RollbackReconciler.HandleVolumeRestore` | internal/controller/rollbackrequest_controller.go:878-1013 | Called again at once means VolumesRestored is persisted; a wait of 10 seconds is before the deadline; otherwise the request failed |
| `Rollback.RollbackReconciler.RestoreOne` | internal/controller/rollbackrequest_controller.go:922-970 | Goes on only with this PVC recreated and on record, behind all before it |
| `Rollback.RollbackReconciler.AwaitBound` | internal/controller/rollbackrequest_controller.go:973-1012 | Called again at once means VolumesRestored is persisted, which takes every PVC seen bound |
| `Rollback.RollbackReconciler.Render` | internal/controller/rollbackrequest_controller.go:1035-1077 | The version and the tree to commit are the previous version and the edit of the file just read |
| `Rollback.RollbackReconciler.HandleGitRevert` | internal/controller/rollbackrequest_controller.go:1016-1120 | Called again at once means GitReverted is persisted; otherwise the request failed |
| `Rollback.RollbackReconciler.HandleReconciling` | internal/controller/rollbackrequest_controller.go:1123-1196 | Called again at once means Reconciled=True and Suspended=False are persisted; a wait of 10 seconds is before the deadline |
| `Rollback.RollbackReconciler.HandleHealthChecking` | internal/controller/rollbackrequest_controller.go:1199-1256 | Called again at once means Healthy=True is persisted; otherwise a wait of 10 seconds, or the request failed |
| `Rollback.RollbackReconciler.HandleCompleted` | internal/controller/rollbackrequest_controller.go:1259-1293 | Nothing more to do means Complete=True is persisted |
| `Rollback.RollbackReconciler.SetFailed` | internal/controller/rollbackrequest_controller.go:1378-1403 | Nothing more to do means Complete=False is persisted |
| `Retention.SortSnapshotsByCreationTime` | internal/snapshot/manager.go:284-292 | The exchange sort leaves a permutation of its input, newest first |
| `Retention.SnapshotManager.ApplyRetentionPolicy` | internal/snapshot/manager.go:220-281 | Every PVC's snapshots are cut down to the newest, nothing else is deleted, the count returned is the number deleted, a limit of zero keeps all; exactly the limit stays when no deletion fails |
| `Retention.SnapshotManager.GroupByPvc` | internal/snapshot/manager.go:246-254 | Every PVC's group has exactly its snapshots; those without a PVC are in none |
| `Retention.SnapshotManager.PruneGroup` | internal/snapshot/manager.go:258-275 | One group is cut down to its newest, going on when a deletion fails |
| `Retention.NoneKeptIsOlder` | internal/snapshot/manager.go:217-281 | No kept snapshot is older than a deleted one of the same PVC |
| `Retention.NewestSurvives` | internal/snapshot/manager.go:217-281 | A strictly newest snapshot survives any run with a limit of at least one |
| `Retention.SecondRunKeepsAll` | internal/snapshot/manager.go:217-281 | A second run right after a clean one deletes nothing |
| `Discovery.LastDash` | internal/discovery/kustomization.go:200-203 | The position of the last dash, if there is one |
| `Discovery.ReplicaSetNames` | internal/discovery/kustomization.go:194-222 | A name is taken for a Deployment's ReplicaSet if and only if it is the Deployment's name, a dash and 5 to 12 lowercase letters or digits |
| `Discovery.ReplicaSetNamesSpelt` | internal/discovery/kustomization.go:194-222 | The same spelt out: the name starts with the Deployment's and a dash, and goes on with 5 to 12 characters a to z or 0 to 9 |
| `Discovery.FirstOwnerDecides` | internal/discovery/kustomization.go:168-192 | A pod's workload is the one its first owner that leads to any leads to; owners of any other kind, and ReplicaSets named otherwise, yield none |
| `Discovery.TracedIsOwned` | internal/discovery/helm.go:317-321 | The Deployment a ReplicaSet is traced to also claims it by prefix |
| `Discovery.OwnershipIsByPrefix` | internal/discovery/helm.go:317-321 | What has the form of a ReplicaSet name is claimed by exactly the Deployment it is traced to and those whose name, followed by a dash, begins that one's |
| `Discovery.ClaimsOnlyItsOwn` | internal/discovery/helm.go:317-321 | A Deployment claims only its own ReplicaSets if and only if no other Deployment's name continues its own after a dash |
| `Discovery.OwnershipIsByPrefixOnly` | internal/discovery/helm.go:317-321 | Such a pair |
| `Discovery.ExtractWorkloadsFromInventory` | internal/discovery/kustomization.go:77-109 | The workloads are those of the well-formed entries of the two kinds, in order |
| `Discovery.EntryRoundTrip` | internal/discovery/kustomization.go:74-107 | An entry written as namespace, name, group and kind is read back |
| `Discovery.Discoverer.FindPodsForWorkload` | internal/discovery/helm.go:288-315 | Exactly the pods of the namespace with an owner that matches |
| `Discovery.Discoverer.FindPvcsForWorkloads` | internal/discovery/helm.go:236-285 | Only existing PVCs the workloads use, and all of them if no read failed |
| `Discovery.Discoverer.FilterPvcs` | internal/discovery/discovery.go:145-175 | Exactly those mounted read-write-once and not excluded |
| `Discovery.Discoverer.GetExplicitPvcs` | internal/discovery/discovery.go:120-141 | The listed PVCs in order, or an error if one is missing |
| `Discovery.Discoverer.DiscoverPvcs` | internal/discovery/discovery.go:64-86 | Each selected PVC once, with its access modes, and all of them if no read failed; or the explicit list in order, every PVC of which exists |
| `Discovery.Discoverer.DiscoverWorkloadsForPvcs` | internal/discovery/kustomization.go:113-165 | Each workload owning a pod that mounts one of the PVCs, once, and no other |
| `Discovery.Discoverer.DiscoverWorkloads` | internal/discovery/discovery.go:97-117 | Exactly the owners of pods that mount selected PVCs, if no read failed; with an explicit list, exactly the owners of pods that mount the listed names; each once |
| `Discovery.SelectedSpelt` | internal/discovery/helm.go:236-321 | What is auto-discovered, spelt out: exactly the existing ReadWriteOnce PVCs claimed by a pod of a listed workload, in its namespace or else the app's, that the app does not exclude |
| `Discovery.SourceDoesNotMatter` | internal/discovery/discovery.go:70-86 | The auto-discovered PVCs depend only on the set of workloads, not on which source lists them or how |
| `Discovery.ListedIsScaledDown` | internal/discovery/discovery.go:95-117 | Completeness: every listed StatefulSet or Deployment whose pod mounts an existing, not excluded read-write-once PVC is in the scale-down set |

## Left out

- The Kubernetes, Flux and Gitea clients, RBAC, logging, manager start-up and flags; a failed call is one without effect, and a Get followed by an Update is one call, as a stale resource version makes the Update fail.
- One upgrade request and one rollback request for it, with spec and app configuration fixed during the run; requests start with empty status.
- The finalizer of deleted requests, deletion of a request in flight, and what the re-added finalizer of a completed request does.
- Rollback dry runs: they mirror the upgrade's, and the code does not clean up after them on every path.
- kyaml parsing and printing, comments and formatting of the manifest: an abstract tree with read and write at a path stands for it; a Git commit of the one file happens at once or fails.
- YamlTree.UpdateThenLookup: an index past the end of a sequence is an error here and an empty text is written; kyaml, which is not part of this model, finds no node for such an index and ignores an empty text, so that its edit succeeds without effect.
- A reconciler configured without a Git manager, which skips the preview.
- Condition messages, commit messages, summaries, the scaling, health-check and completion records of a status, and all time stamps but phase starts and snapshot creation times.
- The advisory reads of a preflight (Kustomization ready, already suspended), which only produce warnings.
- The sources of workloads other than the listed ones: decoding Helm release secrets and splitting their manifest into documents.
- PVCs, snapshots and workloads in namespaces other than the app's, in the protocol; discovery models namespaces.
- Ready replicas beside pods when a workload is asked to be down: the protocol knows one number of live pods.
- Which snapshots retention selects at the end of an upgrade, in the protocol: there any selection may be deleted; the selection itself is `Retention`.
- Snapshot coverage for auto-discovered PVCs: they are found through pods, which are gone once the workloads are down, so no coverage holds.
- Characters beyond ASCII in ReplicaSet names and version paths: Kubernetes names have none, and the parser works byte by byte.
- Cluster.Scale: does not return the original replica count, because no caller uses it.
- Discoverer.GetExplicitPvcs: does not say which PVC was missing.
