# Wren durability proofs

A Dafny model of the parts of Wren on which its durability promises rest, with proofs of
those promises. Wren runs coding agents as Kubernetes pods: an operator reconciles AgentRun
objects, a sidecar archives the workspace into a mounted bucket, the control plane launches
runs through a leased outbox, and a gateway replays the harness event file into a journal.

| file | what it holds |
|---|---|
| `AgentRun.dfy`, `Reconcile.dfy`, `Reconciler.dfy` | the AgentRun object, the plan of writes of one reconcile with the guard of every write, and the reconciler class that follows it |
| `Outcomes.dfy`, `Progress.dfy` | where a reconcile that nothing interrupts leaves object, pods, volume and RunSpec, field by field, and what comes of runs that are left to their reconciles |
| `Hydrate.dfy`, `Runs.dfy` | the hydrate container; executions of reconciles cut short anywhere, pods, volumes and users |
| `WorkspaceContents.dfy`, `WorkspaceSafety.dfy`, `VolumeHistory.dfy`, `WorkspaceLoss.dfy` | what becomes of kept and of lost workspaces over every execution, and the executions in which they are not noticed |
| `PauseSafety.dfy`, `SecondPause.dfy`, `Generations.dfy`, `RetryBudget.dfy` | pauses and their proofs, attempts and their budget |
| `Paths.dfy`, `Archive.dfy`, `Links.dfy`, `LinkTraps.dfy` | path containment, the workspace archive extracted through `os.Root`, and where its links lead |
| `Checkpoint.dfy`, `CheckpointStore.dfy` | loading, publishing and pruning checkpoints with faults at every call |
| `CheckpointProtocol.dfy`, `CheckpointRetention.dfy`, `CheckpointSolo.dfy` | any number of concurrent publishers, when they keep the newest checkpoint, and what one that is left alone does |
| `Mount.dfy`, `MountedCheckpoints.dfy` | the mounted store, and checkpoints in it |
| `Durable.dfy`, `Leases.dfy`, `Journals.dfy` | the run store, leases over whole histories, paging |
| `Outbox.dfy`, `LaunchSafety.dfy`, `LaunchEvents.dfy`, `LaunchProgress.dfy` | dispatching, and what becomes of launches over every run of the system |
| `Gateway.dfy`, `GatewayProgress.dfy`, `GatewayAttempts.dfy` | the gateway process, the delivery protocol, how far it can get, and many attempts of one run |

`dafny verify dfyconfig.toml` checks the project.

## How the operator is modelled

`Controller.Reconciler` has one method per Go function. It edits an in-memory copy of the
object and writes to an API server where every call may fail, be applied although it reports
an error, or be the last one before the operator dies. Which of these
befalls each call is the input `answers`; while every answer is fine, so is every method. Its
contract: the writes issued are a prefix of `Reconciliation.Plan` of the state that was read,
all of it when nothing failed; and in that case `Outcomes.Outcome` says in terms of the stored
fields alone, without the plan, what is there afterwards.
`Reconciliation.PlanIsGuarded` shows that each write of a plan is issued under
`Reconciliation.Guard`. `Runs` interleaves such reconciles with pods starting (through
hydrate), ending and vanishing, volumes vanishing, user requests and bucket changes; the
theorems are about all such executions.

The object store (`CheckpointStore.Store.replies`) and the gateway's network (`net`, `tries`)
are scripted in the same way: the contracts say what was done for every script, tell each error
and each stop from the calls that met one, and promise success when none does.

## Assumptions

- Operator configuration is constant; a reconcile reads the cluster once and nothing else
  writes the object while it runs; API reads are current.
- A volume goes away only while no started pod mounts it (Kubernetes' protection of claims in
  use). An exec reaches only a running pod. A container starts only in a pod that is not being
  deleted, and reads the RunSpec stored at that time.
- Every write to the bucket gets a later modification time; a cut-off manifest does not decode;
  checkpoint ids are distinct and never used twice; SHA-256 is injective (contents stand for
  their digests); gzip and tar are exact.
- What `PublishCheckpoint` promises about later loads, it promises for a backend that stored
  the manifest's bytes as they were sent (`honest` in its contract); the archive is read back
  and checked by the code itself.
- In `CheckpointProtocol` closing an object that was deleted while open makes it appear, as an
  upload does (an unlinked file would be lost instead). A deletion may fail without effect
  everywhere but on the marker of a manifest that loads: `CheckpointProtocol.SkippedMarkerDangles`
  shows that this one case breaks `VisibleManifestsAreBacked`.
- `os.Root` follows at most eight links of one name, refuses absolute links and steps above the
  root, and otherwise resolves names component by component; nothing else changes the
  destination during an extraction.
- Workers have distinct names and each handles its operations in turn; runs are not deleted
  while their launch is pending; the API server does not default specifications.

## Where the code does less than its comments say

- A volume that is lost while the stored phase is still Pending is re-made without a mark, and
  the work on it is silently gone: `VolumeHistory.SilentLossHappens` is the run, and
  `VolumeHistory.SilentExactlyWhenPending` says that no other loss can end so.
- ensurePVC's comment (lines 263-273 of `internal/controller/agentrun_controller.go`) takes a
  missing volume past Pending for a lost one. A volume that was never made is taken for lost
  exactly when a pause was aborted, or a failed run resumed, before the first one was made
  (`VolumeHistory.NeverMadeTakenForLost`; the runs are
  `VolumeHistory.PauseBeforeProvisioningFails`, `VolumeHistory.PauseWithoutExecutorIsCharged`
  and `VolumeHistory.ResumeBeforeProvisioningIsMarked`).
- `PauseCheckpointReady` survives a resume, so a second pause uses the old proof:
  `SecondPause.SecondPauseReusesProof` is such a run, and after a proof no other is ever
  taken (`PauseSafety.OneProofPerRun`).
- ensurePVC charges a restart without asking the budget (`RetryBudget.LossIsChargedRegardless`).
- One incident is one charge unless a pod that is being deleted is put on record
  (`WorkspaceLoss.OneIncidentOneCharge`); then it is two (`WorkspaceLoss.LateRecordIsChargedAgain`,
  and `WorkspaceLoss.SlowDeletionChargesTwice` is a run).
- The prune deletes the archive even when deleting the marker reported an error
  (`CheckpointStore.MarkerErrorDangles`), and unfinished manifests count towards `retain`
  (exact condition for one prune: `CheckpointStore.PruneLeavesACheckpoint`). With concurrent
  publishers the newest checkpoint is sure to stay exactly as long as every listing is safe
  (`CheckpointRetention.NewestCheckpointLoads`, `CheckpointRetention.UnsafeListingLosesNewest`);
  with retain 1 they can lose the only one (`CheckpointRetention.RetainOneLosesTheOnlyCheckpoint`).
- After an interrupted first publication a load that reported "not found" reports "no valid
  checkpoint" (`CheckpointStore.NotFoundBecomesNoValid`; nothing else can change:
  `CheckpointStore.UncommittedChangesOnlyTheError`).
- The check on a link's text does not keep links inside. Two accepted links can lead out
  together (`LinkTraps.AcceptedLinksLeadOut`), and a link may be made elsewhere than where it
  was checked (`LinkTraps.CheckedWhereItDoesNotLand`; exactly when a link is on its way,
  `LinkTraps.LandsWhereChecked`). What extraction writes stays in the destination all the same
  (`Links.ExtractionStaysInTheTree`), and `LinkTraps.SteadyExactly` gives the condition on a
  link that does keep it inside.
- A well-formed event line without a type is refused for ever, and nothing after it is
  delivered (`GatewayProgress.EmptyTypeStopsDelivery`, exact condition in
  `GatewayProgress.DeliverableExactly`).

## Model

| member | source | states |
|---|---|---|
| Controller.Reconciler.Reconcile | internal/controller/agentrun_controller.go:58-92 | one reconcile carries out its plan of writes, or a prefix of it when a call fails or the operator dies at any write, and changes nothing else; it does not fail while every answer is fine; and when it does not fail, object, pods, volume and RunSpec are, field by field, what the state and the request call for: a cancel Canceled with the pod going, a resume the next attempt with the request gone, a pause its proof, its pod going or Paused, a lost volume a charged or failed run, a pod its run phase |
| Controller.Reconciler.HandleRequestedTransition | internal/controller/agentrun_controller.go:96-134 | a pending request or a finished phase is handled with exactly the request's writes; otherwise nothing is touched and the reconcile goes on |
| Controller.Reconciler.EnsurePrerequisites | internal/controller/agentrun_controller.go:138-167 | the volume and the RunSpec are made available before any pod is looked at; a lost volume ends the reconcile in failure or in a recorded loss |
| Controller.Reconciler.EnsurePVC | internal/controller/agentrun_controller.go:289-355 | the volume is made only in Pending or under a pending restore; a loss with storage deletes the pod first and is recorded before anything is recreated |
| Controller.Reconciler.EnsureRunSpec | internal/controller/agentrun_controller.go:401-419 | the RunSpec ends up as the one of the stored status, written only if it differs |
| Controller.Reconciler.EnsurePod | internal/controller/agentrun_controller.go:451-471 | an absent pod is created unless it is the recorded one (disappeared) or admission forbids it |
| Controller.Reconciler.ReconcilePodState | internal/controller/agentrun_controller.go:475-527 | the pod is put on record before its phase is interpreted, a pod being deleted is left alone, and each pod phase leads to its run phase (which one, `Outcomes.ReconcileEnds` says in plain fields) |
| Controller.Reconciler.ClearRecoveryConditions | internal/controller/agentrun_controller.go:370-398 | exactly the recovery conditions that are True become False, in one write, and nothing is written when there are none |
| Controller.Reconciler.ReconcileRunningPod | internal/controller/agentrun_controller.go:496-512 | recovery conditions are cleared before the scraped checkpoint and the Running phase are stored |
| Controller.Reconciler.HandleMissingPod | internal/controller/agentrun_controller.go:532-554 | a vanished recorded pod is charged once or fails the run when the budget is spent |
| Controller.Reconciler.HandlePodFailure | internal/controller/agentrun_controller.go:558-600 | a failed pod is deleted before the restart is charged; a deterministic failure or a spent budget fails the run and leaves the pod |
| Controller.Reconciler.Cancel | internal/controller/agentrun_controller.go:607-612 | the pod is deleted before the run becomes Canceled |
| Controller.Reconciler.DeleteCurrentPod | internal/controller/agentrun_controller.go:614-626 | only the current attempt's pod is deleted, and an absent one is no error |
| Controller.Reconciler.Pause | internal/controller/agentrun_controller.go:633-651 | pausing aborts without storage, is journaled before anything is executed, takes a checkpoint only without a proof and removes the pod only with one |
| Controller.Reconciler.PublishPauseCheckpoint | internal/controller/agentrun_controller.go:664-698 | quiesce, checkpoint-once and the commit of its proof in that order; any failure on the way aborts the pause |
| Controller.Reconciler.RemoveCheckpointedPod | internal/controller/agentrun_controller.go:700-718 | the pod is deleted; once it is gone the request is cleared and only then the run is Paused |
| Controller.Reconciler.AbortPause | internal/controller/agentrun_controller.go:720-737 | the harness is unquiesced if it can be reached, the request cleared, the proof withdrawn and the run Running again |
| Controller.Reconciler.ResumeRun | internal/controller/agentrun_controller.go:749-801 | the old pod goes, the request is cleared before the status write, and one write begins the next attempt |
| Controller.Reconciler.SetPhase | internal/controller/agentrun_controller.go:804-811 | phase and Ready are stored together |
| Controller.ClassifyTermination | internal/controller/agentrun_controller.go:874-895 | retryable exactly if the first container that did not exit 0, if any, was killed for memory or exited 75 |
| Outcomes.ReconcileEnds | internal/controller/agentrun_controller.go:58-134 | for every state and whatever it learns, where a reconcile that nothing interrupts ends: requests before all else and in their order, then a lost volume, then the RunSpec of the status and the pod; PodSucceeded gives Succeeded, PodPending Provisioning, PodRunning Running with the newer checkpoint recorded and no recovery condition True, a failure Failed or the next attempt by exit code and budget |
| Outcomes.UninterruptedReconcile | internal/controller/agentrun_controller.go:58-92 | the same as a step of an execution, for any reconcile that gets through five writes; none has more |
| Outcomes.RetryableExactly | internal/controller/agentrun_controller.go:874-895 | the recursive verdict on the containers and its statement over positions agree |
| Progress.CancelEndsTheRun | internal/controller/agentrun_controller.go:607-626 | from every reachable state of a run that is not over, one reconcile after a cancel leaves it Canceled with every pod gone or going |
| Progress.FinishedRunSucceeds | internal/controller/agentrun_controller.go:475-527 | once the pod of the current attempt succeeded, two reconciles make the run Succeeded, one if the pod is on record; pods and volume stay |
| Progress.NewRunStarts | internal/controller/agentrun_controller.go:96-167 | two reconciles give a new run its volume, the pod of attempt 0 on record and a RunSpec for a fresh start |
| Progress.ResumedRunStartsAgain | internal/controller/agentrun_controller.go:749-801 | two reconciles give a resumed run the pod of its next attempt, every other pod gone or going, on the volume that is there, with a RunSpec that resumes without restoring |
| Reconciliation.PlanIsGuarded | internal/controller/agentrun_controller.go:58-92 | in every state and whatever it learns, each write of a reconcile is issued under its guard: proof before a pause removes a pod, restore pending before a later volume is made, budget before a restart |
| Runs.ExecutionIsHistory | internal/controller/agentrun_controller.go:58-92 | any execution with reconciles cut short anywhere is a history in which each operator write satisfies its guard |
| WorkspaceSafety.NoSilentWorkspaceLoss | internal/controller/agentrun_controller.go:289-398 | over every execution: while a volume made after Pending holds no restored checkpoint, no harness is up, the restore condition is True and the RunSpec demands resume and restore; a pod that starts on it has had a checkpoint given by LoadCheckpoint unarchived onto it, or fails for good |
| VolumeHistory.WorkIsNeverSilentlyLost | internal/controller/agentrun_controller.go:289-355 | over every execution in which no volume that was worked on goes away while the stored phase is Pending: a volume made after a harness had worked on an earlier one is marked for restore and is used by a harness only once a checkpoint was restored into it |
| VolumeHistory.SilentExactlyWhenPending | internal/controller/agentrun_controller.go:289-311 | the loss of a volume that was worked on can be followed by a harness on an emptied volume if and only if the stored phase is Pending when it happens |
| VolumeHistory.SilentLossHappens | internal/controller/agentrun_controller.go:289-311 | counterexample from admission on: the pod works and fails and the volume goes before a reconcile saw the pod, and a new attempt works on an empty volume without a restore |
| VolumeHistory.NeverMadeTakenForLost | internal/controller/agentrun_controller.go:263-311 | over every execution, while no volume was ever made: the missing volume is taken for a lost one if and only if a pause was aborted or a run resumed before the first volume was made |
| VolumeHistory.PauseBeforeProvisioningFails | internal/controller/agentrun_controller.go:720-737 | counterexample to the comment on ensurePVC: a pause requested before the volume was made, without storage, leads to Running without a volume and then to Failed as a lost workspace |
| VolumeHistory.PauseWithoutExecutorIsCharged | internal/controller/agentrun_controller.go:633-737 | the same with storage and no executor: the run goes Pausing and Running, and the volume that never was is charged and marked for restore |
| VolumeHistory.ResumeBeforeProvisioningIsMarked | internal/controller/agentrun_controller.go:749-801 | with storage and executor such a pause fails the run, and its resume marks the volume that never was for restore |
| WorkspaceSafety.StartRestores | internal/podruntime/podruntime.go:260-277 | a start on a blank volume in a sound state restores, under the spec of the stored status, or ends in a failure that is not retried |
| WorkspaceSafety.SoundEvent | internal/controller/agentrun_controller.go:421-448 | every event keeps: old pods are being deleted, a pod that can still start reads the current spec, a blank volume is marked and unused, recovery belongs to a later attempt |
| WorkspaceSafety.MarkAfterWrite | internal/controller/agentrun_controller.go:370-398 | no write but the clearing after a pod was seen Running takes the restore condition away |
| Hydration.RunHydrate | internal/podruntime/podruntime.go:249-308 | a resume without a mandatory restore exits 0 and leaves every file as it is; a fresh start has the clone when it worked, exits 75 on an unreachable proxy and 1 on a failed clone with the disk untouched; a mandatory restore exits 0 exactly with the loaded checkpoint unarchived onto the disk, and 1 otherwise |
| Hydration.RestoreFromCheckpoint | internal/podruntime/podruntime.go:328-355 | exit 0 exactly when the chosen checkpoint was loaded and unarchived onto the volume |
| Hydration.RestoreIsMandatory | internal/podruntime/podruntime.go:260-277 | a mandatory restore gives a checkpoint LoadCheckpoint accepts, the pinned one when one is pinned, or a failure that is not retryable |
| Hydration.PublishedWorkspaceComesBack | internal/podruntime/podruntime.go:328-355 | end to end: what PublishCheckpoint archived comes back on a blank volume as the workspace without its unsafe links |
| WorkspaceContents.WorkspaceIsKept | internal/podruntime/podruntime.go:260-267 | over every execution: from any moment, such as a harness's last write, through restarts, pauses, resumes and operator crashes to the next one, a volume that stays and needs no restore holds exactly what it held, whatever hydrates of later attempts run on it or die |
| WorkspaceContents.LaterStartKeepsTheDisk | internal/podruntime/podruntime.go:260-267 | a later attempt without a pending restore is told to resume, starts its harness and finds the volume untouched, whatever a clone would have given |
| PauseSafety.PauseRemovesOnlyOnProof | internal/controller/agentrun_controller.go:633-718 | over every execution a pausing run's pod is removed only from a stored state with proof and checkpoint; the proof stems from this episode, after a quiesce, if and only if none was there when it began |
| PauseSafety.OneProofPerRun | internal/controller/agentrun_controller.go:640-698 | over every execution from a stored proof on, no harness is quiesced and no pause checkpoint taken or committed again, in this pause or a later one |
| SecondPause.SecondPauseReusesProof | internal/controller/agentrun_controller.go:633-801 | a run from admission through start, pause, resume and start to a second pause whose next reconcile removes the second attempt's pod on the first attempt's checkpoint |
| PauseSafety.PausingLeavesCleanly | internal/controller/agentrun_controller.go:633-737 | Pausing leaves only to Paused, Running, Failed or Canceled, with both counters unchanged, and to Paused only with a proof and no live pod |
| PauseSafety.ResumeRestoresThePausedCheckpoint | internal/controller/agentrun_controller.go:440-443 | from the commit of the proof until the resumed pod is seen Running the recorded checkpoint does not change, and a pod starting on a re-made volume restores exactly that manifest |
| PauseSafety.HeldEvent | internal/controller/results.go:79-94 | no event but the sight of the resumed pod ends the pinned window, the scrape included |
| Generations.GenerationsAreAccounted | internal/controller/pod.go:221-237 | from any stored object the generation never decreases and grows by exactly the charged restarts, losses and manual resumes; from a fresh one it equals their number |
| Generations.GenerationStep | internal/controller/pod.go:228-237 | one write raises the generation by at most one |
| Generations.NoAttemptIsReused | internal/controller/agentrun_controller.go:451-471 | over every execution a created pod belongs to a generation above every one whose pod was seen Running |
| RetryBudget.RestartsAreBounded | internal/controller/agentrun_controller.go:532-600 | RestartCount is at most the budget plus the losses ensurePVC charged, and the attempts of the whole run are bounded by its resumes and losses |
| RetryBudget.LossIsChargedRegardless | internal/controller/agentrun_controller.go:334-336 | a lost workspace is charged whatever is left of the budget |
| RetryBudget.FailingRunEnds | internal/controller/agentrun_controller.go:532-600 | a run that only ever loses its pods, on a volume that is there or may be made and with operators dying between the deletion and the charge, gets exactly the attempts the budget has left and one more, and is Failed after the last |
| RetryBudget.NewFailingRunEnds | internal/controller/agentrun_controller.go:96-167 | from admission on: exactly one attempt more than the budget |
| WorkspaceLoss.LostForGood | internal/controller/agentrun_controller.go:96-167 | without storage, once a run past Pending has lost its volume, no request and no crash leads to a volume, a pod or success |
| WorkspaceLoss.PendingIsNeverReentered | internal/controller/agentrun_controller.go:96-134 | a run that left Pending never returns to it |
| WorkspaceLoss.LostWorkspaceIsRecovered | internal/controller/agentrun_controller.go:313-354 | with storage, after pod and volume are gone two uninterrupted reconciles bring up a pod of the next attempt on a blank volume with a mandatory restore |
| WorkspaceLoss.OneIncidentOneCharge | internal/controller/agentrun_controller.go:313-354 | the loss of pod and volume, in any order, repeated, with any crashes and slow deletions, advances generation and RestartCount together and at most once until the replacement is seen Running, unless a reconcile records a pod that is being deleted |
| WorkspaceLoss.LateRecordIsChargedAgain | internal/controller/agentrun_controller.go:475-494 | the other half: once charged, such a record is followed by a second charge of the incident when that pod is gone |
| WorkspaceLoss.TheIncidentIsCharged | internal/controller/agentrun_controller.go:313-354 | the first uninterrupted reconcile after the loss does advance both |
| WorkspaceLoss.SlowDeletionChargesTwice | internal/controller/agentrun_controller.go:328-343 | a run in which that happens: the pod ensurePVC deleted lingers, is put on record again, and its end is charged a second time |
| CheckpointStore.Store.PublishCheckpoint | internal/blob/checkpoint.go:37-78 | it publishes, without a warning, when no call goes wrong, and is refused, warns or dies only for a call that did, or is refused for a missing run id or an unarchivable workspace; after any failure or crash at any call, prune included, a load gives exactly the new checkpoint or what it gave before, with "not found" turned into "no valid checkpoint" exactly when an unfinished manifest was left; after success exactly the new one with its archive; and without a warning the newest `keep` manifests (five by default), its own among them, are left with what they name, every other gone with its archive |
| CheckpointStore.Store.LoadManifest | internal/blob/checkpoint.go:135-163 | a manifest is accepted exactly when version, fields, size and digest check out, and given as it was stored, under its key, with its archive |
| CheckpointStore.Store.LoadCheckpoint | internal/blob/checkpoint.go:100-133 | with a key that manifest or none; without one the most recent manifest that loads, or if there is none the most recent snapshot from before manifests under the id its key spells, or the exact error |
| CheckpointStore.Store.PruneCheckpoints | internal/blob/checkpoint.go:165-198 | only manifests with at least `retain` newer ones, and their archives, are deleted; wherever it is cut off, every manifest that loaded and is still visible still loads unless its own deletion reported an error; it dies or reports an error exactly when a call did; undisturbed, exactly the newest min(n, retain) manifests are left, and what they name |
| CheckpointStore.Store.PruneOne | internal/blob/checkpoint.go:183-195 | the marker is deleted before the archive; the archive also goes when deleting the marker reported an error; death and errors are those of the two calls |
| Checkpoints.LatestLoad | internal/blob/checkpoint.go:100-133 | without a key: the newest valid manifest, legacy snapshots only if there is none, and the two errors exactly when there is nothing |
| Checkpoints.ExplicitLoadNeverFallsBack | internal/blob/checkpoint.go:100-106 | with a key: that manifest with its archive intact, or failure, never another |
| CheckpointStore.UncommittedIsInvisible | internal/blob/checkpoint.go:48-70 | until the manifest object is complete every load that gave a checkpoint gives the same one |
| CheckpointStore.UncommittedChangesOnlyTheError | internal/blob/checkpoint.go:107-132 | the exact condition under which the answer of a load changes all the same: there was nothing before and the unfinished manifest is there |
| CheckpointStore.NotFoundBecomesNoValid | internal/blob/checkpoint.go:127-132 | the input: a first publication cut off after opening its manifest |
| CheckpointStore.CommittedIsLatest | internal/blob/checkpoint.go:66-70 | a complete manifest newer than the rest is what a load gives |
| CheckpointStore.MarkerErrorDangles | internal/blob/checkpoint.go:183-195 | a deletion error on the marker can leave a visible manifest without its archive |
| CheckpointStore.PruneLeavesACheckpoint | internal/blob/checkpoint.go:165-198 | an undisturbed prune leaves something to load if and only if a loadable manifest has fewer than `retain` newer ones |
| CheckpointStore.TornManifestEvicts | internal/blob/checkpoint.go:165-198 | with retain 1 a half-written newer manifest makes a prune delete the only checkpoint |
| CheckpointProtocol.VisibleManifestsAreBacked | internal/podruntime/podruntime.go:540-596 | under any interleaving of concurrent publishers and pruners, with crashes anywhere and failing deletions other than of a loading manifest's marker, every visible complete manifest has its archive intact |
| CheckpointProtocol.SkippedMarkerDangles | internal/blob/checkpoint.go:183-195 | the excluded case: a pruner that reports an error on the marker of a manifest that loads leaves it without its archive |
| CheckpointProtocol.DeletedOnlyWhenSurplus | internal/blob/checkpoint.go:165-198 | a manifest is deleted only when at least `retain` newer ones were there at some time before |
| CheckpointRetention.NewestCheckpointLoads | internal/podruntime/podruntime.go:540-596 | in every run from a consistent store, unfinished manifests and crashed publishers included: as long as no listing counts the newest complete manifest, or one still being written, among the surplus, a load gives the newest checkpoint ever completed |
| CheckpointRetention.UnsafeListingLosesNewest | internal/blob/checkpoint.go:165-198 | the other half: from any state with a listing that is not safe the run can go on so that the newest completed checkpoint is gone |
| CheckpointRetention.RetainOneLosesTheOnlyCheckpoint | internal/podruntime/podruntime.go:540-596 | a run of two publishers with retain 1 that first can load the only checkpoint and in the end has nothing to load |
| CheckpointSolo.PublishesAlone | internal/blob/checkpoint.go:37-78 | from every state of the protocol, whatever others have left half done: a publisher that is left alone gets through in single store operations to what the sequential `PublishCheckpoint` promises: its checkpoint loads and the newest `retain` manifests are left with what they name |
| CheckpointSolo.PrunesTheRest | internal/blob/checkpoint.go:183-195 | the retention loop in single operations, each manifest read, checked, unmarked and swept, takes away what the sequential loop takes away |
| Archives.Archive | internal/blob/archive.go:20-35 | it succeeds exactly if there is no socket in the tree; then the stream holds one entry per visited node in order, without the unsafe links |
| Archives.WriteEntry | internal/blob/archive.go:42-64 | a directory, file or safe link is appended with its name, content and, for a directory, a closing slash; an unsafe link is skipped, a socket refused |
| Archives.Workspace.Unarchive | internal/blob/archive.go:114-139 | the entries are applied in order until one is refused |
| Archives.Workspace.ExtractEntry | internal/blob/archive.go:141-171 | an entry is refused for its name, for its link text or by `os.Root`, which follows the links in its way, or takes effect where its name leads |
| Archives.FirstRefusalStops | internal/blob/archive.go:114-139 | whatever follows the first entry that is refused in its turn, the extraction fails with that entry's error |
| Archives.FailsAtAnEntry | internal/blob/archive.go:114-139 | a failing extraction fails at some entry, all before it having been extracted |
| Links.EntryInPlace | internal/blob/archive.go:141-171 | where no link is in the way an entry takes effect at the path its name spells: missing directories are made, a file is made or overwritten, a link made where nothing is; it fails exactly when something else is in the way |
| Archives.RoundTrip | internal/blob/archive.go:37-171 | unarchiving an archive into an empty directory never fails and gives the tree with exactly the unsafe links removed |
| Archives.WriterAndReaderAgree | internal/blob/archive.go:66-78 | the writer drops a link exactly when the reader would refuse it |
| Links.EntryLandsInside | internal/blob/archive.go:141-208 | whatever links are in the way, an entry makes directories and puts its content at one plain path below real directories, where there was nothing or a file; nothing else changes |
| Links.ExtractionStaysInTheTree | internal/blob/archive.go:141-208 | whatever the stream says, extraction leaves plain paths below real directories and removes nothing |
| Links.RootAgreesWithTheKernel | internal/blob/archive.go:202-208 | unless `os.Root` refuses a name for leading out, it resolves it as the kernel does, so to a place below the destination |
| Links.SteadyLinksStayInside | internal/blob/archive.go:173-185 | in a tree whose links are all steady no path leads out, through however many links |
| LinkTraps.SteadyExactly | internal/blob/archive.go:173-185 | the exact condition: a link stays inside in every tree whose other links are steady if and only if it is steady itself |
| LinkTraps.AcceptedLinksLeadOut | internal/blob/archive.go:173-185 | counterexample: two accepted links are archived and restored, and one of them leads out through the other |
| LinkTraps.CheckedWhereItDoesNotLand | internal/blob/archive.go:156-166 | counterexample: an accepted entry whose link is made in another directory than it was checked for, fails the check there and leads out |
| LinkTraps.LandsWhereChecked | internal/blob/archive.go:156-166 | a link is made at the path it was checked for if and only if no link is on the way to it |
| Paths.SymlinkContainment | internal/blob/archive.go:176-185 | a link is accepted if and only if its target is relative and walking it from the link's directory never climbs above the root |
| Paths.EntryContainment | internal/blob/archive.go:202-208 | an entry name is accepted if and only if it is relative and never climbs above the root |
| Paths.ResolveStaysUnderRoot | internal/blob/mount.go:43-51 | a key resolves if and only if its cleaned path is at or under the root, and then to that path |
| Paths.RunsAreIsolated | internal/blob/blob.go:38-45 | two runs with distinct single-component ids in one bucket have no object path in common |
| Paths.BaseIsKept | internal/blob/blob.go:38-45 | a bucket with a base path keeps every run at that path, under `runs` and its id |
| Paths.CleanLaws | internal/blob/mount.go:43-51 | what cleaning a path does, law by law: "." and empty components go, ".." goes with the name before it and at the root alone, names stay |
| Mount.MountStore.Put | internal/blob/mount.go:55-78 | it succeeds exactly if nothing but directories is on the way and no directory at the end; then the object is there with this content and time; no other object is gone or changed and only directories on its way are new |
| Mount.MountStore.Get | internal/blob/mount.go:83-99 | the stored bytes, not-found exactly when nothing is there, or the other errors |
| Mount.MountStore.List | internal/blob/mount.go:105-144 | exactly the files at or under the prefix, once each, in key order, each under a key that resolves to it with its size and time; empty when nothing is there |
| Mount.MountStore.Delete | internal/blob/mount.go:148-160 | exactly the object goes and everything else stays; a missing one is a success, a directory in use or a file in the way an error without effect |
| Mount.KeyResolves | internal/blob/mount.go:105-144 | a listed key leads back to the file it was listed for |
| Mount.RunsDoNotInterfere | internal/blob/mount.go:43-51 | whatever key one run's store is given, nothing at or under another run's root changes |
| Mount.PutThenGet | internal/blob/mount.go:55-99 | after a put every key of that object reads what was put, no other key's content appears, changes or goes, and keys whose paths are neither above nor below read exactly as before |
| Mount.DeleteThenGet | internal/blob/mount.go:83-160 | after a deletion the key is not found and every other key not below it reads exactly as before |
| MountedCheckpoints.CheckpointsAreApart | internal/blob/checkpoint.go:37-78 | in a mounted store, putting or deleting a checkpoint's manifest or archive changes what is read of that object and of no other object of any checkpoint |
| DurableStore.Memory.CreateRunWithOperation | internal/store/memory_durable.go:11-36 | record, operation and first event are stored together, or nothing is when either id exists |
| DurableStore.Memory.ClaimOperations | internal/store/memory_durable.go:38-73 | the first min(limit, ready) operations by creation time and id are leased to the worker for their next attempt and returned; every other is left as it was |
| DurableStore.Memory.CompleteOperation | internal/store/memory_durable.go:75-89 | only the holder completes; anyone else gets the lost-lease error and changes nothing |
| DurableStore.Memory.RetryOperation | internal/store/memory_durable.go:91-105 | only the holder releases for a later time |
| DurableStore.Memory.FailOperation | internal/store/memory_durable.go:107-126 | only the holder fails it, together with its run's record and event; an unknown run is an error without effect |
| DurableStore.Memory.AppendRunEvent | internal/store/memory_durable.go:128-135 | an event of a known run is appended unless its key is there |
| DurableStore.Memory.AppendEventLocked | internal/store/memory_durable.go:137-155 | appended at the end under the next id, or nothing when source and source id are there |
| DurableStore.Memory.ListRunEvents | internal/store/memory_durable.go:157-178 | the events from the first beyond the cursor on without a gap, as many as asked for, 200 when that is not between 1 and 1000, or all there are |
| DurableStore.PageIsPage | internal/store/memory_durable.go:163-176 | the filtering loop gives a contiguous piece of the journal, as ids increase |
| DurableStore.ClaimHands | internal/store/memory_durable.go:38-73 | what a claim hands out and leaves, field by field |
| DurableStore.AppendKeepsJournals | internal/store/memory_durable.go:137-155 | ids increase, keys do not repeat, and journals only grow at the end |
| Journals.ReaderSeesTheJournal | internal/store/memory_durable.go:128-178 | with any limits and any use of the store in between, paging from the last id reads the journal without gap or repeat, and each page has as many events as asked for (200 by default) unless it reaches the end |
| Leases.ClaimsAreALeaseApart | internal/store/memory_durable.go:38-105 | two claims of one operation without a retry between them are at least the first lease apart, whatever the clocks and the other workers do |
| Leases.StaleWorkerIsPowerless | internal/store/memory_durable.go:75-126 | a worker whose claim another took gets the lost-lease error from every call and changes nothing until it claims again |
| Leases.TerminalIsFinal | internal/store/memory_durable.go:38-126 | a completed or failed operation never changes and is never handed out |
| Leases.NonTerminalIsClaimable | internal/store/memory_durable.go:46-52 | any other operation is ready from a known time on and is then taken by a claim with room |
| Outbox.Service.DispatchPending | internal/coreapi/outbox.go:60-72 | the claimed operations are dispatched one after the other, none stays held, and the call reports no error exactly if all of them are completed; when nothing is in the way of them and no call fails, every one is completed and its AgentRun there as asked for |
| Outbox.Service.DispatchOperation | internal/coreapi/outbox.go:74-93 | for a worker that holds the operation: when nothing is in the way the AgentRun is there as asked, the operation Completed and let go, and the journal has run.launch_accepted under its id; an error that may go away puts it off by its back-off; any other, or the twelfth attempt, leaves operation and run Failed with the LaunchReady condition and run.launch_failed journaled; the store is untouched for anyone else; no error is reported exactly in the first case |
| Outbox.Service.RetryOrFail | internal/coreapi/outbox.go:95-104 | a permanent error or the twelfth attempt fails, anything else is retried after the attempt's back-off; either way the cause is reported |
| Outbox.Service.FailOperation | internal/coreapi/outbox.go:106-124 | run record, condition, event and operation fail together |
| Outbox.Service.CreateRun | internal/coreapi/service.go:243-267 | record, first event and a pending launch operation for this specification, ready at once, are committed together before anything is launched; nothing changes when the id exists |
| Outbox.Fake.CreateRun | internal/launcher/fake.go:69-85 | creates, or finds the same specification, or errors without a change |
| Outbox.DispatchEnds | internal/coreapi/outbox.go:74-124 | in plain fields, for any store, cluster, fault and holder: what the effect and its settlement leave |
| Outbox.AllGetSettled | internal/coreapi/outbox.go:60-72 | over all that was claimed: nothing stays held, and without faults and conflicts everything is completed and launched as asked |
| LaunchSafety.LaunchedOnceAsCommitted | internal/coreapi/outbox.go:60-124 | over any crashes, replays, lost replies and workers: an AgentRun exists only for a committed run, once, with the committed specification, and a completed launch has one |
| LaunchSafety.EffectIsIdempotent | internal/launcher/fake.go:69-85 | a repeated launch makes or finds the same AgentRun and never meets a different one |
| LaunchProgress.SettledAsItWent | internal/coreapi/outbox.go:74-124 | over every run of the system, a worker that still holds its operation settles it as the launch went: Completed and accepted, put off by its back-off, or Failed with its run; one that does not changes nothing |
| LaunchProgress.LaunchGetsThrough | internal/coreapi/outbox.go:60-93 | from every state the system can get to, a launch that is claimed, carried out without a fault and settled ends Completed with its AgentRun there as committed |
| LaunchProgress.TakesAreThirtySecondsApart | internal/coreapi/outbox.go:60-64 | over every run of the system, two claims of an operation without its settlement between them are at least thirty seconds apart |
| LaunchEvents.OneTerminalEvent | internal/store/memory_durable.go:75-126 | a completed or failed launch has exactly one outbox event in its run's journal and it tells which; any other launch has none |
| LaunchEvents.NeverSucceedingIsFailed | internal/coreapi/outbox.go:95-104 | in any history of the store, whatever else is called before and during its attempts: a launch that never succeeds and whose workers live through them is failed at its twelfth attempt, sooner exactly on a permanent error; no attempt starts before the back-off of the one before is over; from each settlement to the next availability it is put off by at most 383 seconds in all, by just that over twelve attempts |
| Gateway.RunGateway | internal/podruntime/gateway.go:26-66 | replaying the file from its first line under any chunking keeps what was delivered and delivers in order; it gets through exactly if the run is known, every well-formed line has a type and some request for each is answered, and then all that is due is delivered |
| Gateway.DeliverGatewayLine | internal/podruntime/gateway.go:84-98 | a malformed line uses its number and delivers nothing; a well-formed one comes next in line and goes through exactly for a known run, a type and an answered request |
| Gateway.ForwardGatewayEvent | internal/podruntime/gateway.go:100-138 | however often request or reply is lost, the line is journaled at most once; it is journaled if a request arrives and is acceptable, and acknowledged exactly if the reply to such a one arrives too |
| Gateway.AppendGatewayEvent | internal/coreapi/service.go:460-474 | accepted exactly for a known run with id and type, and then journaled once, at the end of its run's journal, unless its key is there; nothing else changes |
| Gateway.DeliveredInOrderOnce | internal/podruntime/gateway.go:21-66 | with file growth, restarts, lost acknowledgements and late or repeated requests the journal always holds a beginning of the well-formed lines, each once, in order, and never shrinks |
| Gateway.ItemIsForItsLine | internal/podruntime/gateway.go:84-98 | each delivered key carries its own line's number, malformed lines counted |
| Gateway.LineHasItsItem | internal/podruntime/gateway.go:84-98 | and every well-formed line is due, under its own number with its type and payload |
| GatewayProgress.DeliverableExactly | internal/podruntime/gateway.go:84-138 | from any state of a new attempt the i-th well-formed line can still be delivered if and only if the run is known and no line up to it is without a type |
| GatewayProgress.EmptyTypeStopsDelivery | internal/coreapi/service.go:460-464 | the input: with `{}` as the first line nothing of the attempt is ever delivered, whatever follows |
| GatewayAttempts.SourceIDsDiffer | internal/podruntime/gateway.go:100-102 | the keys of different attempts differ, whatever the line numbers |
| GatewayAttempts.AttemptsKeepApart | internal/controller/pod.go:448-452 | no step of one attempt's gateway changes what the journal holds of another attempt |
| GatewayAttempts.EachAttemptInOrder | internal/podruntime/gateway.go:21-66 | any number of attempts of a run, at once or one after the other, on a journal no gateway has written to: of each attempt exactly a beginning of its own well-formed lines is there, in order, and nothing of one that has not begun |

## Left out

- Pod, container, security-context and network objects: built by straight-line code that the state machine does not look into.
- The EgressEnforcement and CheckpointStorage conditions and their status writes: constant postures that nothing modelled reads.
- Pull request, usage and session results scraped from logs, and reading the log itself: the newest checkpoint event is an input of a reconcile.
- Deletion of an AgentRun and garbage collection of what it owns.
- Transient read errors inside a reconcile after the first read: they stop it like a failed write.
- Writes to the object by others between two writes of one reconcile; the update conflicts they cause appear as failed writes.
- int32 and int64 widths of counters and times: counters are unbounded here.
- Condition reasons, messages and transition times, and requeue delays.
- The clone, the proxy wait, git finalization and the Codex state directory of hydrate: a clone is an input that succeeds with any tree or fails.
- Controller.Reconciler.EnsurePrerequisites: the two posture conditions it also stores, which nothing modelled reads.
- Controller.Reconciler.ReconcilePodState: the scraping of run results on success and failure; the newest checkpoint of the log is an input.
- Controller.Reconciler.HandlePodFailure: the scraping of run results before the deletion.
- Controller.Reconciler.PublishPauseCheckpoint: the JSON decoding of the proof is an input (complete, incomplete or garbled), and a quiesce that reports an error is taken to have had no effect.
- Hydration.RunHydrate: what a failed restore leaves on the volume is arbitrary and given in the execution's event, not computed.
- CheckpointStore.Store.PublishCheckpoint: nothing is promised when the backend stored other manifest bytes than were sent.
- CheckpointStore.Store.LoadCheckpoint: reads of the bucket do not fail; only writes and deletions do.
- CheckpointStore.Store.PruneCheckpoints: listing and manifest reads do not fail.
- CheckpointProtocol.VisibleManifestsAreBacked: a failing deletion of a loading manifest's marker is excluded, because it breaks the property (SkippedMarkerDangles).
- Archives.Workspace.ExtractEntry: what a refused call of `os.Root` leaves behind (some directories of its path), and its limit on path steps.
- Archives.Archive: file modes, times and owners, and I/O errors while reading or writing files.
- Mount.MountStore.Put: I/O errors and writes cut short; those are in CheckpointStore.Store, on keys instead of a file tree.
- Mount.MountStore.Get: opening a directory succeeds in the code and fails when read; here it is one error.
- DurableStore.Memory.AppendEventLocked: the id and time written back into the caller's event, and the copying of payloads.
- Outbox.Service.CreateRun: validation, credential checks and the building of the AgentRun come before it and are not modelled.
- Outbox.Service.DispatchOperation: error texts and event payloads are abstract; all calls of one dispatch read the same time.
- PauseRun, ResumeRun, GetRun and ReconcileFromCluster of the service: simple guards and mirroring; mirrored records enter LaunchSafety as arbitrary updates of submitted runs.
- Run deletion, which leaves a pending operation behind.
- Gateway.ForwardGatewayEvent: the retry delays, and which lines decode; the gateway is told to stop when its scripted tries are used up.
- The Postgres store, HTTP and CLI layers, the desktop app, the installer and the harness adapters.
