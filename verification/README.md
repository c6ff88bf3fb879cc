# ZFS-LocalPV: a verified model of the driver's core

ZFS-LocalPV is a CSI driver. A controller turns CSI calls into ZFSVolume, ZFSSnapshot and
ZFSBackup custom resources; an agent on every node turns those resources into `zfs` commands.
Controller and agents meet only in the Kubernetes API server, through resource versions,
finalizers, labels and a status, and each sees the others late. This project models that core
in Dafny 4.11 and proves what it keeps. `dafny verify dfyconfig.toml` checks all of it.

The parts, in reading order:

- **Control plane.** `Resource`, `Api` and `ZfsStore` give the resources, their histories and the
  datasets of a node. `Cluster` is one state machine over all handlers, all agents, stale
  informers, API failures, `zfs` failures, agent and controller crashes, timeouts and outside
  edits. `Consistency`, `DeleteSafety`, `CreateCleanup`, `AgentSafety`, `EarlyRelease`, `Readiness`
  and `OwnerDrain` prove invariants of every run of it, and `Retry` treats interrupted reconciles.
  `Calls` and `Attempts` say what each call comes to, `Reconcile` what the agents make of changes,
  and `Lifecycle` runs a volume from creation to its last trace.
  `Races`, `TombstoneRace` and `SnapshotRaces` give runs from the initial state that show which
  hypotheses are needed; `Script` and `Scenarios` are the steps they are put together from. `Agent`
  is the agents' code in the form it runs in, proved equal to the steps of the machine.
- **Named lock.** `NamedLock`: the condition variable behind the two-name lock, over all
  interleavings.
- **Backup garbage collector.** `BackupKeys`, `BackupGC`, `BackupCascade`: composed-key indexes,
  integrity, and the asynchronous cascade.
- **Scheduling.** `Scheduler` with `Totals`: the loops that filter nodes, choose pools and build
  weight maps, and that they agree with each other.
- **runPipe.** `RunPipe`: the two-process supervisor.
- **Command lines.** `UserProp`, `Argv`, `ArgvBuild`, `ArgvRoundTrip`, `PropertyUpdate`: the
  argument lists, an interpreter that reads them back as `zfs` does, and property updates.
- **Capacity and provisioning.** `Capacity` and `Provisioning`: 64-bit rounding, expansion, and
  the loop that tries nodes.

Some results are about behaviour that falls short of what one might expect, each with its exact
condition:

- A destroy that is stopped between a clone and its source snapshot, or that fails to list or
  destroy the snapshot, leaks it (`Retry.InterruptedDestroyLeaksIff`, `Retry.FaultyDestroyLeaksIff`).
- A CreateVolume whose first read of an existing volume fails overwrites the volume and can delete it
  (`CreateCleanup.CanDeleteLiveIff`), even one with a live snapshot
  (`SnapshotRaces.CleanupStrandsSnapshot`).
- A node that is not settled when it loses a volume can come to act on it
  (`OwnerDrain.CanMisreadIff`); the volume can then be Ready in the wrong place (`Races.UndrainedRace`),
  and draining the last owner's node alone does not prevent it (`TombstoneRace.LastOwnerDrainedRace`).
- A snapshot's finalizer can be taken off while its dataset is on the node, when a volume clone of the
  snapshot's name takes the snapshot again (`EarlyRelease.CanReleaseEarlyIff`,
  `SnapshotRaces.ReleasedTooEarly`).
- A snapshot id naming the wrong volume makes DeleteSnapshot delete a volume that still has a live
  snapshot (`DeleteSafety.DeleteSnapshotSafe`, `SnapshotRaces.WrongIdStrandsSnapshot`).
- An update of a backup can leave an orphan nobody looks at (`BackupGC.UpdateSafeIff`).
- Rounding overflows above 2^63 - 2^30 (`Capacity.RoundedCoversIff`).

## Model

| member | source | states |
|---|---|---|
| DeleteSafety.DeleteVolumeSafe | pkg/driver/controller.go:642-718 | In every run, when DeleteVolume comes to delete the volume's resource, no snapshot resource labelled with the volume exists at that moment. |
| Calls.DeleteVolumeDecides | pkg/driver/controller.go:642-718 | In every run: if a DeleteVolume call meets no fault after listing the volume's snapshots and the volume is still there at its last request, it leaves the volume on its way out if the listing found none; if it found one, the deletion timestamp is as before and the volume is marked, unless somebody wrote it meanwhile. |
| Calls.DeleteVolumeOutcome | pkg/driver/controller.go:642-718 | Undisturbed, the call leaves a volume that is gone, going or not Ready as it is, deletes one without snapshots and marks any other; every other resource, all nodes and all locks are as before. |
| Lifecycle.CreatedAndDeleted | pkg/mgmt/volume/volume.go:77-126 | For every volume there is a run from the initial state in which it is created and Ready, then deleted, and that ends with its resource gone and the node's datasets exactly as they were. |
| DeleteSafety.DeleteSnapshotSafe | pkg/driver/controller.go:988-1072 | In every run, when DeleteSnapshot comes to delete the volume, its listing is its own snapshot alone exactly when the snapshot it read carries the volume of the id; then every snapshot of the volume is that one, already terminating. |
| Calls.DeleteSnapshotOutcome | pkg/driver/controller.go:988-1072 | Undisturbed, the call deletes the snapshot if it is there, and the volume with it exactly when the volume is marked and had one snapshot; nothing else changes. |
| Calls.CreateSnapshotOutcome | pkg/driver/controller.go:886-983 | Undisturbed, the call makes a Pending snapshot of the volume's spec with the request's user properties exactly when the name is free and the volume there; otherwise nothing changes. |
| Calls.ExpandVolumeOutcome | pkg/driver/controller.go:788-847 | Undisturbed, a call that writes gives the volume the new capacity and keeps everything else. |
| Calls.FaultEndsCall | pkg/driver/controller.go:642-1072 | A fault at any step of DeleteVolume, DeleteSnapshot, CreateSnapshot or an expansion ends the call with nothing written, except that CreateSnapshot takes a snapshot it cannot read for one that is not there. |
| DeleteSafety.SafeRun | pkg/driver/controller.go:886-1072 | Invariant of all runs: a handler past its locks holds its names and no other handler does, and each handler's listing covers every snapshot of its volume until it lets go of the name. |
| DeleteSafety.SnapEffect | pkg/driver/controller.go:886-983 | Whatever step is taken, a snapshot keeps its volume label and its deletion timestamp, and only CreateSnapshot makes one. |
| SnapshotRaces.WrongIdDeletesVolume | pkg/driver/controller.go:988-1072 | From every state where the id's snapshot is not the marked volume's one live snapshot, DeleteSnapshot's next steps delete the volume and leave that snapshot live. |
| SnapshotRaces.WrongIdStrandsSnapshot | pkg/driver/controller.go:988-1072 | For any two volumes with a snapshot each there is a run from the initial state that reaches such a state and ends with a volume being deleted while its own snapshot is alive. |
| CreateCleanup.CleanupSafe | pkg/driver/controller.go:262-435 | In every run, when a CreateVolume call comes to its clean-up delete, every snapshot of the volume was there when the call was at its precheck, name held; and if the volume was alive then, the precheck's read failed. |
| CreateCleanup.CanDeleteLiveIff | pkg/driver/controller.go:262-435 | In every run, a call at its precheck that meets a live volume can still come to delete it while it is alive exactly when the read fails, there is a node to try and the call is no clone. |
| CreateCleanup.HeldRun | pkg/driver/controller.go:382-438 | However a run goes on, until a CreateVolume call lets go of the name nobody gives the volume a snapshot. |
| Attempts.AttemptsInOrder | pkg/driver/controller.go:382-438 | In every run: at its i-th attempt a CreateVolume call has given up every one before, each because its write failed or the volume was found missing or failed; and it comes to its clean-up only after giving up all, or after a timeout. |
| Attempts.GivesUpGoesOn | pkg/driver/controller.go:382-438 | A failed attempt is followed by the next node's, and the last by the clean-up, which a clone has not. |
| Attempts.AttemptGoesOn | pkg/zfs/volume.go:139-202 | An attempt that has not failed reads, writes and polls; it ends at Ready or a timeout and otherwise polls on, changing nothing. |
| Attempts.AttemptWrites | pkg/zfs/volume.go:139-202 | It writes its own node's spec, Pending, over the version it read, or a new resource with the source label. |
| Attempts.PrecheckDecides | pkg/driver/controller.go:262-278 | A volume found alive is left as it is; one that cannot be read, or is gone or going, is provisioned if there is a node to try. |
| Attempts.CleanupDeletes | pkg/driver/controller.go:432-435 | The clean-up puts a volume that is there on its way out, unless the request fails. |
| SnapshotRaces.CleanupStrandsSnapshot | pkg/driver/controller.go:262-435 | For every volume there is a run from the initial state in which a second CreateVolume, failing to read the Ready volume once, deletes it while it has a live snapshot. |
| Consistency.FreshCopy | pkg/zfs/volume.go:296-324 | A worker's write that the server accepts was made from the current version, and its informer has nothing newer to deliver. |
| Consistency.ConsistentRun | pkg/mgmt/volume/volume.go:39-59 | Invariant of all runs: versions only grow, and every copy a worker or handler holds is one the server once had. |
| AgentSafety.AgentsKeepUserFinalizers | pkg/mgmt/volume/volume.go:77-97 | In every run, however stale its copies, no step of an agent adds, drops or reorders a user finalizer, and a resource it makes disappear was terminating and had none. |
| AgentSafety.ReleaseIffListed | pkg/zfs/zfs_util.go:759-811 | When a destroy reports success, the dataset is still there exactly if it was there and listing it failed. |
| AgentSafety.VolumeReleasedWhenGone | pkg/zfs/volume.go:319-324 | In every run in which the volume's own listings are truthful, whatever other workers meet, a write that takes the driver's finalizer off a volume finds its dataset absent from the node. |
| AgentSafety.SnapshotReleasedWhenGone | pkg/mgmt/snapshot/snapshot.go:76-110 | The same for a snapshot, in every run in which no volume clone of its name takes the snapshot again while it is being released. |
| AgentSafety.OtherActGoneIff | pkg/zfs/zfs_util.go:572-619 | While a worker is about to release a dataset that is gone, another worker's commands bring it back exactly when it is a snapshot and they are a clone of its volume under its name. |
| EarlyRelease.CanReleaseEarlyIff | pkg/mgmt/snapshot/snapshot.go:76-110 | In every run, from a state in which a worker is about to release a dataset that is gone, it can come to take the finalizer off with the dataset back exactly when, before its write, a volume clone of the snapshot's name can act while the write would still be accepted. |
| EarlyRelease.VolumeNeverEarly | pkg/zfs/volume.go:319-324 | A volume's worker never can. |
| AgentSafety.SnapAppearsIff | pkg/zfs/zfs_util.go:572-836 | A reconcile makes a snapshot dataset exactly when it is a valid one of that snapshot, or of a volume clone of its name, whose source is there and whose command does not fail. |
| SnapshotRaces.ReleasedTooEarly | pkg/zfs/zfs_util.go:572-619 | For every volume and snapshot there is a run from the initial state, all listings truthful, that ends with the agent about to take the snapshot's finalizer while the dataset is on the node. |
| AgentSafety.SoundRun | pkg/mgmt/snapshot/snapshot.go:76-110 | Invariant of all runs: what each worker has established on disk by the time it writes. |
| Readiness.ReadyIsOnLabelledNode | pkg/zfs/volume.go:296-316 | In every run, without further hypotheses, a volume that is Ready and not terminating has its dataset in its pool on the node its label names. |
| Readiness.ReadyIsOnOwner | pkg/mgmt/volume/volume.go:77-126 | The same for the owner node, in every run where no worker writes for a volume another node owns in the copy it read. |
| OwnerDrain.SettledIsOwned | pkg/mgmt/volume/volume.go:129-187 | That hypothesis holds if a node is settled whenever it loses a volume, and every other node whenever one is created: no key queued, no worker that may fail, and no event or resync still to come that the filters of addZV, updateZV (property change, deletion, Pending) and deleteZV would queue. Each worker then keeps to versions its node owns, whatever informers lag behind. |
| OwnerDrain.SettledReadyIsOnOwner | pkg/mgmt/volume/volume.go:39-187 | In every such run a Ready volume that is not terminating has its dataset in its PoolName on its OwnerNodeID. |
| OwnerDrain.CanMisreadIff | pkg/mgmt/volume/volume.go:129-187 | No less will do: in every run in which that was kept to so far, when a version goes to another node, this node's worker can come to read a version it does not own, without another being written, exactly when the node was not settled. |
| OwnerDrain.DrainedReadyIsOnOwner | pkg/mgmt/volume/volume.go:39-187 | In particular when the key is drained on the node that loses a volume, before the owner changes, and on every other node before one is created: everything seen, nothing queued, no worker that may fail, nothing a resync would queue. Versions by the same owner ask nothing of other nodes. |
| OwnerDrain.RefusedIsRetried | pkg/mgmt/volume/volume.go:229-280 | A write that fails, or from a copy that is out of date, puts the key back into the queue. |
| OwnerDrain.FailedIsRetried | pkg/mgmt/volume/volume.go:229-280 | So does a reconcile that users hold up, that is invalid, or whose commands fail. |
| Races.UndrainedRace | pkg/zfs/volume.go:139-202 | For every volume planned for two nodes there is a run, respecting queues and filters but not draining, that ends Ready on the node that no longer owns it and absent from the owner. |
| TombstoneRace.LastOwnerDrainedRace | pkg/mgmt/volume/volume.go:166-187 | For every volume tried on A, then B, deleted, and created anew for C there is a run, the last owner's node drained at every change, that ends Ready for C with the dataset on A, whose key the deletion had queued. |
| Readiness.ProvisionReturnsOwnSpec | pkg/zfs/volume.go:139-202 | In every run, when a provisioning handler sees Ready and returns success, the resource holds the spec of that attempt, and the dataset is in its pool on the labelled node unless the volume is terminating. |
| Readiness.PollRun | pkg/zfs/volume.go:176-202 | Invariant of all runs: while a handler polls, nobody else changes the spec it wrote; late writes are refused by the resource version. |
| Retry.RetriedReconcileConverges | pkg/mgmt/volume/volume.go:94-124 | After any number of provisioning attempts cut after any command or failing in any command, an undisturbed one ends in the store and the resource write of a run without them. |
| Retry.ProvisionConverges | pkg/zfs/zfs_util.go:544-619 | The same for the outcome of CreateVolume and CreateClone themselves. |
| Retry.CreateThenDestroy | pkg/zfs/zfs_util.go:759-873 | Creating or cloning a volume and destroying it restores the dataset store exactly, when neither the volume nor its source snapshot existed. |
| Retry.InterruptedDestroyLeaksIff | pkg/zfs/zfs_util.go:759-811 | A destroy stopped between the volume and the source snapshot, and run again, differs from an uninterrupted one exactly when the clone owns its source snapshot, which then stays behind. |
| Retry.FaultyDestroyLeaksIff | pkg/zfs/zfs_util.go:759-811 | Over all faults, a destroy that reports success ends in another store than a fault-free one exactly when it failed to list a volume it could have destroyed, or destroyed it but failed to list or destroy the source snapshot it owned, which then stays behind. |
| Retry.StoresStayWellFormed | pkg/zfs/zfs_util.go:544-873 | In every run, no clone loses its snapshot, no snapshot its volume, no volume its pool. |
| Agent.Node.SyncVolume | pkg/mgmt/volume/volume.go:77-126 | By the state of the resource: held by a user or invalid, nothing happens; being deleted, the dataset is gone when the finalizer may go; Ready, the dataset takes on the settable properties and no other changes; else it is provisioned and marked Ready exactly when it is there. Equal to the machine's step. |
| Agent.Node.SyncSnapshot | pkg/mgmt/snapshot/snapshot.go:76-110 | Likewise for snapshots: a Ready one is left alone, and one is marked Ready exactly when it is there, a failed create writing nothing. |
| Agent.Node.CreateVolume | pkg/zfs/zfs_util.go:544-568 | After success the volume is there, made from this spec if new; an existing one and all other datasets are untouched; it succeeds exactly when the volume is listed or the pool exists and the command works. Equal to the machine's step. |
| Agent.Node.CreateClone | pkg/zfs/zfs_util.go:572-619 | After success the clone and the snapshot of its source volume are there; a new clone hangs off the snapshot the spec names; nothing that existed changes and nothing else appears; it succeeds exactly when the snapshot, the clone and, for xfs and btrfs, the new UUID do. Equal to the machine's step. |
| Agent.Node.SetVolumeProp | pkg/zfs/zfs_util.go:716-756 | No dataset appears or goes; after success the volume's properties are the old ones overlaid with the settable ones, its origin and all else as before; it succeeds exactly when there is nothing to set or the volume is there and the command works. Equal to the machine's step. |
| Agent.Node.DestroyVolume | pkg/zfs/zfs_util.go:759-811 | After success the volume and its snapshots are gone unless listing it failed; besides them only the snapshot it was cloned from can go, and on failure nothing does; without faults it fails exactly when there is no pool or a clone hangs off one of its snapshots. Equal to the machine's step. |
| Agent.Node.CreateSnapshot | pkg/zfs/zfs_util.go:814-836 | After success the snapshot is there; an existing one and all other datasets are untouched; it succeeds exactly when the snapshot is listed or its volume exists and the command works. Equal to the machine's step. |
| Agent.Node.DestroySnapshot | pkg/zfs/zfs_util.go:839-873 | After success the snapshot is there exactly if it was and listing it failed; all other datasets are untouched; without faults it fails exactly when there is no pool or a clone hangs off the snapshot. Equal to the machine's step. |
| Resource.GetUserFinalizers | pkg/zfs/volume.go:439-448 | The finalizers other than the driver's and the server's, all of them, in order. |
| Resource.UserFinalizers | pkg/zfs/volume.go:439-448 | A finalizer is in the result exactly when it is in the list and a user's. |
| NamedLock.VolumeLock.constructor | pkg/driver/volume_lock.go:12-16 | Nothing locked, nobody inside. |
| NamedLock.VolumeLock.Enter | pkg/driver/volume_lock.go:19-49 | A new caller starts at its first name. |
| NamedLock.VolumeLock.TestName | pkg/driver/volume_lock.go:19-33 | Under the mutex, the name is taken exactly when it was free; otherwise the caller parks. |
| NamedLock.VolumeLock.UnlockName | pkg/driver/volume_lock.go:33-49 | The name is freed and the broadcast leaves nobody parked. |
| NamedLock.LockRun | pkg/driver/volume_lock.go:19-49 | In every interleaving: one holder per name at most, the locked set is the names held, and a parked caller waits for a name still locked, so no wakeup is lost. |
| NamedLock.StuckHasCycle | pkg/driver/volume_lock.go:42-49 | A run with unfinished callers none of whom can step yields a cycle of two-name requests. |
| NamedLock.DeadlockIffCycle | pkg/driver/volume_lock.go:42-49 | A family of requests can deadlock exactly when it has such a cycle. |
| NamedLock.DisjointNamesNeverStuck | pkg/driver/volume_lock.go:42-49 | While no snapshot has a volume's name, no run gets stuck. |
| BackupKeys.InjectiveIffOneDotted | pkg/driver/backup_gc.go:248-250 | The composed key is injective exactly when at most one of its three positions may contain dots. |
| BackupKeys.IndexIsScan | pkg/driver/backup_gc.go:23-54 | With dots in one field at most, both index lookups return exactly the backups whose three fields match. |
| BackupGC.FollowsStep | pkg/driver/backup_gc.go:118-137 | Replaying the pending events on the cache always gives the server's backups. |
| BackupGC.IntegrityRun | pkg/driver/backup_gc.go:142-244 | In every run with safe updates, each cached backup whose parent is missing has its delete issued or a check or sweep on its way. |
| BackupGC.NoOrphanAtRest | pkg/driver/backup_gc.go:142-303 | So whenever nothing is under way, every incremental backup has a parent on the server or is being deleted. |
| BackupGC.UpdateSafeIff | pkg/driver/backup_gc.go:160-181 | For every update, some run from a synced state with that update and the collector's steps ends with nothing under way and a live orphan not being deleted, exactly unless the update keeps the backup's own key, if a backup can refer to that, and does not, under an unchanged previous name, move the parent's key to one other than its own. |
| BackupCascade.StepDecreases | pkg/driver/backup_gc.go:187-303 | Every event delivery, check, lookup, delete and finalization lowers a measure, cyclic references included. |
| BackupCascade.CascadeEnds | pkg/driver/backup_gc.go:187-303 | No run of the collector is longer than the measure of its first state. |
| BackupCascade.CascadeProgresses | pkg/driver/backup_gc.go:187-303 | Until everything is drained, some step is possible. |
| BackupCascade.CascadeTakesClosure | pkg/driver/backup_gc.go:187-303 | After one delete, once drained in any order, exactly the transitive closure of backups referring to deleted ones is gone, the rest is unchanged, and the cache agrees with the server. |
| BackupCascade.CascadeConfluent | pkg/driver/backup_gc.go:187-303 | Any two drained runs from the same delete end in the same backups. |
| BackupCascade.ParentsFirstDeletesNothing | pkg/driver/backup_gc.go:142-155 | In every run that creates parents first and deletes nothing, the collector deletes nothing. |
| Scheduler.K8sNodeName | pkg/driver/schd_helper.go:50-57 | The name of the first owner reference of kind Node, and the resource's own name exactly when there is none. |
| Scheduler.PoolRoot | pkg/driver/schd_helper.go:61-63 | The text before the first slash, or all of it when there is none. |
| Scheduler.MaxFreePool | pkg/driver/schd_helper.go:414-430 | The loop's choice and its free space. |
| Scheduler.MaxFreeIsRoomiest | pkg/driver/schd_helper.go:414-430 | That choice is the first of the roomiest matching pools, or nothing when none matches. |
| Scheduler.PoolForNode | pkg/driver/schd_helper.go:389-408 | The loop's choice under any weights and minimum. |
| Scheduler.PickIsLightest | pkg/driver/schd_helper.go:389-408 | That choice is the first of the lightest qualifying pools, or nothing when none qualifies. |
| Scheduler.SuitableNodes | pkg/driver/schd_helper.go:279-295 | Exactly the nodes whose roomiest matching pool exceeds the size, and whether any pool matched. |
| Scheduler.FilterKeep | pkg/driver/schd_helper.go:300-310 | The names in both, every occurrence, in the order they were in. |
| Scheduler.FitIffPick | pkg/driver/schd_helper.go:279-295 | A node fits a size exactly when poolForNode with that minimum returns a pool, whatever the weights. |
| Scheduler.FilteredNodesResolve | pkg/driver/schd_helper.go:279-310 | A proposed node survives the filter exactly when its pool then resolves, so a filtered node never meets the branch without a pool. |
| Scheduler.GetCapacity | pkg/driver/controller.go:1146-1170 | The largest free capacity of a roomiest matching pool over the topology's nodes in the cache: no less than any node's and, unless zero, equal to one node's, each looked up by its mapped id or, without one, its name. |
| Scheduler.CapacityIffSuitable | pkg/driver/controller.go:1114-1175 | The reported capacity exceeds a size exactly when some node of the topology is in the set suitableNodes computes for it, given that the cache and the node list hold the same nodes. |
| Scheduler.PoolWeightMap | pkg/driver/schd_helper.go:345-358 | With unique pool names, each pool's used capacity, or 2^63 - 1 less its free capacity under SpaceWeighted. |
| Scheduler.SpaceWeightedPicksRoomiest | pkg/driver/schd_helper.go:222-238 | Under SpaceWeighted, poolForNode returns maxFreePool's pool when that passes the minimum and nothing otherwise, first on ties in both. |
| Scheduler.SpaceWeightedMap | pkg/driver/schd_helper.go:222-238 | The inverted free capacity of each node's roomiest matching pool. |
| Scheduler.SpaceWeightsOrderByRoom | pkg/driver/schd_helper.go:222-238 | Inverted weights stay within an int64 and ascending weight is descending room. |
| Scheduler.VolumeWeightedMap | pkg/driver/schd_helper.go:156-179 | Volumes per node over matching pools, node ids translated to names. |
| Scheduler.VolumeWeightsConserve | pkg/driver/schd_helper.go:156-179 | The weights add up to the number of volumes in matching pools. |
| Scheduler.TranslationIs | pkg/driver/schd_helper.go:156-179 | Each ZFSNode's id is translated to the name of its node. |
| Scheduler.VolumeWeightIsCount | pkg/driver/schd_helper.go:156-179 | A node's weight is the number of volumes its ZFSNode owns in matching pools, unless an unknown owner has its name. |
| Scheduler.PoolVolumeMap | pkg/driver/schd_helper.go:374-384 | Volumes per pool root of one node. |
| Scheduler.PoolVolumeIsCount | pkg/driver/schd_helper.go:374-384 | Per pool root, the number of the node's own volumes there. |
| Scheduler.NodeCountIsPoolSum | pkg/driver/schd_helper.go:156-179 | A node's count is the sum of its per-pool counts over matching roots, if no other owner translates to its name. |
| Scheduler.CapacityWeightedMap | pkg/driver/schd_helper.go:194-206 | Used capacity per node over matching pools, added in 64 bits. |
| Scheduler.CapacityWeightIsPoolSum | pkg/driver/schd_helper.go:194-206 | With unique node and pool names, it is the 64-bit sum of the node's pools' used capacity over matching pools, equal to the true sum exactly when that fits an int64, and an entry exists exactly when a pool matches. |
| RunPipe.CollectExits | pkg/zfs/zfs_util.go:120-149 | The loop over the two exits: errors in the order observed, and a kill for exactly the peers of failures. |
| RunPipe.PipeRun | pkg/zfs/zfs_util.go:85-149 | Invariant of every order of starts, exits, waits and receives. |
| RunPipe.ReturnIsFaithful | pkg/zfs/zfs_util.go:85-149 | On return the error is nil exactly when both children started and exited cleanly, every started child was waited for, and the errors are the failing exits in observation order. |
| RunPipe.CleanExitNeverKills | pkg/zfs/zfs_util.go:128-141 | A running child has been sent a kill only after its peer failed or did not start. |
| RunPipe.FailureForcesReturn | pkg/zfs/zfs_util.go:85-149 | After one failure no child runs unsignalled, some step is always possible, and every step brings the return nearer. |
| UserProp.ValidateUserProperty | pkg/zfs/util/userprop.go:10-41 | True exactly for names of 1 to 256 bytes, all lower-case letters, digits or one of - . _ : by their codes, with a colon and no leading dash, and values up to 8192 bytes. |
| UserProp.Validate | pkg/apis/openebs.io/zfs/v1/zfsvolume.go:229-239 | True exactly when every user property is valid and has the reserved prefix, in whatever order the map is visited. |
| ArgvBuild.BuildZvolCreateArgs | pkg/zfs/zfs_util.go:182-229 | The appended slice is the zvol's argument list for some visiting order of the user properties. |
| ArgvBuild.BuildDatasetCreateArgs | pkg/zfs/zfs_util.go:315-369 | Likewise for a dataset. |
| ArgvBuild.BuildCloneCreateArgs | pkg/zfs/zfs_util.go:232-280 | Likewise for a clone. |
| ArgvBuild.BuildVolumeSetArgs | pkg/zfs/zfs_util.go:373-411 | Likewise for a property update. |
| ArgvBuild.AppendUser | pkg/zfs/zfs_util.go:222-224 | The loop writes each user property once, in the order visited. |
| ArgvRoundTrip.CreateRoundTrip | pkg/zfs/zfs_util.go:182-369 | For every valid spec and visiting order, `zfs` reads the list back without a clash as the properties of a new volume, sparse exactly for a thin zvol, on the right dataset. |
| ArgvRoundTrip.CreateExact | pkg/zfs/zfs_util.go:182-369 | Those properties are, name by name, exactly the non-empty fields of the spec: quota and reservation by default, refquota and refreservation for quota type refquota. |
| ArgvRoundTrip.CloneRoundTrip | pkg/zfs/zfs_util.go:232-280 | The clone list reads back as the clone's properties, source snapshot and target. |
| ArgvRoundTrip.CloneExact | pkg/zfs/zfs_util.go:232-280 | Name by name, the fields a clone sets, with the same names for quota and reservation. |
| ArgvRoundTrip.SetRoundTrip | pkg/zfs/zfs_util.go:373-411 | The update list reads back as the settable properties on the right dataset. |
| ArgvRoundTrip.SetExact | pkg/zfs/zfs_util.go:373-411 | Name by name, the fields an update sets. |
| ArgvRoundTrip.ResizeRoundTrip | pkg/zfs/zfs_util.go:414-436 | The resize list reads back as the size and, for thick volumes, the reservation. |
| ArgvRoundTrip.ResizeExact | pkg/zfs/zfs_util.go:414-436 | Name by name: quota, or refquota for that quota type, or a zvol's volsize, is the capacity, and a thick volume's matching reservation too; nothing else is set. |
| ArgvRoundTrip.Subcommands | pkg/zfs/zfs_util.go:182-436 | The lists start with create, clone, set and set. |
| ArgvRoundTrip.CloneIsCreateWithoutKeys | pkg/zfs/zfs_util.go:232-280 | A clone's properties are a new volume's less encryption, keylocation and keyformat and, for a zvol, its sizes. |
| ArgvRoundTrip.SetAgreesWithCreate | pkg/zfs/zfs_util.go:373-411 | Setting a new volume's settable properties changes nothing. |
| ArgvRoundTrip.ResizeIsCreateIff | pkg/zfs/zfs_util.go:414-436 | Resizing leaves the explicit assignments of creating at the new size exactly unless the volume is a thick zvol, whose reservation property a resize names and a create does not. |
| PropertyUpdate.ChangedIffSetDiffers | pkg/zfs/zfs_util.go:152-164 | For an unchanged volume type, PropertyChanged holds exactly when the old and new set commands denote different assignments. |
| PropertyUpdate.NothingToSetIff | pkg/zfs/zfs_util.go:720-730 | SetVolumeProp returns early exactly when there is nothing to set. |
| PropertyUpdate.SetVolumePropApplies | pkg/zfs/zfs_util.go:716-756 | Afterwards the volume carries every non-empty settable field; other properties and datasets are untouched. |
| PropertyUpdate.CreatedInStep | pkg/zfs/zfs_util.go:182-369 | A new volume carries every non-empty settable field of its spec. |
| Reconcile.SyncedInStep | pkg/mgmt/volume/volume.go:94-126 | After a reconcile of a valid Ready volume that does not fail, the dataset carries every non-empty settable field; its other properties and all other datasets are untouched. |
| Reconcile.UpdatesEndInStep | pkg/mgmt/volume/volume.go:77-163 | Over every sequence of versions seen and turns of the worker, with versions coalesced, updates passed over by updateZV's filter and commands failing: whenever the key is not queued, the dataset carries every non-empty settable field of the version held, and no other dataset has changed. |
| Reconcile.TurnCatchesUp | pkg/mgmt/volume/volume.go:77-126 | One turn without faults leaves the dataset in step and the key not queued. |
| Reconcile.PassedOverIff | pkg/mgmt/volume/volume.go:144-163 | An update of the node's own volume is passed over exactly when the set command would be the same, it is not Pending and it is not being deleted. |
| Reconcile.OwnEvents | pkg/mgmt/volume/volume.go:129-187 | Nothing of another node's is queued; of its own, everything that appears and everything that goes. |
| PropertyUpdate.ReservesIffCommandReserves | pkg/driver/schd_helper.go:112-117 | The scheduler's reservesSpace says exactly whether the create command reserves space. |
| Capacity.RoundedIsLeast | pkg/driver/controller.go:170-183 | Up to 2^63 - 2^30 the result is the least multiple of 1 Gi, or of 1 Mi up to 1 Gi, not below the size. |
| Capacity.RoundedCoversIff | pkg/driver/controller.go:170-183 | Over all of int64 the result covers the size exactly up to that limit and is negative beyond it. |
| Capacity.RoundedMonotone | pkg/driver/controller.go:170-183 | Larger sizes never round to less, across the change of unit too. |
| Capacity.RoundedIdempotent | pkg/driver/controller.go:170-183 | Rounding again changes nothing. |
| Capacity.RoundedIsAligned | pkg/driver/controller.go:172-176 | The result is a multiple of every block size from 512 to 1 Mi. |
| Capacity.DecimalRoundTrip | pkg/zfs/volume.go:205-211 | Every int64 written as a capacity is parsed back. |
| Capacity.DecimalMeans | pkg/zfs/volume.go:205-211 | A text followed by a digit stands for ten times the text and the digit. |
| Capacity.ReplyCoversIff | pkg/driver/controller.go:788-847 | The stored capacity never shrinks, the reply is the stored capacity, and it covers the request exactly when rounding did not overflow or the volume was large enough. |
| Capacity.AnsweredIff | pkg/driver/controller.go:788-847 | A stored text that does not parse fails; a volume that has the least multiple covering the request is left and answered with its own size, without node expansion; any other is given exactly that multiple if the write succeeds, and fails otherwise. |
| Capacity.ExpandIsIdempotent | pkg/driver/controller.go:824-833 | Repeating an answered request gets the same size, asks for no node expansion and changes nothing. |
| Capacity.ExpandAllIsHighest | pkg/driver/controller.go:788-847 | After any sequence of requests the capacity is the maximum of the initial one and the rounded written ones. |
| Capacity.AnsweredStaysCovered | pkg/driver/controller.go:788-847 | A request that was answered stays covered whatever follows. |
| Provisioning.TryNodes | pkg/driver/controller.go:382-438 | Nodes are seen in order up to one that decides: every tried node before it was refused, and it succeeded or timed out, or was the last. Success exactly when it was provisioned; then the shared object holds its id and pool. Otherwise there is an error and the resource is deleted. |
| Provisioning.Prepare | pkg/driver/controller.go:382-418 | With a poolname, the object gets that pool whatever the node resolves a pattern to, and the node is skipped exactly without an id or a name; with a poolpattern, it gets the pool found on the node, and is skipped exactly without an id or a pool. |
| Provisioning.HandedIs | pkg/driver/controller.go:382-418 | ProvisionVolume is handed the id and pool of every usable node that is seen. |
| Provisioning.HandedOnly | pkg/driver/controller.go:382-418 | And nothing else: each pair is a node's id with the storage class's pool, or with the pool found on that node. |
| Provisioning.Winner | pkg/driver/controller.go:382-431 | The first node, in scheduler order, that ends the loop. |

## Left out

- AgentSafety.VolumeReleasedWhenGone: assumes that the volume's own listings are truthful, since a failing `zfs list` is read as an absent dataset (`AgentSafety.ReleaseIffListed` gives the exact condition).
- AgentSafety.SnapshotReleasedWhenGone: the same, and that no volume clone of the snapshot's name takes it again meanwhile (`EarlyRelease.CanReleaseEarlyIff` gives the exact condition over runs, `SnapshotRaces.ReleasedTooEarly` a run).
- Readiness.ReadyIsOnOwner: its hypothesis is replaced by settled owner changes in `OwnerDrain.SettledReadyIsOnOwner`, exact by `OwnerDrain.CanMisreadIff`.
- Scheduler.GetCapacity: topology keys, the missing-key error and gRPC validation are not modelled; the segment is a list of node names, and a cache error counts as a missing node.
- Calls.ExpandVolumeOutcome: is about a call that comes to write; whether it does, by comparing sizes, is in `Capacity.AnsweredIff`, and in `Cluster` a call that does not is one that fails.
- ArgvRoundTrip.ResizeIsCreateIff: the refreservation that `zfs create -V` makes by itself without `-s`, whose size ZFS computes, is not among the properties.
- A write to the API server that is applied while its caller sees an error: in `Cluster` a request that fails is one that was not applied.
- Cluster is a machine over values, with interleavings in place of goroutines: a batch of `zfs` commands is one step, cut short by a command that fails together with a crash. Update in place is kept in `Agent`, `NamedLock` and `Provisioning`.
- BackupGC is a machine over values for the same reason; deletion-timestamp updates in the backup informer and failed index lookups are left out.
- An agent that starts anew lists the current versions; lists served from a stale API server cache are not modelled.
- Clocks: timeouts and deadlines are choices of the run.
- `zfs destroy -r` on a dataset that contains another volume's dataset, which needs a pool name below a volume.
- Case folding of ids, request validation, parameter parsing and the checks on clone sources (pool allowed, size equal).
- The regular expression of a poolpattern is an arbitrary predicate on pool roots.
- lib-csi's scheduler: its list of nodes is arbitrary.
- The restore, backup and destroy argument lists, and node agents' mount, filesystem resize and UUID calls.
- The ZFSBackup, ZFSRestore and ZFSNode reconcile loops, smaller copies of the volume's.
- Generated clients, gRPC servers, analytics, events and logging.
