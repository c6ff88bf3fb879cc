/** The agent's code as it runs: `zfs` commands one after the other on the node's datasets. */
module Agent {
  import opened Base
  import opened Resource
  import opened UserProp
  import Argv
  import opened ZfsStore
  import opened Cluster

  /** Datasets outside the given ones are as they were. */
  ghost predicate Unchanged(before: Store, after: Store, except: set<Dataset>) {
    forall d :: d !in except ==> (d in after <==> d in before) && (d in before ==> after[d] == before[d])
  }

  /** The volume's own datasets: itself and its snapshots. */
  ghost predicate UnchangedOutside(before: Store, after: Store, pool: string, name: string, except: set<Dataset>) {
    forall d :: d !in except && d != Vol(pool, name) && !SnapOfVol(d, pool, name) ==>
      (d in after <==> d in before) && (d in before ==> after[d] == before[d])
  }

  /** Ready by its status, or, for a volume older than the status, by having the finalizer. */
  predicate IsMade(zv: CR) { zv.phase == Ready || (zv.phase == Unset && ZfsFinalizer in zv.finalizers) }

  class Node {
    var disk: Store

    constructor (disk: Store)
      ensures this.disk == disk
    {
      this.disk := disk;
    }

    /**
     * After success the snapshot is there; only it can have changed, and only by being taken. It
     * fails exactly when it is not found and either the command fails or it could not be taken.
     */
    method CreateSnapshot(spec: VolumeInfo, volume: string, name: string, f: Faults) returns (ok: bool)
      modifies this
      ensures var snap := Snap(spec.poolName, volume, name);
              && Unchanged(old(disk), disk, {snap}) && (ok ==> snap in disk)
              && (snap in old(disk) ==> disk == old(disk))
              && (ok <==> if snap in old(disk) then !f.snapList else Vol(spec.poolName, volume) in disk && !f.snapCmd)
      ensures Outcome(disk, ok) == ZfsStore.CreateSnapshot(old(disk), spec, volume, name, f)
    {
      if Lists(disk, Snap(spec.poolName, volume, name), f.snapList) { return true; }
      var result := ZfsSnapshot(disk, spec.poolName, volume, name, Snapshotted(spec), f.snapCmd);
      disk := result.store;
      return result.ok;
    }

    /**
     * After success the snapshot is gone unless listing it failed; only it can have changed. Without
     * faults it fails exactly when there is no pool or a clone hangs off the snapshot.
     */
    method DestroySnapshot(spec: VolumeInfo, volume: string, name: string, f: Faults) returns (ok: bool)
      modifies this
      ensures var snap := Snap(spec.poolName, volume, name);
              && Unchanged(old(disk), disk, {snap}) && (!ok ==> disk == old(disk))
              && (ok ==> (snap in disk <==> snap in old(disk) && f.snapList))
              && (f == NO_FAULTS ==>
                  (ok <==> Pool(spec.poolName) in disk && (snap in old(disk) ==> !HasClone(old(disk), snap))))
      ensures Outcome(disk, ok) == ZfsStore.DestroySnapshot(old(disk), spec, volume, name, f)
    {
      if !Lists(disk, Pool(spec.poolName), f.poolList) { return false; }
      if !Lists(disk, Snap(spec.poolName, volume, name), f.snapList) { return true; }
      var result := ZfsDestroySnapshot(disk, Snap(spec.poolName, volume, name), f.snapCmd);
      disk := result.store;
      return result.ok;
    }

    /**
     * After success the volume is there, made from this spec if it is new; nothing else can have
     * changed, and an existing volume is left as it is.
     */
    method CreateVolume(spec: VolumeInfo, name: string, f: Faults) returns (ok: bool)
      modifies this
      ensures var d := Vol(spec.poolName, name);
              && Unchanged(old(disk), disk, {d}) && (ok ==> d in disk) && (d in old(disk) ==> disk == old(disk))
              && (d in disk && d !in old(disk) ==> ok && disk[d] == Info(Created(spec), None))
              && (ok <==> if d in old(disk) then !f.volList else Pool(spec.poolName) in disk && !f.volCmd)
      ensures Outcome(disk, ok) == ZfsStore.CreateVolume(old(disk), spec, name, f)
    {
      if !Lists(disk, Vol(spec.poolName, name), f.volList) {
        var result := ZfsCreate(disk, spec.poolName, name, Created(spec), f.volCmd);
        disk := result.store;
        if !result.ok { return false; }
      }
      return true;
    }

    /**
     * After success the clone is there, and so is its snapshot of a source volume; a new clone hangs
     * off the snapshot the spec names, which is there. Nothing but the two can have changed, and
     * what existed is left as it is.
     */
    method CreateClone(spec: VolumeInfo, src: Option<string>, name: string, f: Faults) returns (ok: bool)
      modifies this
      ensures var d := Vol(spec.poolName, name);
              var taken := if src.Some? then {Snap(spec.poolName, src.value, name)} else {};
              && Unchanged(old(disk), disk, {d} + taken)
              && (forall x :: x in old(disk) ==> x in disk && disk[x] == old(disk)[x])
              && (ok ==> d in disk && taken <= disk.Keys)
              && (d in disk && d !in old(disk) ==>
                    && spec.snapName.SnapOf? && disk[d].made == Cloned(spec)
                    && disk[d].origin == Some(Snap(spec.poolName, spec.snapName.volume, spec.snapName.snapshot))
                    && disk[d].origin.value in disk)
      // it succeeds exactly when the snapshot of a source volume, the clone and, where the
      // filesystem has one, the new UUID do
      ensures ok <==>
                && (src.Some? ==>
                    if Snap(spec.poolName, src.value, name) in old(disk) then !f.snapList
                    else Vol(spec.poolName, src.value) in disk && !f.snapCmd)
                && (if Vol(spec.poolName, name) in old(disk) then !f.volList
                    else
                      && spec.snapName.SnapOf? && Pool(spec.poolName) in disk && !f.volCmd
                      && Snap(spec.poolName, spec.snapName.volume, spec.snapName.snapshot) in disk)
                && (spec.fsType in {"xfs", "btrfs"} ==> !f.uuid)
      ensures Outcome(disk, ok) == ZfsStore.CreateClone(old(disk), spec, src, name, f)
    {
      if src.Some? {
        ok := CreateSnapshot(spec, src.value, name, f);
        if !ok { return false; }
      }
      if !Lists(disk, Vol(spec.poolName, name), f.volList) {
        if spec.snapName.NoSnap? { return false; }
        var snap := Snap(spec.poolName, spec.snapName.volume, spec.snapName.snapshot);
        var result := ZfsClone(disk, spec.poolName, snap, name, Cloned(spec), f.volCmd);
        disk := result.store;
        if !result.ok { return false; }
      }
      if spec.fsType == "xfs" || spec.fsType == "btrfs" { return !f.uuid; }
      return true;
    }

    /**
     * No dataset appears or goes, and none but the volume changes, in its properties only: after
     * success they are the old ones overlaid with the spec's settable ones.
     */
    method SetVolumeProp(spec: VolumeInfo, name: string, f: Faults) returns (ok: bool)
      modifies this
      ensures var d := Vol(spec.poolName, name);
              && Unchanged(old(disk), disk, {d}) && disk.Keys == old(disk).Keys && (!ok ==> disk == old(disk))
              && (d in disk ==> disk[d].origin == old(disk)[d].origin)
              && (ok && d in disk && !Argv.NothingToSet(spec) ==>
                    Properties(disk[d].made) == Properties(old(disk)[d].made) + Argv.SetProps(spec))
              && (ok <==> Argv.NothingToSet(spec) || (d in disk && !f.volCmd))
      ensures Outcome(disk, ok) == ZfsStore.SetVolumeProp(old(disk), spec, name, f)
    {
      if Argv.NothingToSet(spec) { return true; }
      var d := Vol(spec.poolName, name);
      if f.volCmd || d !in disk { return false; }
      disk := disk[d := disk[d].(made := Changed(disk[d].made, spec))];
      return true;
    }

    /**
     * After success the volume is gone with all its snapshots, unless listing it failed; besides
     * them only the snapshot it was cloned from can have gone, and nothing on failure. Without
     * faults it fails exactly when there is no pool or a clone hangs off one of its snapshots.
     */
    method DestroyVolume(spec: VolumeInfo, src: Option<string>, name: string, f: Faults) returns (ok: bool)
      modifies this
      ensures var pool := spec.poolName;
              var source := if src.Some? then {Snap(pool, src.value, name)} else {};
              && UnchangedOutside(old(disk), disk, pool, name, source) && (!ok ==> disk == old(disk))
              && (ok ==> (Vol(pool, name) in disk <==> Vol(pool, name) in old(disk) && f.volList))
              && (ok && Vol(pool, name) in old(disk) && !f.volList ==>
                  forall x :: x in disk ==> !SnapOfVol(x, pool, name))
              && (forall x :: x in disk ==> x in old(disk))
              && (f == NO_FAULTS ==>
                  (ok <==>
                    && Pool(pool) in old(disk)
                    && (Vol(pool, name) in old(disk) ==> !HasDependents(old(disk), pool, name))))
      // without faults the source snapshot goes too, unless another clone hangs off it
      ensures f == NO_FAULTS && ok && src.Some? && src.value != name && Vol(spec.poolName, name) in old(disk) ==>
                var snap := Snap(spec.poolName, src.value, name);
                snap in disk <==> snap in old(disk) && HasClone(disk, snap)
      ensures Outcome(disk, ok) == ZfsStore.DestroyVolume(old(disk), spec, src, name, f)
    {
      if !Lists(disk, Pool(spec.poolName), f.poolList) { return false; }
      if !Lists(disk, Vol(spec.poolName, name), f.volList) { return true; }
      var result := ZfsDestroyRecursive(disk, spec.poolName, name, f.volCmd);
      disk := result.store;
      if !result.ok { return false; }
      if src.Some? {
        var ignored := DestroySnapshot(spec, src.value, name, f);
      }
      return true;
    }

    /**
     * syncZV; the result is what remains to be written to the resource. While users hold a volume
     * that is being deleted, and while its properties are invalid, nothing happens to it.
     */
    method SyncVolume(name: string, at: nat, zv: CR, f: Faults) returns (work: Work)
      modifies this
      ensures zv.terminating && (exists u :: UserFinalizer(u) in zv.finalizers) ==> disk == old(disk) && work == Idle
      ensures !zv.terminating && !ValidProps(zv.spec.userProperties) ==> disk == old(disk) && work == Idle
      // deleting: the dataset goes, and then the finalizer may
      ensures zv.terminating && (forall u :: UserFinalizer(u) !in zv.finalizers) ==>
                var d := Vol(zv.spec.poolName, name);
                && (work == Commit(at, zv, Release) || (work == Idle && disk == old(disk)))
                && (work != Idle ==> (d in disk <==> d in old(disk) && f.volList))
                && (f == NO_FAULTS && work != Idle && d in old(disk) ==>
                    forall src, snap :: zv.labels.srcVolume == Some(src) && src != name
                                        && snap == Snap(zv.spec.poolName, src, name) ==>
                      (snap in disk <==> snap in old(disk) && HasClone(disk, snap)))
                && (f == NO_FAULTS ==>
                    (work != Idle <==>
                      && Pool(zv.spec.poolName) in old(disk)
                      && (d in old(disk) ==> !HasDependents(old(disk), zv.spec.poolName, name))))
      // a Ready volume takes on the spec's settable properties, and no other dataset changes
      ensures !zv.terminating && ValidProps(zv.spec.userProperties) && IsMade(zv) ==>
                var d := Vol(zv.spec.poolName, name);
                && work == Idle && Unchanged(old(disk), disk, {d}) && disk.Keys == old(disk).Keys
                && (d in disk && !f.volCmd && !Argv.NothingToSet(zv.spec) ==>
                    Properties(disk[d].made) == Properties(old(disk)[d].made) + Argv.SetProps(zv.spec))
      // any other volume is provisioned, and the outcome is written
      ensures !zv.terminating && ValidProps(zv.spec.userProperties) && !IsMade(zv) ==>
                var d := Vol(zv.spec.poolName, name);
                && (work == Commit(at, zv, MarkReady) || work == Commit(at, zv, MarkFailed))
                && (work == Commit(at, zv, MarkReady) ==> d in disk)
                && (zv.spec.snapName.NoSnap? ==>
                      && (d in disk && d !in old(disk) ==> disk[d] == Info(Created(zv.spec), None))
                      && (work == Commit(at, zv, MarkReady) <==>
                          if d in old(disk) then !f.volList else Pool(zv.spec.poolName) in disk && !f.volCmd))
                && (zv.spec.snapName.SnapOf? && d in disk && d !in old(disk) ==> disk[d].made == Cloned(zv.spec))
                && (zv.spec.snapName.SnapOf? && zv.labels.srcVolume.Some? && work == Commit(at, zv, MarkReady) ==>
                    Snap(zv.spec.poolName, zv.labels.srcVolume.value, name) in disk)
      ensures Effect(disk, work) == Cluster.SyncVolume(old(disk), name, at, zv, f)
    {
      var ok;
      if zv.terminating {
        var userFin := GetUserFinalizers(zv.finalizers);
        if |userFin| != 0 {
          assert userFin[0] in userFin && userFin[0] in zv.finalizers && IsUser(userFin[0]);
          return Idle;
        }
        ok := DestroyVolume(zv.spec, zv.labels.srcVolume, name, f);
        return if ok then Commit(at, zv, Release) else Idle;
      }
      var valid := Validate(zv.spec.userProperties);
      if !valid { return Idle; }
      if IsVolumeReady(zv) {
        ok := SetVolumeProp(zv.spec, name, f);
        return Idle;
      }
      if zv.spec.snapName.SnapOf? {
        ok := CreateClone(zv.spec, zv.labels.srcVolume, name, f);
      } else {
        ok := CreateVolume(zv.spec, name, f);
      }
      return Commit(at, zv, if ok then MarkReady else MarkFailed);
    }

    /** syncSnap; a snapshot that is Ready is left alone, and one that could not be taken is not marked. */
    method SyncSnapshot(name: string, at: nat, snap: CR, f: Faults) returns (work: Work)
      modifies this
      ensures snap.terminating && (exists u :: UserFinalizer(u) in snap.finalizers) ==>
                disk == old(disk) && work == Idle
      ensures !snap.terminating && (!ValidProps(snap.spec.userProperties) || snap.phase == Ready) ==>
                disk == old(disk) && work == Idle
      ensures snap.terminating && (forall u :: UserFinalizer(u) !in snap.finalizers) ==>
                var d := Snap(snap.spec.poolName, snap.labels.volume, name);
                && (work == Commit(at, snap, Release) || (work == Idle && disk == old(disk)))
                && (work != Idle ==> (d in disk <==> d in old(disk) && f.snapList))
                && Unchanged(old(disk), disk, {d})
                && (f == NO_FAULTS ==>
                    (work != Idle <==>
                      Pool(snap.spec.poolName) in disk && (d in old(disk) ==> !HasClone(old(disk), d))))
      ensures !snap.terminating && ValidProps(snap.spec.userProperties) && snap.phase != Ready ==>
                var d := Snap(snap.spec.poolName, snap.labels.volume, name);
                && Unchanged(old(disk), disk, {d})
                && (work == Commit(at, snap, MarkReady) || work == Idle) && (work != Idle ==> d in disk)
                && (work != Idle <==>
                    if d in old(disk) then !f.snapList
                    else Vol(snap.spec.poolName, snap.labels.volume) in disk && !f.snapCmd)
      ensures Effect(disk, work) == Cluster.SyncSnapshot(old(disk), name, at, snap, f)
    {
      var ok;
      if snap.terminating {
        var userFin := GetUserFinalizers(snap.finalizers);
        if |userFin| != 0 {
          assert userFin[0] in userFin && userFin[0] in snap.finalizers && IsUser(userFin[0]);
          return Idle;
        }
        ok := DestroySnapshot(snap.spec, snap.labels.volume, name, f);
        return if ok then Commit(at, snap, Release) else Idle;
      }
      var valid := Validate(snap.spec.userProperties);
      if !valid || snap.phase == Ready { return Idle; }
      ok := CreateSnapshot(snap.spec, snap.labels.volume, name, f);
      return if ok then Commit(at, snap, MarkReady) else Idle;
    }
  }
}
