/** A volume's whole life in one run: created, made, deleted, destroyed, and everything as before. */
module Lifecycle {
  import opened Base
  import opened Resource
  import opened Api
  import opened ZfsStore
  import opened Cluster
  import opened Script
  import opened Scenarios
  import opened SnapshotRaces

  function DyingVolume(spec: VolumeInfo, version: nat): CR {
    ReadyCR(spec, version).(terminating := true, finalizers := [ZfsFinalizer, ForegroundDeletion])
  }

  lemma ServedDying(sv: Server, v: string, spec: VolumeInfo, version: nat)
    requires Cur(sv.vols, v) == Some(ReadyCR(spec, version))
    ensures Stored(sv, Delete(KVolume, v)) == Some(DyingVolume(spec, sv.clock))
    ensures Serve(sv, Delete(KVolume, v))
         == Server(Push(sv.vols, v, Some(DyingVolume(spec, sv.clock))), sv.snaps, sv.clock + 1)
  {
    assert [ZfsFinalizer] + [ForegroundDeletion] == [ZfsFinalizer, ForegroundDeletion];
  }

  /** A DeleteVolume of a volume without snapshots, once it has listed them. */
  lemma DeletesListed(r: Reached, s: State, n: nat, v: string, spec: VolumeInfo, version: nat) returns (t: State)
    requires r(s, {}) && Inside(s, n, Call(DeleteVolumeOp(v), List, None, {})) && ListSnaps(s.server, v) == {}
    requires Cur(s.server.vols, v) == Some(ReadyCR(spec, version))
    ensures r(t, {}) && Rest(t, n + 1) && t.nodes == s.nodes && t.server == Serve(s.server, Delete(KVolume, v))
  {
    var c := Call(DeleteVolumeOp(v), DelVol, None, {});
    t := DeleteMoves(r, s, n, c.(pc := List), c);
    ServedDying(t.server, v, spec, version);
    SameOwner(t, {}, v, ReadyCR(spec, version), DyingVolume(spec, t.server.clock));
    t := WritesVol(r, t, {}, n, Move(c.(pc := UnlockVol), Delete(KVolume, v)));
    t := Leaves(r, t, {}, n, c.(pc := UnlockVol));
  }

  /** A whole DeleteVolume of a Ready volume without snapshots. */
  lemma DeletesVolume(r: Reached, s: State, n: nat, v: string, spec: VolumeInfo, version: nat) returns (t: State)
    requires r(s, {}) && Rest(s, n) && ListSnaps(s.server, v) == {}
    requires Cur(s.server.vols, v) == Some(ReadyCR(spec, version))
    ensures r(t, {}) && Rest(t, n + 1) && t.nodes == s.nodes
    ensures t.server == Server(Push(s.server.vols, v, Some(DyingVolume(spec, s.server.clock))), s.server.snaps,
                               s.server.clock + 1)
  {
    t := ComesToList(r, s, n, v, ReadyCR(spec, version));
    t := DeletesListed(r, t, n, v, spec, version);
    ServedDying(s.server, v, spec, version);
  }

  /** The datasets know nothing of the volume. */
  ghost predicate Unknown(disk: Store, pool: string, v: string) {
    && Vol(pool, v) !in disk
    && forall d :: d in disk ==> !SnapOfVol(d, pool, v)
                                 && (disk[d].origin.Some? ==> !SnapOfVol(disk[d].origin.value, pool, v))
  }

  lemma DestroyEffect(disk: Store, v: string, spec: VolumeInfo, cr: CR, at: nat)
    requires Unknown(disk, spec.poolName, v) && Pool(spec.poolName) in disk && cr == DyingVolume(spec, cr.version)
    ensures SyncVolume(WithVolume(disk, spec, v), v, at, cr, NO_FAULTS) == Effect(disk, Commit(at, cr, Release))
  {
    assert UserFinalizers([ForegroundDeletion]) == [] && cr.finalizers[1..] == [ForegroundDeletion];
    assert UserFinalizers(cr.finalizers) == [];
    var full := WithVolume(disk, spec, v);
    assert !HasDependents(full, spec.poolName, v);
    var gone := ZfsDestroyRecursive(full, spec.poolName, v, false).store;
    assert gone == disk;
  }

  /** The owner's agent sees the deletion, destroys the dataset and lets the resource go. */
  lemma AgentDestroys(r: Reached, s: State, v: string, spec: VolumeInfo, cr: CR, disk: Store) returns (t: State)
    requires r(s, {}) && |Hist(s.server.vols, v)| == 4 && Hist(s.server.vols, v)[3] == Some(cr)
    requires Hist(s.server.vols, v)[1].Some? && cr == DyingVolume(spec, cr.version)
    requires PosOf(s.nodes, VolumeSlot(spec, v)) == 1 && WorkOf(s.nodes, VolumeSlot(spec, v)) == Idle
    requires DiskOf(s.nodes, spec.ownerNodeID) == WithVolume(disk, spec, v)
    requires Unknown(disk, spec.poolName, v) && Pool(spec.poolName) in disk
    ensures r(t, {}) && t.ctl == s.ctl && t.server == s.server && DiskOf(t.nodes, spec.ownerNodeID) == disk
    ensures WorkOf(t.nodes, VolumeSlot(spec, v)) == Commit(3, cr, Release)
  {
    var slot := VolumeSlot(spec, v);
    t := Delivers(r, s, {}, slot, 3, {slot});
    t := Starts(r, t, {slot}, slot, cr);
    assert {slot} - {slot} == {};
    DestroyEffect(disk, v, spec, cr, 3);
    t := Acts(r, t, {}, slot, NO_FAULTS, Effect(disk, Commit(3, cr, Release)));
  }

  lemma ServedRelease(sv: Server, v: string, cr: CR)
    requires Cur(sv.vols, v) == Some(cr) && cr.terminating
    ensures var rq := Update(KVolume, v, cr.(finalizers := []));
            && Accepts(sv, rq) && Stored(sv, rq) == None
            && Serve(sv, rq) == Server(Push(sv.vols, v, None), sv.snaps, sv.clock + 1)
  {
  }

  lemma AgentReleases(r: Reached, s: State, v: string, spec: VolumeInfo, cr: CR) returns (t: State)
    requires r(s, {}) && Cur(s.server.vols, v) == Some(cr) && cr == DyingVolume(spec, cr.version)
    requires WorkOf(s.nodes, VolumeSlot(spec, v)) == Commit(3, cr, Release)
    ensures r(t, {}) && t.ctl == s.ctl && Cur(t.server.vols, v) == None && t.server.snaps == s.server.snaps
    ensures DiskOf(t.nodes, spec.ownerNodeID) == DiskOf(s.nodes, spec.ownerNodeID)
  {
    ServedRelease(s.server, v, cr);
    SameOwner(s, {}, v, cr, cr);
    assert WriteOf(s, VolumeSlot(spec, v)) == Update(KVolume, v, cr.(finalizers := []));
    t := Finishes(r, s, {}, VolumeSlot(spec, v));
  }

  /** From Ready to gone. */
  lemma GoesAway(r: Reached, s: State, v: string, spec: VolumeInfo, disk: Store) returns (t: State)
    requires r(s, {}) && Rest(s, 1) && HasReady(Server(map[], map[], 0), s.server, v, spec)
    requires PosOf(s.nodes, VolumeSlot(spec, v)) == 1 && WorkOf(s.nodes, VolumeSlot(spec, v)) == Idle
    requires DiskOf(s.nodes, spec.ownerNodeID) == WithVolume(disk, spec, v)
    requires Unknown(disk, spec.poolName, v) && Pool(spec.poolName) in disk
    ensures r(t, {}) && Cur(t.server.vols, v) == None && DiskOf(t.nodes, spec.ownerNodeID) == disk && Rest(t, 2)
  {
    assert ListSnaps(s.server, v) == {};
    t := DeletesVolume(r, s, 1, v, spec, 1);
    var cr := DyingVolume(spec, s.server.clock);
    t := AgentDestroys(r, t, v, spec, cr, disk);
    t := AgentReleases(r, t, v, spec, cr);
  }

  /**
   * For every volume that nothing on its node knows of there is a run from the initial state, in which
   * it is created and Ready, then deleted, that ends with its resource gone, no call active and the
   * node's datasets as they were.
   */
  lemma CreatedAndDeleted(v: string, spec: VolumeInfo, disk: Store) returns (ready: State, gone: State)
    requires Fresh(Begun(spec.ownerNodeID, disk), v, spec) && Unknown(disk, spec.poolName, v)
    ensures Initial(Begun(spec.ownerNodeID, disk)) && Reach(Begun(spec.ownerNodeID, disk), ready, {})
    ensures Reach(Begun(spec.ownerNodeID, disk), gone, {})
    ensures Cur(ready.server.vols, v).Some? && Cur(ready.server.vols, v).value.phase == Ready
    ensures DiskOf(ready.nodes, spec.ownerNodeID) == WithVolume(disk, spec, v)
    ensures Cur(gone.server.vols, v) == None && DiskOf(gone.nodes, spec.ownerNodeID) == disk && Rest(gone, 2)
  {
    var r := From(Begun(spec.ownerNodeID, disk));
    ready := MakesVolume(r, v, spec, disk);
    gone := GoesAway(r, ready, v, spec, disk);
  }
}
