/**
 * Interrupting an agent: a reconcile cut short after any `zfs` command, or failing in it, and
 * then run again. Provisioning always catches up; destroying does not quite.
 */
module Retry {
  import opened Base
  import opened Resource
  import opened UserProp
  import opened ZfsStore
  import opened Cluster

  // ---- the store stays well formed --------------------------------------------------------------

  /** Snapshots belong to volumes, volumes to pools, and clones to snapshots that are there. */
  ghost predicate WellFormed(st: Store) {
    && (forall p, v, x :: Snap(p, v, x) in st ==> Vol(p, v) in st)
    && (forall p, v :: Vol(p, v) in st ==> Pool(p) in st)
    && (forall d :: d in st && st[d].origin.Some? ==> st[d].origin.value.Snap? && st[d].origin.value in st)
  }

  lemma SnapshotWellFormed(st: Store, spec: VolumeInfo, volume: string, name: string, f: Faults)
    requires WellFormed(st)
    ensures WellFormed(CreateSnapshot(st, spec, volume, name, f).store)
    ensures WellFormed(DestroySnapshot(st, spec, volume, name, f).store)
  {
  }

  lemma CloneWellFormed(st: Store, spec: VolumeInfo, name: string, f: Faults)
    requires WellFormed(st)
    ensures WellFormed(CloneOnly(st, spec, name, f).store)
    ensures WellFormed(CreateVolume(st, spec, name, f).store)
    ensures WellFormed(SetVolumeProp(st, spec, name, f).store)
  {
  }

  lemma RecursiveWellFormed(st: Store, pool: string, name: string, fault: bool)
    requires WellFormed(st)
    ensures WellFormed(ZfsDestroyRecursive(st, pool, name, fault).store)
  {
    var st' := ZfsDestroyRecursive(st, pool, name, fault).store;
    forall d | d in st' && st'[d].origin.Some? ensures st'[d].origin.value.Snap? && st'[d].origin.value in st' {
      assert d in st;
    }
  }

  lemma DestroyWellFormed(st: Store, spec: VolumeInfo, src: Option<string>, name: string, f: Faults)
    requires WellFormed(st)
    ensures WellFormed(DestroyVolume(st, spec, src, name, f).store)
  {
    RecursiveWellFormed(st, spec.poolName, name, f.volCmd);
    if src.Some? {
      SnapshotWellFormed(ZfsDestroyRecursive(st, spec.poolName, name, f.volCmd).store, spec, src.value, name, f);
    }
  }

  lemma ProvisionWellFormed(st: Store, spec: VolumeInfo, src: Option<string>, name: string, f: Faults)
    requires WellFormed(st)
    ensures WellFormed(CreateClone(st, spec, src, name, f).store)
  {
    CloneWellFormed(st, spec, name, f);
    if src.Some? {
      SnapshotWellFormed(st, spec, src.value, name, f);
      CloneWellFormed(CreateSnapshot(st, spec, src.value, name, f).store, spec, name, f);
    }
  }

  lemma SyncWellFormed(kind: Kind, st: Store, name: string, at: nat, cr: CR, f: Faults)
    requires WellFormed(st)
    ensures WellFormed(SyncOf(kind, st, name, at, cr, f).store)
  {
    if kind == KSnapshot {
      SnapshotWellFormed(st, cr.spec, cr.labels.volume, name, f);
    } else if cr.terminating {
      DestroyWellFormed(st, cr.spec, cr.labels.srcVolume, name, f);
    } else {
      CloneWellFormed(st, cr.spec, name, f);
      ProvisionWellFormed(st, cr.spec, cr.labels.srcVolume, name, f);
    }
  }

  lemma WellFormedStep(s: State, step: Step, node: string)
    requires WellFormed(DiskOf(s.nodes, node))
    ensures WellFormed(DiskOf(NodesAfter(s, step), node))
  {
    if step.Act? && WorkOf(s.nodes, step.slot).Sync? && step.slot.node == node {
      var w := WorkOf(s.nodes, step.slot);
      SyncWellFormed(step.slot.kind, DiskOf(s.nodes, node), step.slot.name, w.at, w.view, step.faults);
    }
  }

  /** In every run, whatever fails or crashes, no clone ever loses its snapshot and no snapshot its volume. */
  lemma {:induction false} StoresStayWellFormed(s: State, steps: seq<Step>, node: string)
    requires WellFormed(DiskOf(s.nodes, node))
    ensures WellFormed(DiskOf(Run(s, steps).nodes, node))
  {
    if steps != [] {
      StoresStayWellFormed(s, steps[..|steps| - 1], node);
      WellFormedStep(Run(s, steps[..|steps| - 1]), steps[|steps| - 1], node);
    }
  }

  // ---- provisioning -------------------------------------------------------------------------------

  /** Where an attempt stops: before any command, after the source's snapshot, or after all of them. */
  datatype Cut = BeforeAll | AfterSnapshot | AfterAll

  /** An attempt whose result never reaches the API server: the agent stopped, or could not write. */
  datatype Attempt = Attempt(faults: Faults, cut: Cut)

  function Provision(st: Store, zv: CR, name: string, f: Faults): Outcome {
    if zv.spec.snapName.SnapOf? then CreateClone(st, zv.spec, zv.labels.srcVolume, name, f)
    else CreateVolume(st, zv.spec, name, f)
  }

  function Interrupted(st: Store, zv: CR, name: string, a: Attempt): Store {
    if a.cut == BeforeAll then st
    else if a.cut == AfterSnapshot then
      if zv.spec.snapName.SnapOf? && zv.labels.srcVolume.Some?
      then CreateSnapshot(st, zv.spec, zv.labels.srcVolume.value, name, a.faults).store else st
    else Provision(st, zv, name, a.faults).store
  }

  function Attempts(st: Store, zv: CR, name: string, attempts: seq<Attempt>): Store {
    if attempts == [] then st
    else Interrupted(Attempts(st, zv, name, attempts[..|attempts| - 1]), zv, name, attempts[|attempts| - 1])
  }

  lemma SnapshotAgain(st: Store, spec: VolumeInfo, volume: string, name: string, f: Faults)
    ensures CreateSnapshot(CreateSnapshot(st, spec, volume, name, f).store, spec, volume, name, NO_FAULTS)
         == CreateSnapshot(st, spec, volume, name, NO_FAULTS)
  {
  }

  lemma CloneAgain(st: Store, spec: VolumeInfo, name: string, f: Faults)
    ensures CloneOnly(CloneOnly(st, spec, name, f).store, spec, name, NO_FAULTS) == CloneOnly(st, spec, name, NO_FAULTS)
    ensures CreateVolume(CreateVolume(st, spec, name, f).store, spec, name, NO_FAULTS)
         == CreateVolume(st, spec, name, NO_FAULTS)
  {
  }

  /** Making the clone leaves its snapshot alone, so the snapshot is found again. */
  lemma SnapshotStays(st: Store, spec: VolumeInfo, volume: string, name: string, f: Faults)
    requires CreateSnapshot(st, spec, volume, name, f).ok
    ensures var snapped := CreateSnapshot(st, spec, volume, name, f).store;
            var cloned := CloneOnly(snapped, spec, name, f).store;
            && CreateSnapshot(st, spec, volume, name, NO_FAULTS) == Outcome(snapped, true)
            && CreateSnapshot(cloned, spec, volume, name, NO_FAULTS) == Outcome(cloned, true)
  {
  }

  lemma ProvisionAgain(st: Store, zv: CR, name: string, a: Attempt)
    ensures Provision(Interrupted(st, zv, name, a), zv, name, NO_FAULTS) == Provision(st, zv, name, NO_FAULTS)
  {
    var spec, src, f := zv.spec, zv.labels.srcVolume, a.faults;
    if spec.snapName.NoSnap? || src.None? {
      CloneAgain(st, spec, name, f);
    } else {
      SnapshotAgain(st, spec, src.value, name, f);
      if a.cut == AfterAll && CreateSnapshot(st, spec, src.value, name, f).ok {
        SnapshotStays(st, spec, src.value, name, f);
        CloneAgain(CreateSnapshot(st, spec, src.value, name, f).store, spec, name, f);
      }
    }
  }

  lemma {:induction false} ProvisionConverges(st: Store, zv: CR, name: string, attempts: seq<Attempt>)
    ensures Provision(Attempts(st, zv, name, attempts), zv, name, NO_FAULTS) == Provision(st, zv, name, NO_FAULTS)
  {
    if attempts != [] {
      ProvisionConverges(st, zv, name, attempts[..|attempts| - 1]);
      ProvisionAgain(Attempts(st, zv, name, attempts[..|attempts| - 1]), zv, name, attempts[|attempts| - 1]);
    }
  }

  /**
   * Reconciling a volume that is not Ready: after any number of attempts cut short or failing
   * anywhere, one that is left alone ends with the store and the write to the resource that it
   * would have had without them.
   */
  lemma RetriedReconcileConverges(st: Store, name: string, at: nat, zv: CR, attempts: seq<Attempt>)
    requires !zv.terminating && !IsVolumeReady(zv)
    ensures SyncVolume(Attempts(st, zv, name, attempts), name, at, zv, NO_FAULTS).work
         == SyncVolume(st, name, at, zv, NO_FAULTS).work
    ensures ValidProps(zv.spec.userProperties) ==>
      SyncVolume(Attempts(st, zv, name, attempts), name, at, zv, NO_FAULTS).store
      == SyncVolume(st, name, at, zv, NO_FAULTS).store
  {
    ProvisionConverges(st, zv, name, attempts);
  }

  // ---- destroying --------------------------------------------------------------------------------

  /** The destroy of a clone stopped between its volume and its source snapshot. */
  function VolumeGone(st: Store, spec: VolumeInfo, name: string): Store {
    if Pool(spec.poolName) in st && Vol(spec.poolName, name) in st
    then ZfsDestroyRecursive(st, spec.poolName, name, false).store else st
  }

  /** The volume is a clone whose source snapshot exists for it alone, and it can be destroyed. */
  ghost predicate OwnsSnapshot(st: Store, spec: VolumeInfo, src: Option<string>, name: string) {
    && src.Some? && src.value != name
    && Pool(spec.poolName) in st && Vol(spec.poolName, name) in st && !HasDependents(st, spec.poolName, name)
    && Snap(spec.poolName, src.value, name) in st
    && forall d :: d in st && st[d].origin == Some(Snap(spec.poolName, src.value, name)) ==>
         d == Vol(spec.poolName, name) || SnapOfVol(d, spec.poolName, name)
  }

  /**
   * A destroy stopped there does not catch up: run again it finds no volume and leaves the source
   * snapshot behind, exactly when the clone owned one.
   */
  lemma InterruptedDestroyLeaksIff(st: Store, spec: VolumeInfo, src: Option<string>, name: string)
    ensures var again := DestroyVolume(VolumeGone(st, spec, name), spec, src, name, NO_FAULTS).store;
            && (again != DestroyVolume(st, spec, src, name, NO_FAULTS).store <==> OwnsSnapshot(st, spec, src, name))
            && (OwnsSnapshot(st, spec, src, name) ==> Snap(spec.poolName, src.value, name) in again)
  {
    var gone := VolumeGone(st, spec, name);
    if Pool(spec.poolName) in st && Vol(spec.poolName, name) in st {
      if HasDependents(st, spec.poolName, name) {
        assert gone == st;
      } else {
        AfterVolume(st, spec, name);
        if src.Some? { SnapshotLeft(st, spec, src.value, name); }
      }
    }
  }

  /**
   * A destroy that reports success, whatever it met, leaves something behind exactly when it could
   * not list a volume it could have destroyed, or destroyed the volume but could not list or destroy
   * the source snapshot it owned. In the second case the snapshot is left.
   */
  lemma FaultyDestroyLeaksIff(st: Store, spec: VolumeInfo, src: Option<string>, name: string, f: Faults)
    requires DestroyVolume(st, spec, src, name, f).ok
    ensures DestroyVolume(st, spec, src, name, f).store != DestroyVolume(st, spec, src, name, NO_FAULTS).store
       <==> Vol(spec.poolName, name) in st
            && if f.volList then !HasDependents(st, spec.poolName, name)
               else OwnsSnapshot(st, spec, src, name) && (f.snapList || f.snapCmd)
    ensures !f.volList && OwnsSnapshot(st, spec, src, name) && (f.snapList || f.snapCmd) ==>
              Snap(spec.poolName, src.value, name) in DestroyVolume(st, spec, src, name, f).store
  {
    if Vol(spec.poolName, name) in st && !HasDependents(st, spec.poolName, name) {
      AfterVolume(st, spec, name);
      if src.Some? { SnapshotLeft(st, spec, src.value, name); }
    }
  }

  lemma AfterVolume(st: Store, spec: VolumeInfo, name: string)
    requires Pool(spec.poolName) in st && Vol(spec.poolName, name) in st && !HasDependents(st, spec.poolName, name)
    ensures var gone := VolumeGone(st, spec, name);
            && Pool(spec.poolName) in gone && Vol(spec.poolName, name) !in gone
            && forall src :: DestroyVolume(gone, spec, src, name, NO_FAULTS) == Outcome(gone, true)
  {
  }

  /** Whether the second half of the destroy removes the snapshot. */
  lemma SnapshotLeft(st: Store, spec: VolumeInfo, src: string, name: string)
    requires Pool(spec.poolName) in st && Vol(spec.poolName, name) in st && !HasDependents(st, spec.poolName, name)
    ensures var gone := VolumeGone(st, spec, name);
            DestroySnapshot(gone, spec, src, name, NO_FAULTS).store != gone <==> OwnsSnapshot(st, spec, Some(src), name)
  {
    var gone, snap := VolumeGone(st, spec, name), Snap(spec.poolName, src, name);
    assert snap in gone <==> snap in st && src != name;
    assert forall d :: d in st ==> d in gone || d == Vol(spec.poolName, name) || SnapOfVol(d, spec.poolName, name);
    assert forall d :: d in gone ==> d in st && gone[d] == st[d];
    if snap in gone {
      if HasClone(gone, snap) {
        var d :| d in gone && gone[d].origin == Some(snap);
        assert d in st && st[d].origin == Some(snap);
      } else {
        assert snap !in DestroySnapshot(gone, spec, src, name, NO_FAULTS).store;
      }
    }
  }

  /** Nothing depends on a volume that has just been made. */
  lemma NoDependents(st: Store, zv: CR, name: string)
    requires WellFormed(st) && Provision(st, zv, name, NO_FAULTS).ok && Vol(zv.spec.poolName, name) !in st
    requires zv.labels.srcVolume.Some? ==>
      zv.spec.snapName == SnapOf(zv.labels.srcVolume.value, name)
      && Snap(zv.spec.poolName, zv.labels.srcVolume.value, name) !in st
    ensures var pool, made := zv.spec.poolName, Provision(st, zv, name, NO_FAULTS).store;
            Vol(pool, name) in made && Pool(pool) in made && !HasDependents(made, pool, name)
  {
    var pool, made := zv.spec.poolName, Provision(st, zv, name, NO_FAULTS).store;
    assert Vol(pool, name) in made && Pool(pool) in made;
    forall d | d in made && made[d].origin.Some? ensures !SnapOfVol(made[d].origin.value, pool, name) {
      if d in st && made[d] == st[d] { assert st[d].origin.value in st; }
    }
  }

  /** The datasets a provisioned volume adds besides itself. */
  function Besides(st: Store, zv: CR, name: string): Store {
    if zv.labels.srcVolume.None? then st
    else st[Snap(zv.spec.poolName, zv.labels.srcVolume.value, name) := Info(Snapshotted(zv.spec), None)]
  }

  lemma VolumeUndone(st: Store, zv: CR, name: string)
    requires WellFormed(st) && Provision(st, zv, name, NO_FAULTS).ok && Vol(zv.spec.poolName, name) !in st
    requires zv.labels.srcVolume.Some? ==>
      zv.spec.snapName == SnapOf(zv.labels.srcVolume.value, name)
      && Snap(zv.spec.poolName, zv.labels.srcVolume.value, name) !in st
    requires !HasDependents(Provision(st, zv, name, NO_FAULTS).store, zv.spec.poolName, name)
    ensures ZfsDestroyRecursive(Provision(st, zv, name, NO_FAULTS).store, zv.spec.poolName, name, false)
         == Outcome(Besides(st, zv, name), true)
  {
    var gone := ZfsDestroyRecursive(Provision(st, zv, name, NO_FAULTS).store, zv.spec.poolName, name, false).store;
    assert gone == Besides(st, zv, name);
  }

  lemma SnapshotUndone(st: Store, zv: CR, name: string)
    requires WellFormed(st) && Pool(zv.spec.poolName) in st && zv.labels.srcVolume.Some?
    requires Snap(zv.spec.poolName, zv.labels.srcVolume.value, name) !in st
    ensures DestroySnapshot(Besides(st, zv, name), zv.spec, zv.labels.srcVolume.value, name, NO_FAULTS).store == st
  {
    var snap := Snap(zv.spec.poolName, zv.labels.srcVolume.value, name);
    forall d | d in st ensures st[d].origin != Some(snap) {
    }
    assert !HasClone(Besides(st, zv, name), snap);
  }

  /** Creating a volume, or cloning one, and destroying it again restores the store. */
  lemma CreateThenDestroy(st: Store, zv: CR, name: string)
    requires WellFormed(st) && Provision(st, zv, name, NO_FAULTS).ok
    requires Vol(zv.spec.poolName, name) !in st
    requires zv.labels.srcVolume.Some? ==>
      zv.spec.snapName == SnapOf(zv.labels.srcVolume.value, name)
      && Snap(zv.spec.poolName, zv.labels.srcVolume.value, name) !in st
    ensures DestroyVolume(Provision(st, zv, name, NO_FAULTS).store, zv.spec, zv.labels.srcVolume, name, NO_FAULTS)
         == Outcome(st, true)
  {
    NoDependents(st, zv, name);
    VolumeUndone(st, zv, name);
    if zv.labels.srcVolume.Some? { SnapshotUndone(st, zv, name); }
  }
}
