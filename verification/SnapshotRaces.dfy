/** Runs from the initial state that lose a live snapshot's volume, or a finalizer too early. */
module SnapshotRaces {
  import opened Base
  import opened Resource
  import opened Api
  import opened UserProp
  import opened ZfsStore
  import opened Cluster
  import opened AgentSafety
  import opened Script
  import opened Scenarios

  /** Nothing created yet; one node has datasets. */
  function Begun(node: string, disk: Store): State {
    State(Server(map[], map[], 0), Controller(map[], map[]), Nodes(map[], map[], map[node := disk]))
  }

  /** The volume is being deleted while a snapshot of it is alive. */
  predicate Stranded(sv: Server, v: string, k: string) {
    && Cur(sv.vols, v).Some? && Cur(sv.vols, v).value.terminating
    && Labelled(sv, k, v) && !Cur(sv.snaps, k).value.terminating
  }

  /** The first version of a snapshot's resource after the volume's two. */
  function FirstSnap(v: string, spec: VolumeInfo): CR { SnapCR(v, ReadyCR(spec, 1), 2) }

  /** A Ready volume and one snapshot of it. */
  ghost predicate OneSnapshot(sv: Server, v: string, k: string, spec: VolumeInfo) {
    && Cur(sv.vols, v) == Some(ReadyCR(spec, 1)) && (forall x :: x != v ==> Hist(sv.vols, x) == [None])
    && Hist(sv.snaps, k) == [None, Some(FirstSnap(v, spec))] && (forall x :: x != k ==> Hist(sv.snaps, x) == [None])
    && sv.clock == 3
  }

  lemma PushedSnap(sv: Server, v: string, k: string, spec: VolumeInfo)
    requires HasReady(Server(map[], map[], 0), sv, v, spec)
    ensures OneSnapshot(Server(sv.vols, Push(sv.snaps, k, Some(FirstSnap(v, spec))), 3), v, k, spec)
  {
  }

  lemma MakesVolume(r: Reached, v: string, spec: VolumeInfo, disk: Store) returns (s: State)
    requires r(Begun(spec.ownerNodeID, disk), {}) && Fresh(Begun(spec.ownerNodeID, disk), v, spec)
    ensures r(s, {}) && Rest(s, 1)
    ensures HasReady(Server(map[], map[], 0), s.server, v, spec)
    ensures s.nodes == NodesWith(Begun(spec.ownerNodeID, disk).nodes, v, spec)
  {
    var s0 := Begun(spec.ownerNodeID, disk);
    s := CreatesReady(r, s0, 0, v, spec);
  }

  lemma AddsSnapshot(r: Reached, s: State, v: string, k: string, spec: VolumeInfo) returns (t: State)
    requires r(s, {}) && Rest(s, 1) && v != k && HasReady(Server(map[], map[], 0), s.server, v, spec)
    ensures r(t, {}) && Rest(t, 2) && OneSnapshot(t.server, v, k, spec) && t.nodes == s.nodes
  {
    var sv := s.server;
    assert sv.clock == 2 && sv.snaps == map[] && Cur(sv.vols, v) == Some(ReadyCR(spec, 1));
    PushedSnap(sv, v, k, spec);
    t := TakesSnapshot(r, s, 1, v, k, ReadyCR(spec, 1));
    assert t.server == Server(sv.vols, Push(sv.snaps, k, Some(FirstSnap(v, spec))), 3);
  }

  lemma MakesSnapshotted(r: Reached, v: string, k: string, spec: VolumeInfo, disk: Store) returns (s: State)
    requires r(Begun(spec.ownerNodeID, disk), {}) && v != k && Fresh(Begun(spec.ownerNodeID, disk), v, spec)
    ensures r(s, {}) && Rest(s, 2) && OneSnapshot(s.server, v, k, spec)
    ensures s.nodes == NodesWith(Begun(spec.ownerNodeID, disk).nodes, v, spec)
  {
    s := MakesVolume(r, v, spec, disk);
    s := AddsSnapshot(r, s, v, k, spec);
  }

  // ---- CreateVolume's clean-up --------------------------------------------------------------------------

  /** A second CreateVolume fails to read the volume and so goes on. */
  lemma FailsToRead(r: Reached, s: State, n: nat, v: string, spec: VolumeInfo) returns (t: State, c: Call)
    requires r(s, {}) && Rest(s, n) && spec.snapName.NoSnap?
    ensures c == Call(CreateVolumeOp(v, None, [spec]), ProvGet(0), None, {})
    ensures r(t, {}) && Inside(t, n, c) && t.server == s.server && t.nodes == s.nodes
  {
    var op := CreateVolumeOp(v, None, [spec]);
    c := Call(op, ProvGet(0), None, {});
    t := Enters(r, s, {}, n, op);
    t := CreateMoves(r, t, {}, n, Call(op, Precheck, None, {}), true, false, c);
  }

  lemma ComesToOverwrite(r: Reached, s: State, n: nat, v: string, spec: VolumeInfo) returns (t: State, c: Call)
    requires r(s, {}) && Rest(s, n) && spec.snapName.NoSnap?
    ensures c == Call(CreateVolumeOp(v, None, [spec]), ProvWrite(0), Cur(s.server.vols, v), {})
    ensures r(t, {}) && Inside(t, n, c) && t.server == s.server && t.nodes == s.nodes
  {
    t, c := FailsToRead(r, s, n, v, spec);
    t, c := Reads(r, t, {}, n, c, 0);
  }

  /** It overwrites the volume. */
  lemma OverwritesVolume(r: Reached, s: State, n: nat, v: string, spec: VolumeInfo, cr: CR) returns (t: State, c: Call)
    requires r(s, {}) && Rest(s, n) && Cur(s.server.vols, v) == Some(cr) && !cr.terminating
    requires cr.version < s.server.clock && spec.ownerNodeID == cr.spec.ownerNodeID && spec.snapName.NoSnap?
    ensures r(t, {}) && Inside(t, n, c) && c.op == CreateVolumeOp(v, None, [spec]) && c.pc == Poll(0)
    ensures t.server
         == Server(Push(s.server.vols, v, Some(cr.(spec := spec, phase := Pending, version := s.server.clock))),
             s.server.snaps, s.server.clock + 1)
  {
    t, c := ComesToOverwrite(r, s, n, v, spec);
    var written := cr.(spec := spec, phase := Pending);
    ServedUpdate(t.server, v, written);
    SameOwner(t, {}, v, cr, written.(version := s.server.clock));
    t := Puts(r, t, {}, n, c, 0);
    c := c.(pc := Poll(0));
  }

  lemma TimesOut(r: Reached, s: State, n: nat, c: Call, v: string, cr: CR) returns (t: State)
    requires r(s, {}) && Inside(s, n, c) && c.op.CreateVolumeOp? && c.op.volume == v && !IsClone(c.op.plan)
    requires c.pc == Poll(0)
    requires Cur(s.server.vols, v) == Some(cr) && !cr.terminating
    ensures r(t, {}) && t.server == Serve(s.server, Delete(KVolume, v))
  {
    var c1 := c.(pc := DelVol);
    t := CreateMoves(r, s, {}, n, c, false, true, c1);
    SameOwner(t, {}, v, cr, Stored(t.server, Delete(KVolume, v)).value);
    t := WritesVol(r, t, {}, n, Move(c1.(pc := UnlockVol), Delete(KVolume, v)));
  }

  /**
   * For every volume there is a run in which a second CreateVolume, failing to read it once, deletes
   * it while it is Ready and has a live snapshot.
   */
  lemma CleanupStrandsSnapshot(v: string, k: string, spec: VolumeInfo, disk: Store) returns (s: State)
    requires v != k && Fresh(Begun(spec.ownerNodeID, disk), v, spec)
    ensures Initial(Begun(spec.ownerNodeID, disk)) && Reach(Begun(spec.ownerNodeID, disk), s, {})
    ensures Stranded(s.server, v, k)
  {
    var r := From(Begun(spec.ownerNodeID, disk));
    s := MakesSnapshotted(r, v, k, spec, disk);
    var c;
    s, c := OverwritesVolume(r, s, 2, v, spec, ReadyCR(spec, 1));
    s := TimesOut(r, s, 2, c, v, Cur(s.server.vols, v).value);
  }

  // ---- a snapshot id that names the wrong volume ------------------------------------------------------------

  /** DeleteSnapshot for volume `v` and snapshot `k` has come to list the snapshots of `v`; `other` is the only one. */
  ghost predicate WrongId(s: State, h: nat, v: string, k: string, other: string, pc: Pc, listed: set<string>) {
    && h in s.ctl.calls && s.ctl.calls[h].op == DeleteSnapshotOp(v, k)
    && s.ctl.calls[h].pc == pc && s.ctl.calls[h].listed == listed
    && OneLiveSnapshot(s.server, v, other)
    && Cur(s.server.vols, v).Some? && Cur(s.server.vols, v).value.marked && !Cur(s.server.vols, v).value.terminating
    && Cur(s.server.snaps, k).Some? && k != other
  }

  ghost predicate OneLiveSnapshot(sv: Server, v: string, other: string) {
    && ListSnaps(sv, v) == {other} && !Cur(sv.snaps, other).value.terminating
  }

  lemma WrongList(s: State, h: nat, v: string, k: string, other: string)
    requires WrongId(s, h, v, k, other, List, {})
    ensures WrongId(Apply(s, Advance(h, false, false)), h, v, k, other, DelSnap, {other})
  {
  }

  /** Deleting another snapshot leaves the volume and its own snapshots as they were. */
  lemma OtherDeleted(sv: Server, v: string, k: string, other: string)
    requires OneLiveSnapshot(sv, v, other) && Cur(sv.snaps, k).Some? && k != other
    ensures var sv' := Serve(sv, Delete(KSnapshot, k));
            OneLiveSnapshot(sv', v, other) && sv'.vols == sv.vols && Cur(sv'.snaps, k).Some?
  {
    var sv' := Serve(sv, Delete(KSnapshot, k));
    forall x ensures Labelled(sv', x, v) <==> Labelled(sv, x, v) {
      Served(sv, Delete(KSnapshot, k), Slot(KSnapshot, "", x));
    }
    assert ListSnaps(sv', v) == ListSnaps(sv, v);
    assert other in ListSnaps(sv, v);
  }

  lemma WrongDelete(s: State, h: nat, v: string, k: string, other: string)
    requires WrongId(s, h, v, k, other, DelSnap, {other})
    ensures WrongId(Apply(s, Advance(h, false, false)), h, v, k, other, Eligible, {other})
  {
    OtherDeleted(s.server, v, k, other);
  }

  lemma WrongEligible(s: State, h: nat, v: string, k: string, other: string)
    requires WrongId(s, h, v, k, other, Eligible, {other})
    ensures WrongId(Apply(s, Advance(h, false, false)), h, v, k, other, DelVol, {other})
  {
    assert |{other}| == 1;
  }

  /**
   * The id's volume part matters: given a snapshot of some other volume, DeleteSnapshot deletes a
   * marked volume `v` whose only snapshot is alive.
   */
  lemma WrongIdDeletesVolume(s: State, h: nat, v: string, k: string, other: string)
    requires WrongId(s, h, v, k, other, List, {})
    ensures var next := Advance(h, false, false);
            var after := Apply(Apply(Apply(Apply(s, next), next), next), next).server;
            && Cur(after.vols, v).Some? && Cur(after.vols, v).value.terminating
            && Labelled(after, other, v) && !Cur(after.snaps, other).value.terminating
  {
    var next := Advance(h, false, false);
    WrongList(s, h, v, k, other);
    WrongDelete(Apply(s, next), h, v, k, other);
    WrongEligible(Apply(Apply(s, next), next), h, v, k, other);
    WrongRemoves(Apply(Apply(Apply(s, next), next), next), h, v, k, other);
  }

  lemma WrongRemoves(s: State, h: nat, v: string, k: string, other: string)
    requires WrongId(s, h, v, k, other, DelVol, {other})
    ensures var after := Apply(s, Advance(h, false, false)).server;
            && Cur(after.vols, v).Some? && Cur(after.vols, v).value.terminating
            && Labelled(after, other, v) && !Cur(after.snaps, other).value.terminating
  {
    assert other in ListSnaps(s.server, v);
  }

  /** A second volume and its snapshot, beside a volume with a snapshot. */
  lemma SecondSnapshot(r: Reached, s: State, v: string, w: string, k: string, other: string, spec: VolumeInfo,
                       spec': VolumeInfo)
    returns (t: State)
    requires r(s, {}) && Rest(s, 2) && OneSnapshot(s.server, v, other, spec) && Fresh(s, w, spec')
    requires v != w && w != k && k != other && v != k
    ensures r(t, {}) && Rest(t, 4) && t.server.clock == 6 && Cur(t.server.vols, v) == Some(ReadyCR(spec, 1))
    ensures Hist(t.server.snaps, other) == [None, Some(FirstSnap(v, spec))]
    ensures Cur(t.server.snaps, k).Some? && Cur(t.server.snaps, k).value.labels.volume == w
    ensures forall x :: x != k && x != other ==> Hist(t.server.snaps, x) == [None]
  {
    t := CreatesReady(r, s, 2, w, spec');
    t := TakesSnapshot(r, t, 3, w, k, ReadyCR(spec', 4));
  }

  lemma OnlyOther(sv: Server, v: string, w: string, k: string, other: string, spec: VolumeInfo)
    requires v != w && Hist(sv.snaps, other) == [None, Some(FirstSnap(v, spec))]
    requires Cur(sv.snaps, k).Some? && Cur(sv.snaps, k).value.labels.volume == w
    requires forall x :: x != k && x != other ==> Hist(sv.snaps, x) == [None]
    ensures OneLiveSnapshot(sv, v, other)
  {
    assert Labelled(sv, other, v);
    forall x ensures Labelled(sv, x, v) <==> x == other {
    }
  }

  /** DeleteSnapshot with the wrong volume in its id comes to its listing. */
  lemma AsksWrongly(r: Reached, s: State, n: nat, v: string, k: string) returns (t: State)
    requires r(s, {}) && Rest(s, n) && v != k && Cur(s.server.snaps, k).Some?
    ensures r(t, {}) && t.server == s.server && n in t.ctl.calls
    ensures t.ctl.calls[n] == Call(DeleteSnapshotOp(v, k), List, Cur(s.server.snaps, k), {})
  {
    var op := DeleteSnapshotOp(v, k);
    t := Begins(r, s, {}, n, op);
    t := LocksBoth(r, t, {}, n, Call(op, LockVol, None, {}));
    t := MovesBoth(r, t, {}, n, Call(op, GetSnap, None, {}), Call(op, List, Cur(s.server.snaps, k), {}));
  }

  /**
   * For any two volumes with a snapshot each there is a run, with v marked for deletion by a
   * DeleteVolume, that ends in v being deleted while its own snapshot is alive, because the id of
   * the other snapshot was given with v as its volume.
   */
  lemma WrongIdStrandsSnapshot(v: string, w: string, k: string, other: string, spec: VolumeInfo, spec': VolumeInfo,
                               disk: Store)
    returns (s: State)
    requires v != w && w != k && k != other && v != k && v != other && spec.ownerNodeID == spec'.ownerNodeID
    requires Fresh(Begun(spec.ownerNodeID, disk), v, spec) && Fresh(Begun(spec.ownerNodeID, disk), w, spec')
    ensures Initial(Begun(spec.ownerNodeID, disk)) && Reach(Begun(spec.ownerNodeID, disk), s, {})
    ensures WrongId(s, 5, v, k, other, List, {})
    ensures var next := Advance(5, false, false);
            Stranded(Apply(Apply(Apply(Apply(s, next), next), next), next).server, v, other)
  {
    var r := From(Begun(spec.ownerNodeID, disk));
    s := MakesSnapshotted(r, v, other, spec, disk);
    s := SecondSnapshot(r, s, v, w, k, other, spec, spec');
    OnlyOther(s.server, v, w, k, other, spec);
    s := MarksVolume(r, s, 4, v, ReadyCR(spec, 1));
    OnlyOther(s.server, v, w, k, other, spec);
    s := AsksWrongly(r, s, 5, v, k);
    WrongIdDeletesVolume(s, 5, v, k, other);
  }

  // ---- a snapshot taken again while it is being released ------------------------------------------------------

  /** The snapshot's agent takes up the version its informer comes to. */
  lemma SnapshotHears(r: Reached, s: State, slot: Slot, to: nat, cr: CR) returns (t: State)
    requires r(s, {}) && slot.kind == KSnapshot && WorkOf(s.nodes, slot) == Idle
    requires PosOf(s.nodes, slot) <= to < |HistOf(s.server, slot)| && HistOf(s.server, slot)[to] == Some(cr)
    ensures r(t, {})
    ensures t == s.(nodes := s.nodes.(pos := s.nodes.pos[slot := to], work := s.nodes.work[slot := Sync(to, cr)]))
  {
    t := Delivers(r, s, {}, slot, to, {});
    t := Starts(r, t, {}, slot, cr);
    var none: set<Slot> := {};
    assert none - {slot} == {};
  }

  /** The snapshot is on disk, Ready and finalized. */
  ghost predicate Kept(s: State, v: string, k: string, spec: VolumeInfo, cr: CR) {
    && Hist(s.server.snaps, k) == [None, Some(FirstSnap(v, spec)), Some(cr)] && cr.version < s.server.clock
    && cr.spec == FirstSnap(v, spec).spec && cr.labels.volume == v && cr.finalizers == [ZfsFinalizer] && !cr.terminating
    && WorkOf(s.nodes, Slot(KSnapshot, spec.ownerNodeID, k)) == Idle
    && PosOf(s.nodes, Slot(KSnapshot, spec.ownerNodeID, k)) == 1
    && var disk := DiskOf(s.nodes, spec.ownerNodeID);
       && Pool(spec.poolName) in disk && Vol(spec.poolName, v) in disk && Snap(spec.poolName, v, k) in disk
       && !HasClone(disk, Snap(spec.poolName, v, k))
  }

  lemma SnapEffectOnDisk(disk: Store, k: string, cr: CR, at: nat)
    requires !cr.terminating && cr.phase == Pending && cr.spec.userProperties == map[]
    requires var d := Snap(cr.spec.poolName, cr.labels.volume, k);
             d !in disk && Vol(cr.spec.poolName, cr.labels.volume) in disk && !HasClone(disk, d)
    ensures var d := Snap(cr.spec.poolName, cr.labels.volume, k);
            var after := disk[d := Info(Snapshotted(cr.spec), None)];
            SyncSnapshot(disk, k, at, cr, NO_FAULTS) == Effect(after, Commit(at, cr, MarkReady)) && !HasClone(after, d)
  {
  }

  lemma ServedSnap(sv: Server, k: string, cr: CR)
    requires Cur(sv.snaps, k).Some? && !Cur(sv.snaps, k).value.terminating
    requires Cur(sv.snaps, k).value.version == cr.version < sv.clock
    ensures var after := cr.(version := sv.clock, terminating := false);
            && Accepts(sv, Update(KSnapshot, k, cr)) && Stored(sv, Update(KSnapshot, k, cr)) == Some(after)
            && Serve(sv, Update(KSnapshot, k, cr)) == Server(sv.vols, Push(sv.snaps, k, Some(after)), sv.clock + 1)
  {
  }

  lemma SnapshotMade(r: Reached, s: State, v: string, k: string, spec: VolumeInfo) returns (t: State)
    requires r(s, {}) && OneSnapshot(s.server, v, k, spec)
    requires WorkOf(s.nodes, Slot(KSnapshot, spec.ownerNodeID, k)) == Idle
    requires PosOf(s.nodes, Slot(KSnapshot, spec.ownerNodeID, k)) == 0
    requires var disk := DiskOf(s.nodes, spec.ownerNodeID);
             && Vol(spec.poolName, v) in disk
             && Snap(spec.poolName, v, k) !in disk
             && !HasClone(disk, Snap(spec.poolName, v, k))
    ensures r(t, {}) && t.ctl == s.ctl && t.server == s.server
    ensures var slot, cr := Slot(KSnapshot, spec.ownerNodeID, k), FirstSnap(v, spec);
            var disk := DiskOf(s.nodes, spec.ownerNodeID);
            var after := disk[Snap(spec.poolName, v, k) := Info(Snapshotted(cr.spec), None)];
            && t.nodes == Nodes(s.nodes.pos[slot := 1], s.nodes.work[slot := Commit(1, cr, MarkReady)],
                s.nodes.disks[spec.ownerNodeID := after])
            && !HasClone(after, Snap(spec.poolName, v, k))
  {
    var slot, cr := Slot(KSnapshot, spec.ownerNodeID, k), FirstSnap(v, spec);
    var disk := DiskOf(s.nodes, spec.ownerNodeID);
    t := SnapshotHears(r, s, slot, 1, cr);
    SnapEffectOnDisk(disk, k, cr, 1);
    t := Acts(r, t, {}, slot, NO_FAULTS, SyncSnapshot(disk, k, 1, cr, NO_FAULTS));
    Overwrites(s.nodes.work, slot, Sync(1, cr), Commit(1, cr, MarkReady));
  }

  lemma SnapshotKept(r: Reached, s: State, v: string, k: string, spec: VolumeInfo, disk: Store)
    returns (t: State, cr: CR)
    requires r(s, {}) && OneSnapshot(s.server, v, k, spec)
    requires WorkOf(s.nodes, Slot(KSnapshot, spec.ownerNodeID, k)) == Commit(1, FirstSnap(v, spec), MarkReady)
    requires PosOf(s.nodes, Slot(KSnapshot, spec.ownerNodeID, k)) == 1 && disk == DiskOf(s.nodes, spec.ownerNodeID)
    requires Pool(spec.poolName) in disk && Vol(spec.poolName, v) in disk && Snap(spec.poolName, v, k) in disk
    requires !HasClone(disk, Snap(spec.poolName, v, k))
    ensures r(t, {}) && t.ctl == s.ctl && Kept(t, v, k, spec, cr) && t.server.vols == s.server.vols
    ensures t.nodes == s.nodes.(work := s.nodes.work[Slot(KSnapshot, spec.ownerNodeID, k) := Idle])
  {
    var slot := Slot(KSnapshot, spec.ownerNodeID, k);
    var first := FirstSnap(v, spec);
    var written := Written(first, spec.ownerNodeID, MarkReady);
    assert [] + [ZfsFinalizer] == [ZfsFinalizer];
    ServedSnap(s.server, k, written);
    cr := written.(version := s.server.clock, terminating := false);
    t := Finishes(r, s, {}, slot);
    assert [None, Some(first)] + [Some(cr)] == [None, Some(first), Some(cr)];
  }

  function Dying(cr: CR, version: nat): CR {
    cr.(version := version, terminating := true, finalizers := [ZfsFinalizer, ForegroundDeletion])
  }

  /** Its resource is deleted. */
  lemma SnapshotDeleted(r: Reached, s: State, v: string, k: string, spec: VolumeInfo, cr: CR) returns (t: State)
    requires r(s, {}) && Kept(s, v, k, spec, cr)
    ensures r(t, {}) && t.ctl == s.ctl && t.nodes == s.nodes && t.server.vols == s.server.vols
    ensures Hist(t.server.snaps, k) == [None, Some(FirstSnap(v, spec)), Some(cr), Some(Dying(cr, s.server.clock))]
  {
    var first := FirstSnap(v, spec);
    assert [ZfsFinalizer] + [ForegroundDeletion] == [ZfsFinalizer, ForegroundDeletion];
    assert Stored(s.server, Delete(KSnapshot, k)) == Some(Dying(cr, s.server.clock));
    t := Deletes(r, s, {}, KSnapshot, k);
    assert [None, Some(first), Some(cr)] + [Some(Dying(cr, s.server.clock))]
        == [None, Some(first), Some(cr), Some(Dying(cr, s.server.clock))];
  }

  lemma ReleaseEffect(disk: Store, k: string, cr: CR, at: nat)
    requires cr.terminating && UserFinalizers(cr.finalizers) == [] && Pool(cr.spec.poolName) in disk
    requires var d := Snap(cr.spec.poolName, cr.labels.volume, k); d in disk && !HasClone(disk, d)
    ensures var e := SyncSnapshot(disk, k, at, cr, NO_FAULTS);
            && e.work == Commit(at, cr, Release) && Snap(cr.spec.poolName, cr.labels.volume, k) !in e.store
            && forall x :: x in disk && !x.Snap? ==> x in e.store
  {
  }

  /** Its agent has destroyed the dataset and is about to say so. */
  ghost predicate ReleasingSnap(s: State, v: string, k: string, spec: VolumeInfo, cr: CR) {
    && Cur(s.server.snaps, k) == Some(cr) && cr.spec.poolName == spec.poolName && cr.labels.volume == v
    && cr.terminating && ZfsFinalizer in cr.finalizers
    && WorkOf(s.nodes, Slot(KSnapshot, spec.ownerNodeID, k)) == Commit(3, cr, Release)
  }

  lemma SnapshotDestroyed(r: Reached, s: State, v: string, k: string, spec: VolumeInfo, kept: CR, cr: CR)
    returns (t: State)
    requires r(s, {}) && cr == Dying(kept, cr.version)
    requires Hist(s.server.snaps, k) == [None, Some(FirstSnap(v, spec)), Some(kept), Some(cr)]
    requires kept.spec.poolName == spec.poolName && kept.labels.volume == v
    requires WorkOf(s.nodes, Slot(KSnapshot, spec.ownerNodeID, k)) == Idle
    requires PosOf(s.nodes, Slot(KSnapshot, spec.ownerNodeID, k)) == 1
    requires var disk := DiskOf(s.nodes, spec.ownerNodeID);
             && Pool(spec.poolName) in disk && Vol(spec.poolName, v) in disk && Snap(spec.poolName, v, k) in disk
             && !HasClone(disk, Snap(spec.poolName, v, k))
    ensures r(t, {}) && t.ctl == s.ctl && t.server == s.server && ReleasingSnap(t, v, k, spec, cr)
    ensures var disk := DiskOf(t.nodes, spec.ownerNodeID);
            Pool(spec.poolName) in disk && Vol(spec.poolName, v) in disk && Snap(spec.poolName, v, k) !in disk
    ensures forall x :: x != Slot(KSnapshot, spec.ownerNodeID, k) ==>
              PosOf(t.nodes, x) == PosOf(s.nodes, x) && WorkOf(t.nodes, x) == WorkOf(s.nodes, x)
  {
    var slot, disk := Slot(KSnapshot, spec.ownerNodeID, k), DiskOf(s.nodes, spec.ownerNodeID);
    t := SnapshotHears(r, s, slot, 3, cr);
    ReleaseEffect(disk, k, cr, 3);
    t := Acts(r, t, {}, slot, NO_FAULTS, SyncSnapshot(disk, k, 3, cr, NO_FAULTS));
  }

  function CloneSpec(v: string, k: string, spec: VolumeInfo): VolumeInfo { spec.(snapName := SnapOf(v, k)) }

  function CloneCR(v: string, k: string, spec: VolumeInfo, version: nat): CR {
    CR(version, CloneSpec(v, k, spec), Labels("", Some(v), ""), Pending, [], false, false)
  }

  /** Meanwhile somebody asks for a clone of the volume under the snapshot's name. */
  lemma CloneWritten(r: Reached, s: State, n: nat, v: string, k: string, spec: VolumeInfo) returns (t: State)
    requires r(s, {}) && Rest(s, n) && Hist(s.server.vols, k) == [None]
    ensures r(t, {}) && t.nodes == s.nodes && t.server.snaps == s.server.snaps
    ensures Hist(t.server.vols, k) == [None, Some(CloneCR(v, k, spec, s.server.clock))]
  {
    var op := CreateVolumeOp(k, Some(v), [CloneSpec(v, k, spec)]);
    t := Enters(r, s, {}, n, op);
    var c;
    t, c := Reads(r, t, {}, n, Call(op, ProvGet(0), None, {}), 0);
    NobodyBefore(t, {}, k, Stored(t.server, Provisioned(c, op.plan[0])));
    t := Puts(r, t, {}, n, c, 0);
    ServedNew(s.server, k, CloneCR(v, k, spec, 0));
    assert [None] + [Some(CloneCR(v, k, spec, s.server.clock))] == [None, Some(CloneCR(v, k, spec, s.server.clock))];
  }

  /** The clone's agent takes the snapshot again. */
  lemma CloneTakesAgain(r: Reached, s: State, v: string, k: string, spec: VolumeInfo, cr: CR, clone: CR)
    returns (t: State)
    requires r(s, {}) && ReleasingSnap(s, v, k, spec, cr) && ValidProps(spec.userProperties)
    requires Hist(s.server.vols, k) == [None, Some(clone)] && clone == CloneCR(v, k, spec, clone.version)
    requires PosOf(s.nodes, VolumeSlot(spec, k)) == 0 && WorkOf(s.nodes, VolumeSlot(spec, k)) == Idle
    requires var disk := DiskOf(s.nodes, spec.ownerNodeID);
             Vol(spec.poolName, v) in disk && Snap(spec.poolName, v, k) !in disk
    ensures r(t, {}) && ReleasingSnap(t, v, k, spec, cr) && t.server == s.server
    ensures Snap(spec.poolName, v, k) in DiskOf(t.nodes, spec.ownerNodeID)
  {
    var slot, disk := VolumeSlot(spec, k), DiskOf(s.nodes, spec.ownerNodeID);
    t := AgentHears(r, s, k, CloneSpec(v, k, spec), clone);
    SnapAppearsIff(KVolume, disk, k, 1, clone, NO_FAULTS, Snap(spec.poolName, v, k));
    t := Acts(r, t, {}, slot, NO_FAULTS, SyncVolume(disk, k, 1, clone, NO_FAULTS));
  }

  lemma TakesIt(s: State, v: string, k: string, spec: VolumeInfo, cr: CR)
    requires ReleasingSnap(s, v, k, spec, cr)
    ensures TakesFinalizer(s, Slot(KSnapshot, spec.ownerNodeID, k))
  {
    var slot := Slot(KSnapshot, spec.ownerNodeID, k);
    var rq := Update(KSnapshot, k, Written(cr, spec.ownerNodeID, Release));
    assert RequestOf(s, Finish(slot, false)) == rq && Accepts(s.server, rq) && Stored(s.server, rq) == None;
    Served(s.server, rq, slot);
  }

  lemma SnapshotStands(r: Reached, v: string, k: string, spec: VolumeInfo, disk: Store) returns (s: State, cr: CR)
    requires r(Begun(spec.ownerNodeID, disk), {}) && v != k && Fresh(Begun(spec.ownerNodeID, disk), v, spec)
    requires Snap(spec.poolName, v, k) !in disk && !HasClone(disk, Snap(spec.poolName, v, k))
    ensures r(s, {}) && Rest(s, 2) && Kept(s, v, k, spec, cr)
    ensures Hist(s.server.vols, k) == [None]
    ensures PosOf(s.nodes, VolumeSlot(spec, k)) == 0 && WorkOf(s.nodes, VolumeSlot(spec, k)) == Idle
  {
    s := MakesSnapshotted(r, v, k, spec, disk);
    s := SnapshotMade(r, s, v, k, spec);
    s, cr := SnapshotKept(r, s, v, k, spec, DiskOf(s.nodes, spec.ownerNodeID));
  }

  /**
   * For every volume and snapshot there is a run, all of its listings truthful, in which the agent is
   * about to take the driver's finalizer off the snapshot while its dataset is on the node: a clone
   * of the volume under the snapshot's name has taken it again.
   */
  lemma ReleasedTooEarly(v: string, k: string, spec: VolumeInfo, disk: Store) returns (s: State)
    requires v != k && Fresh(Begun(spec.ownerNodeID, disk), v, spec)
    requires Snap(spec.poolName, v, k) !in disk && !HasClone(disk, Snap(spec.poolName, v, k))
    ensures Initial(Begun(spec.ownerNodeID, disk)) && Reach(Begun(spec.ownerNodeID, disk), s, {})
    ensures var slot := Slot(KSnapshot, spec.ownerNodeID, k);
            && TakesFinalizer(s, slot) && Cur(s.server.snaps, k).Some?
            && Target(slot, Cur(s.server.snaps, k).value) in DiskOf(s.nodes, spec.ownerNodeID)
  {
    var r := From(Begun(spec.ownerNodeID, disk));
    var kept;
    s, kept := SnapshotStands(r, v, k, spec, disk);
    var cr := Dying(kept, s.server.clock);
    s := SnapshotDeleted(r, s, v, k, spec, kept);
    s := SnapshotDestroyed(r, s, v, k, spec, kept, cr);
    var clone := CloneCR(v, k, spec, s.server.clock);
    s := CloneWritten(r, s, 2, v, k, spec);
    s := CloneTakesAgain(r, s, v, k, spec, cr, clone);
    TakesIt(s, v, k, spec, cr);
  }
}
