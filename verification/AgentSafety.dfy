/**
 * The node agents over whole runs, reading copies as old as their informers leave them: they
 * never take a user's finalizer, they give up the driver's own only once the dataset is gone,
 * and Ready means the dataset is there.
 */
module AgentSafety {
  import opened Base
  import opened Resource
  import opened UserProp
  import opened ZfsStore
  import opened Cluster
  import opened Consistency
  import opened DeleteSafety

  /** The dataset a resource stands for. */
  function Target(slot: Slot, cr: CR): Dataset {
    if slot.kind == KVolume then Vol(cr.spec.poolName, slot.name)
    else Snap(cr.spec.poolName, cr.labels.volume, slot.name)
  }

  // ---- what one sync does to the disk ---------------------------------------------------------

  lemma VolumeFrame(st: Store, name: string, at: nat, cr: CR, f: Faults, d: Dataset)
    requires d.Vol? ==> d.name != name
    requires d.Snap? ==> d.snapshot != name
    ensures var st' := SyncVolume(st, name, at, cr, f).store;
            && (d.Vol? ==> (d in st' <==> d in st))
            && (d.Snap? && d in st' ==> d in st)
  {
  }

  lemma SnapshotFrame(st: Store, name: string, at: nat, cr: CR, f: Faults, d: Dataset)
    requires d.Snap? ==> d.snapshot != name
    ensures var st' := SyncSnapshot(st, name, at, cr, f).store;
            && (d.Vol? ==> (d in st' <==> d in st))
            && (d.Snap? && d in st' ==> d in st)
  {
  }

  /** Working on `name`, an agent touches no other volume and makes no other snapshot. */
  lemma SyncFrame(kind: Kind, st: Store, name: string, at: nat, cr: CR, f: Faults, d: Dataset)
    requires d.Vol? ==> d.name != name || kind == KSnapshot
    requires d.Snap? ==> d.snapshot != name
    ensures var st' := SyncOf(kind, st, name, at, cr, f).store;
            && (d.Vol? ==> (d in st' <==> d in st))
            && (d.Snap? && d in st' ==> d in st)
  {
    if kind == KVolume { VolumeFrame(st, name, at, cr, f, d); } else { SnapshotFrame(st, name, at, cr, f, d); }
  }

  /** A volume is destroyed only on behalf of a terminating resource. */
  lemma SyncKeeps(st: Store, name: string, at: nat, cr: CR, f: Faults, pool: string)
    requires !cr.terminating && Vol(pool, name) in st
    ensures Vol(pool, name) in SyncOf(KVolume, st, name, at, cr, f).store
  {
  }

  /** What a worker has established when it comes to write. */
  ghost predicate Established(st: Store, slot: Slot, w: Work) {
    w.Commit? ==>
      && (w.verdict == Release ==> w.view.terminating && UserFinalizers(w.view.finalizers) == [])
      && (w.verdict != Release ==> !w.view.terminating)
      && (w.verdict == MarkReady && slot.kind == KVolume ==> Target(slot, w.view) in st)
  }

  lemma SyncEstablishes(kind: Kind, st: Store, node: string, name: string, at: nat, cr: CR, f: Faults)
    ensures var e := SyncOf(kind, st, name, at, cr, f);
            Established(e.store, Slot(kind, node, name), e.work)
            && (e.work != Idle ==> e.work.Commit? && e.work.view == cr && e.work.at == at)
  {
  }

  ghost predicate AgentInv(n: Nodes) {
    forall slot: Slot {:trigger WorkOf(n, slot)} :: Established(DiskOf(n, slot.node), slot, WorkOf(n, slot))
  }

  lemma AgentStep(s: State, step: Step)
    requires AgentInv(s.nodes)
    ensures AgentInv(NodesAfter(s, step))
  {
    var n, n' := s.nodes, NodesAfter(s, step);
    forall slot: Slot ensures Established(DiskOf(n', slot.node), slot, WorkOf(n', slot)) {
      assert Established(DiskOf(n, slot.node), slot, WorkOf(n, slot));
      if step.Act? && WorkOf(n, step.slot).Sync? {
        var st, w := DiskOf(n, step.slot.node), WorkOf(n, step.slot);
        if slot == step.slot {
          SyncEstablishes(slot.kind, st, slot.node, slot.name, w.at, w.view, step.faults);
        } else if slot.node == step.slot.node && WorkOf(n, slot).Commit? && slot.kind == KVolume {
          SyncFrame(step.slot.kind, st, step.slot.name, w.at, w.view, step.faults,
                    Target(slot, WorkOf(n, slot).view));
        }
      }
    }
  }

  // ---- user finalizers ------------------------------------------------------------------------

  lemma {:induction false} UserFinalizersConcat(a: seq<Finalizer>, b: seq<Finalizer>)
    ensures UserFinalizers(a + b) == UserFinalizers(a) + UserFinalizers(b)
  {
    if a == [] {
      assert a + b == b;
    } else {
      assert (a + b)[1..] == a[1..] + b;
      UserFinalizersConcat(a[1..], b);
    }
  }

  /** A step an agent takes, as opposed to the controller or the outside. */
  predicate ByAgent(step: Step) {
    step.Deliver? || step.Start? || step.Act? || step.Finish? || step.Crash?
  }

  ghost predicate Sound(s: State) { Safe(s) && AgentInv(s.nodes) }

  lemma {:induction false} SoundRun(s: State, steps: seq<Step>)
    requires Initial(s)
    ensures Sound(Run(s, steps))
  {
    if steps != [] {
      SoundRun(s, steps[..|steps| - 1]);
      SafeStep(Run(s, steps[..|steps| - 1]), steps[|steps| - 1]);
      AgentStep(Run(s, steps[..|steps| - 1]), steps[|steps| - 1]);
    }
  }

  lemma WrittenKeepsUsers(cr: CR, node: string, verdict: Verdict)
    requires verdict == Release ==> UserFinalizers(cr.finalizers) == []
    ensures UserFinalizers(Written(cr, node, verdict).finalizers) == UserFinalizers(cr.finalizers)
  {
    UserFinalizersConcat(cr.finalizers, [ZfsFinalizer]);
  }

  lemma StoredFinalizers(sv: Server, rq: Request)
    requires rq.Update? && Accepts(sv, rq)
    ensures FinalizersOf(Stored(sv, rq)) == rq.cr.finalizers
  {
  }

  lemma WriteKeepsUsers(s: State, step: Step)
    requires Sound(s) && ByAgent(step) && Accepts(s.server, RequestOf(s, step))
    ensures UserFinalizers(FinalizersOf(Stored(s.server, RequestOf(s, step))))
         == UserFinalizers(FinalizersOf(CurOf(s.server, step.slot.kind, step.slot.name)))
  {
    var w := WorkOf(s.nodes, step.slot);
    FreshCopy(s, step.slot);
    assert Established(DiskOf(s.nodes, step.slot.node), step.slot, w);
    WrittenKeepsUsers(w.view, step.slot.node, w.verdict);
    StoredFinalizers(s.server, RequestOf(s, step));
  }

  /** A request that keeps its own object's user finalizers keeps everybody's. */
  lemma ServeKeepsUsers(sv: Server, rq: Request, kind: Kind, name: string)
    requires Accepts(sv, rq) ==>
      UserFinalizers(FinalizersOf(Stored(sv, rq))) == UserFinalizers(FinalizersOf(CurOf(sv, rq.kind, rq.name)))
    ensures UserFinalizers(FinalizersOf(CurOf(Serve(sv, rq), kind, name)))
         == UserFinalizers(FinalizersOf(CurOf(sv, kind, name)))
  {
    ServedCur(sv, rq, kind, name);
  }

  /** All an agent sends is a worker's write. */
  lemma AgentRequest(s: State, step: Step)
    requires ByAgent(step) && RequestOf(s, step) != NoRequest
    ensures step.Finish? && RequestOf(s, step).Update?
    ensures RequestOf(s, step).kind == step.slot.kind && RequestOf(s, step).name == step.slot.name
  {
  }

  lemma KeepsUserFinalizers(s: State, step: Step, kind: Kind, name: string)
    requires Sound(s) && ByAgent(step)
    ensures UserFinalizers(FinalizersOf(CurOf(ServerAfter(s, step), kind, name)))
         == UserFinalizers(FinalizersOf(CurOf(s.server, kind, name)))
  {
    if Accepts(s.server, RequestOf(s, step)) {
      AgentRequest(s, step);
      WriteKeepsUsers(s, step);
    }
    ServeKeepsUsers(s.server, RequestOf(s, step), kind, name);
  }

  /** What an agent's write makes disappear was being deleted and had no finalizer left. */
  lemma VanishesUnheld(s: State, step: Step, kind: Kind, name: string)
    requires Sound(s) && ByAgent(step)
    requires UserFinalizers(FinalizersOf(CurOf(ServerAfter(s, step), kind, name)))
          == UserFinalizers(FinalizersOf(CurOf(s.server, kind, name)))
    ensures var before, after := CurOf(s.server, kind, name), CurOf(ServerAfter(s, step), kind, name);
            before.Some? && after.None? ==> before.value.terminating && UserFinalizers(before.value.finalizers) == []
  {
    var rq := RequestOf(s, step);
    ServedCur(s.server, rq, kind, name);
    if rq != NoRequest { AgentRequest(s, step); }
    assert UserFinalizers(FinalizersOf(None)) == [];
  }

  /**
   * In every run, with copies however stale: no step of an agent adds, drops or reorders a user's
   * finalizer of any resource, and a resource an agent makes disappear had none.
   */
  lemma AgentsKeepUserFinalizers(s0: State, steps: seq<Step>, step: Step, kind: Kind, name: string)
    requires Initial(s0) && ByAgent(step)
    ensures var s := Run(s0, steps);
            var before, after := CurOf(s.server, kind, name), CurOf(ServerAfter(s, step), kind, name);
            && UserFinalizers(FinalizersOf(after)) == UserFinalizers(FinalizersOf(before))
            && (before.Some? && after.None? ==>
                before.value.terminating && UserFinalizers(before.value.finalizers) == [])
  {
    SoundRun(s0, steps);
    KeepsUserFinalizers(Run(s0, steps), step, kind, name);
    VanishesUnheld(Run(s0, steps), step, kind, name);
  }

  // ---- giving up the driver's finalizer -------------------------------------------------------

  /**
   * DestroyVolume and DestroySnapshot report success with the dataset still there exactly when
   * `zfs list` failed on it: the failure is read as "already gone".
   */
  lemma ReleaseIffListed(kind: Kind, st: Store, node: string, name: string, at: nat, cr: CR, f: Faults)
    requires SyncOf(kind, st, name, at, cr, f).work == Commit(at, cr, Release)
    ensures var d := Target(Slot(kind, node, name), cr);
            d in SyncOf(kind, st, name, at, cr, f).store
            <==> d in st && (if kind == KVolume then f.volList else f.snapList)
  {
  }

  /** The syncs that make a snapshot dataset: of the snapshot itself, or of a volume clone of that name. */
  predicate MakesSnap(kind: Kind, st: Store, name: string, cr: CR, f: Faults, d: Dataset)
    requires d.Snap?
  {
    && !cr.terminating && ValidProps(cr.spec.userProperties)
    && d.pool == cr.spec.poolName && d.snapshot == name && Vol(d.pool, d.volume) in st && !f.snapCmd
    && (if kind == KSnapshot then cr.phase != Ready && cr.labels.volume == d.volume
        else !IsVolumeReady(cr) && cr.spec.snapName.SnapOf? && cr.labels.srcVolume == Some(d.volume))
  }

  lemma SnapAppearsIff(kind: Kind, st: Store, name: string, at: nat, cr: CR, f: Faults, d: Dataset)
    requires d.Snap? && d !in st
    ensures d in SyncOf(kind, st, name, at, cr, f).store <==> MakesSnap(kind, st, name, cr, f, d)
  {
  }

  /** `zfs list` does not fail on the dataset the worker asks about when it is there. */
  predicate TruthfulList(s: State, step: Step) {
    step.Act? && WorkOf(s.nodes, step.slot).Sync? ==>
      Target(step.slot, WorkOf(s.nodes, step.slot).view) in DiskOf(s.nodes, step.slot.node) ==>
        !(if step.slot.kind == KVolume then step.faults.volList else step.faults.snapList)
  }

  /** The worker is about to write that its dataset is gone. */
  predicate Releasing(n: Nodes, slot: Slot) { WorkOf(n, slot).Commit? && WorkOf(n, slot).verdict == Release }

  ghost predicate Gone(n: Nodes, slot: Slot) {
    Releasing(n, slot) ==> Target(slot, WorkOf(n, slot).view) !in DiskOf(n, slot.node)
  }

  /** While a snapshot is being released, the volume worker of the same name clones its volume. */
  predicate Recreates(s: State, step: Step, slot: Slot) {
    && slot.kind == KSnapshot && Releasing(s.nodes, slot)
    && step.Act? && step.slot == Slot(KVolume, slot.node, slot.name) && WorkOf(s.nodes, step.slot).Sync?
    && MakesSnap(KVolume, DiskOf(s.nodes, slot.node), slot.name, WorkOf(s.nodes, step.slot).view, step.faults,
                 Target(slot, WorkOf(s.nodes, slot).view))
  }

  lemma OwnActGone(s: State, step: Step)
    requires step.Act? && WorkOf(s.nodes, step.slot).Sync? && TruthfulList(s, step)
    ensures Gone(NodesAfter(s, step), step.slot)
  {
    var slot := step.slot;
    var st, w := DiskOf(s.nodes, slot.node), WorkOf(s.nodes, slot);
    SyncEstablishes(slot.kind, st, slot.node, slot.name, w.at, w.view, step.faults);
    if Releasing(NodesAfter(s, step), slot) {
      ReleaseIffListed(slot.kind, st, slot.node, slot.name, w.at, w.view, step.faults);
    }
  }

  /** Another worker brings back the dataset of one that is releasing exactly by recreating a snapshot. */
  lemma OtherActGoneIff(s: State, step: Step, slot: Slot)
    requires step.Act? && WorkOf(s.nodes, step.slot).Sync? && step.slot != slot
    requires Releasing(s.nodes, slot) && Gone(s.nodes, slot)
    ensures Gone(NodesAfter(s, step), slot) <==> !Recreates(s, step, slot)
  {
    var st, w := DiskOf(s.nodes, step.slot.node), WorkOf(s.nodes, step.slot);
    var d := Target(slot, WorkOf(s.nodes, slot).view);
    if slot.node == step.slot.node {
      if slot.kind == KVolume {
        SyncFrame(step.slot.kind, st, step.slot.name, w.at, w.view, step.faults, d);
      } else {
        SnapAppearsIff(step.slot.kind, st, step.slot.name, w.at, w.view, step.faults, d);
      }
    }
  }

  lemma GoneStep(s: State, step: Step, slot: Slot)
    requires Gone(s.nodes, slot) && (step.Act? && step.slot == slot ==> TruthfulList(s, step))
    requires !Recreates(s, step, slot)
    ensures Gone(NodesAfter(s, step), slot)
  {
    if step.Act? && WorkOf(s.nodes, step.slot).Sync? {
      if step.slot == slot { OwnActGone(s, step); }
      else if Releasing(s.nodes, slot) { OtherActGoneIff(s, step, slot); }
    }
  }

  /** The slot's own listings are truthful. */
  ghost predicate TruthfulRun(s: State, steps: seq<Step>, slot: Slot) {
    forall i :: 0 <= i < |steps| && steps[i].Act? && steps[i].slot == slot ==>
        TruthfulList(Run(s, steps[..i]), steps[i])
  }

  ghost predicate UncontestedRun(s: State, steps: seq<Step>, slot: Slot) {
    forall i :: 0 <= i < |steps| ==> !Recreates(Run(s, steps[..i]), steps[i], slot)
  }

  lemma RunPrefixes(s: State, steps: seq<Step>, slot: Slot)
    requires steps != [] && TruthfulRun(s, steps, slot) && UncontestedRun(s, steps, slot)
    ensures TruthfulRun(s, steps[..|steps| - 1], slot) && UncontestedRun(s, steps[..|steps| - 1], slot)
  {
    var before := steps[..|steps| - 1];
    forall i | 0 <= i < |before| ensures before[..i] == steps[..i] {
    }
  }

  lemma {:induction false} GoneRun(s: State, steps: seq<Step>, slot: Slot)
    requires Initial(s) && TruthfulRun(s, steps, slot) && UncontestedRun(s, steps, slot)
    ensures Gone(Run(s, steps).nodes, slot)
  {
    if steps != [] {
      var k := |steps| - 1;
      RunPrefixes(s, steps, slot);
      GoneRun(s, steps[..k], slot);
      assert !Recreates(Run(s, steps[..k]), steps[k], slot);
      GoneStep(Run(s, steps[..k]), steps[k], slot);
    }
  }

  lemma VolumesUncontested(s: State, steps: seq<Step>, slot: Slot)
    requires slot.kind == KVolume
    ensures UncontestedRun(s, steps, slot)
  {
  }

  /** The write takes the driver's finalizer off the resource. */
  ghost predicate TakesFinalizer(s: State, slot: Slot) {
    && ZfsFinalizer in FinalizersOf(CurOf(s.server, slot.kind, slot.name))
    && ZfsFinalizer !in FinalizersOf(CurOf(ServerAfter(s, Finish(slot, false)), slot.kind, slot.name))
  }

  lemma ReleasedWhenGone(s: State, slot: Slot)
    requires Sound(s) && Gone(s.nodes, slot) && TakesFinalizer(s, slot)
    ensures Target(slot, CurOf(s.server, slot.kind, slot.name).value) !in DiskOf(s.nodes, slot.node)
  {
    var rq := RequestOf(s, Finish(slot, false));
    Served(s.server, rq, slot);
    if Accepts(s.server, rq) {
      FreshCopy(s, slot);
      StoredFinalizers(s.server, rq);
    }
  }

  /**
   * In every run in which a volume's own listings are truthful, whatever the other workers meet:
   * when its agent's write takes the driver's finalizer off it, its dataset is not on the node.
   */
  lemma VolumeReleasedWhenGone(s0: State, steps: seq<Step>, slot: Slot)
    requires Initial(s0) && slot.kind == KVolume && TruthfulRun(s0, steps, slot) && TakesFinalizer(Run(s0, steps), slot)
    ensures Target(slot, CurOf(Run(s0, steps).server, KVolume, slot.name).value)
      !in DiskOf(Run(s0, steps).nodes, slot.node)
  {
    SoundRun(s0, steps);
    VolumesUncontested(s0, steps, slot);
    GoneRun(s0, steps, slot);
    ReleasedWhenGone(Run(s0, steps), slot);
  }

  /** The same for a snapshot, as long as no volume clone of its name takes the snapshot again meanwhile. */
  lemma SnapshotReleasedWhenGone(s0: State, steps: seq<Step>, slot: Slot)
    requires Initial(s0) && slot.kind == KSnapshot && TruthfulRun(s0, steps, slot) && UncontestedRun(s0, steps, slot)
    requires TakesFinalizer(Run(s0, steps), slot)
    ensures Target(slot, CurOf(Run(s0, steps).server, KSnapshot, slot.name).value)
      !in DiskOf(Run(s0, steps).nodes, slot.node)
  {
    SoundRun(s0, steps);
    GoneRun(s0, steps, slot);
    ReleasedWhenGone(Run(s0, steps), slot);
  }
}
