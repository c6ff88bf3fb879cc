/**
 * When a node may act on a volume: event handlers enqueue only for versions the node owns, but a
 * worker reads whatever version its informer has by then. If a node is settled whenever it loses a
 * volume, and whenever one is created for another, its worker only ever reads versions the node owns;
 * and if it is not settled, its worker can be led to read the other's.
 */
module OwnerDrain {
  import opened Base
  import opened Resource
  import opened Api
  import opened UserProp
  import opened Argv
  import opened ZfsStore
  import opened Cluster
  import opened AgentSafety
  import opened Readiness

  // ---- one node's view of one volume's history --------------------------------------------------

  predicate Owns(o: Option<CR>, node: string) { o.Some? && o.value.spec.ownerNodeID == node }

  predicate OwnedBy(o: Option<CR>, node: string) { o.Some? ==> o.value.spec.ownerNodeID == node }

  /**
   * The event handlers' filters, for an informer that replaces what it holds: an object of this
   * node's is added; or updated, if properties change, it is being deleted or it is Pending; or one
   * it held goes.
   */
  predicate Notifies(held: Option<CR>, seen: Option<CR>, node: string) {
    if seen.None? then Owns(held, node)
    else
      && Owns(seen, node)
      && (|| held.None? || PropertyChanged(held.value.spec, seen.value.spec)
          || seen.value.terminating || seen.value.phase == Pending)
  }

  /**
   * From here on no event queues the key while a version the node does not own is still to come; and
   * while the node is busy, it owns every version from here on.
   */
  ghost predicate Tidy(h: History, pos: nat, busy: bool, node: string)
    requires pos < |h|
  {
    && (forall i, j, k :: pos <= i <= j <= k < |h| && Notifies(h[i], h[j], node) ==> OwnedBy(h[k], node))
    && (busy ==> forall k :: pos <= k < |h| ==> OwnedBy(h[k], node))
  }

  /** The node is not busy, and no event or resync still to come queues the key. */
  ghost predicate Settled(h: History, pos: nat, busy: bool, node: string)
    requires pos < |h|
  {
    !busy && forall i, j :: pos <= i <= j < |h| ==> !Notifies(h[i], h[j], node)
  }

  lemma TidyPublish(h: History, pos: nat, busy: bool, node: string, o: Option<CR>)
    requires pos < |h| && Tidy(h, pos, busy, node)
    requires !OwnedBy(o, node) ==> Settled(h, pos, busy, node)
    ensures Tidy(h + [o], pos, busy, node)
  {
  }

  lemma SettledPublish(h: History, pos: nat, node: string, o: Option<CR>)
    requires pos < |h| && Settled(h, pos, false, node) && !OwnedBy(o, node)
    ensures Settled(h + [o], pos, false, node)
  {
  }

  /**
   * An informer that stands at one version comes to another, or is resynced where it stands; or the
   * agent has started anew and lists the current version, holding none.
   */
  ghost predicate EventEnqueues(h: History, pos: nat, to: nat, node: string)
    requires pos <= to < |h|
  {
    Notifies(h[pos], h[to], node) || (to == |h| - 1 && Owns(h[to], node))
  }

  lemma TidyDeliver(h: History, pos: nat, to: nat, busy: bool, node: string, enqueued: bool)
    requires pos <= to < |h| && Tidy(h, pos, busy, node)
    requires enqueued ==> EventEnqueues(h, pos, to, node)
    ensures Tidy(h, to, busy || enqueued, node)
  {
  }

  // ---- queues ----------------------------------------------------------------------------------------

  /** addZV, updateZV and deleteZV queue the key. */
  ghost predicate Enqueues(s: State, step: Step, slot: Slot) {
    && step.Deliver? && step.slot == slot
    && PosOf(s.nodes, slot) <= step.to < |HistOf(s.server, slot)|
    && EventEnqueues(HistOf(s.server, slot), PosOf(s.nodes, slot), step.to, slot.node)
  }

  /** syncZV returns an error before it has anything to write. */
  predicate SyncFails(st: Store, name: string, zv: CR, f: Faults) {
    if zv.terminating then
      UserFinalizers(zv.finalizers) != [] || !DestroyVolume(st, zv.spec, zv.labels.srcVolume, name, f).ok
    else !ValidProps(zv.spec.userProperties) || (IsVolumeReady(zv) && !SetVolumeProp(st, zv.spec, name, f).ok)
  }

  /** A worker whose reconcile or write fails puts the key back. */
  ghost predicate Requeues(s: State, step: Step, slot: Slot) {
    var w := WorkOf(s.nodes, slot);
    || (step.Act? && step.slot == slot && w.Sync? && !step.crash
        && SyncFails(DiskOf(s.nodes, slot.node), slot.name, w.view, step.faults))
    || (step.Finish? && step.slot == slot && w.Commit? && (step.fails || !Accepts(s.server, RequestOf(s, step))))
  }

  predicate Stays(step: Step, slot: Slot) { step != Start(slot) && step != Crash(slot.node) }

  /**
   * The volumes' keys that are queued, or whose event is on its way to the queue: they enter through
   * an event or a failed worker, and stay until a worker takes them or the agent crashes.
   */
  ghost predicate QueueStep(s: State, step: Step, q: set<Slot>, q': set<Slot>) {
    && (forall slot :: slot in q' && slot.kind == KVolume ==>
          (slot in q && Stays(step, slot)) || Enqueues(s, step, slot) || Requeues(s, step, slot))
    && (forall slot :: slot in q && Stays(step, slot) ==> slot in q')
    && (forall slot: Slot {:trigger Requeues(s, step, slot)} ::
          slot.kind == KVolume && Requeues(s, step, slot) ==> slot in q')
    && (step.Start? && step.slot.kind == KVolume ==> step.slot in q)
  }

  /** No refused write is forgotten: one that fails, or from a copy that is out of date, puts the key back. */
  lemma RefusedIsRetried(s: State, slot: Slot, fails: bool, q: set<Slot>, q': set<Slot>)
    requires slot.kind == KVolume && WorkOf(s.nodes, slot).Commit? && QueueStep(s, Finish(slot, fails), q, q')
    requires var cur := Cur(s.server.vols, slot.name);
             fails || cur.None? || cur.value.version != WorkOf(s.nodes, slot).view.version
    ensures slot in q'
  {
    assert Requeues(s, Finish(slot, fails), slot);
  }

  /** Nor is a reconcile that users hold up, that is invalid, or whose commands fail. */
  lemma FailedIsRetried(s: State, slot: Slot, f: Faults, q: set<Slot>, q': set<Slot>)
    requires slot.kind == KVolume && WorkOf(s.nodes, slot).Sync? && QueueStep(s, Act(slot, f, false), q, q')
    requires var zv := WorkOf(s.nodes, slot).view;
             || (zv.terminating && WorkOf(NodesAfter(s, Act(slot, f, false)), slot) == Idle)
             || (!zv.terminating && !ValidProps(zv.spec.userProperties))
             || (!zv.terminating && IsVolumeReady(zv) && !NothingToSet(zv.spec)
                 && (f.volCmd || Vol(zv.spec.poolName, slot.name) !in DiskOf(s.nodes, slot.node)))
    ensures slot in q'
  {
    assert Requeues(s, Act(slot, f, false), slot);
  }

  /** A worker that may yet fail; only one that has no property to set on a Ready volume may not. */
  predicate MayFail(w: Work) {
    || w.Commit?
    || (w.Sync? && (w.view.terminating || !ValidProps(w.view.spec.userProperties) || !IsVolumeReady(w.view)
                    || !NothingToSet(w.view.spec)))
  }

  ghost predicate Busy(n: Nodes, q: set<Slot>, slot: Slot) { slot in q || MayFail(WorkOf(n, slot)) }

  ghost predicate SettledSlot(s: State, q: set<Slot>, slot: Slot) {
    && PosOf(s.nodes, slot) < |HistOf(s.server, slot)|
    && Settled(HistOf(s.server, slot), PosOf(s.nodes, slot), Busy(s.nodes, q, slot), slot.node)
  }

  /** The step gives the volume a version that another node owns. */
  ghost predicate GivesAway(s: State, step: Step, slot: Slot) {
    && slot.kind == KVolume && Hist(ServerAfter(s, step).vols, slot.name) != Hist(s.server.vols, slot.name)
    && !OwnedBy(Cur(ServerAfter(s, step).vols, slot.name), slot.node)
  }

  /** The volume goes from this node to another, or comes into being for another. */
  ghost predicate Loses(s: State, step: Step, slot: Slot) {
    GivesAway(s, step, slot) && OwnedBy(Cur(s.server.vols, slot.name), slot.node)
  }

  ghost predicate SettledStep(s: State, step: Step, q: set<Slot>) {
    forall slot :: Loses(s, step, slot) ==> SettledSlot(s, q, slot)
  }

  /** A run with its queues: `queues[i]` is what is queued before step i. */
  ghost predicate QueuedRun(s: State, steps: seq<Step>, queues: seq<set<Slot>>) {
    && |queues| == |steps| + 1
    && forall i :: 0 <= i < |steps| ==> QueueStep(Run(s, steps[..i]), steps[i], queues[i], queues[i + 1])
  }

  ghost predicate SettledRun(s: State, steps: seq<Step>, queues: seq<set<Slot>>) {
    && QueuedRun(s, steps, queues)
    && forall i :: 0 <= i < |steps| ==> SettledStep(Run(s, steps[..i]), steps[i], queues[i])
  }

  // ---- the invariant ------------------------------------------------------------------------------------

  ghost predicate TidySlot(sv: Server, n: Nodes, q: set<Slot>, slot: Slot) {
    slot.kind == KVolume ==>
      && PosOf(n, slot) < |HistOf(sv, slot)|
      && Tidy(HistOf(sv, slot), PosOf(n, slot), Busy(n, q, slot), slot.node)
      && (WorkOf(n, slot) != Idle ==> WorkOf(n, slot).view.spec.ownerNodeID == slot.node)
  }

  /** And while the current version is another node's, this node is settled. */
  ghost predicate SafeSlot(sv: Server, n: Nodes, q: set<Slot>, slot: Slot) {
    && TidySlot(sv, n, q, slot)
    && (slot.kind == KVolume && !OwnedBy(Cur(sv.vols, slot.name), slot.node) ==>
          Settled(HistOf(sv, slot), PosOf(n, slot), Busy(n, q, slot), slot.node))
  }

  /** A worker takes up the version its informer stands at; its copy does not change after that. */
  lemma WorkKept(s: State, step: Step, slot: Slot)
    ensures var w, w' := WorkOf(s.nodes, slot), WorkOf(NodesAfter(s, step), slot);
            || w' == Idle || w' == w
            || (w.Sync? && w'.Commit? && w'.view == w.view && step.Act? && step.slot == slot)
            || (w == Idle && step == Start(slot) && PosOf(s.nodes, slot) < |HistOf(s.server, slot)|
                && HistOf(s.server, slot)[PosOf(s.nodes, slot)] == Some(w'.view))
    ensures !step.Deliver? || step.slot != slot ==> PosOf(NodesAfter(s, step), slot) == PosOf(s.nodes, slot)
  {
    if step.Act? && step.slot == slot && WorkOf(s.nodes, slot).Sync? {
      var w := WorkOf(s.nodes, slot);
      SyncEstablishes(slot.kind, DiskOf(s.nodes, slot.node), slot.node, slot.name, w.at, w.view, step.faults);
    }
  }

  /** A reconcile that may not fail does not, and has nothing to write. */
  lemma CannotFail(st: Store, name: string, at: nat, zv: CR, f: Faults)
    requires !MayFail(Sync(at, zv))
    ensures !SyncFails(st, name, zv, f) && SyncVolume(st, name, at, zv, f).work == Idle
  {
  }

  /** A node becomes busy through an event only. */
  lemma BusyAfter(s: State, step: Step, q: set<Slot>, q': set<Slot>, slot: Slot)
    requires slot.kind == KVolume && QueueStep(s, step, q, q') && Busy(NodesAfter(s, step), q', slot)
    ensures Busy(s.nodes, q, slot) || Enqueues(s, step, slot)
  {
    var w := WorkOf(s.nodes, slot);
    WorkKept(s, step, slot);
    if w.Sync? && !MayFail(w) && step.Act? && step.slot == slot {
      CannotFail(DiskOf(s.nodes, slot.node), slot.name, w.at, w.view, step.faults);
    }
  }

  lemma TidyNodes(s: State, step: Step, q: set<Slot>, q': set<Slot>, slot: Slot)
    requires slot.kind == KVolume && TidySlot(s.server, s.nodes, q, slot) && QueueStep(s, step, q, q')
    ensures TidySlot(s.server, NodesAfter(s, step), q', slot)
  {
    var n, n', h := s.nodes, NodesAfter(s, step), HistOf(s.server, slot);
    var busy, busy' := Busy(n, q, slot), Busy(n', q', slot);
    if busy' { BusyAfter(s, step, q, q', slot); }
    if step.Deliver? && step.slot == slot && PosOf(n, slot) <= step.to < |h| {
      TidyDeliver(h, PosOf(n, slot), step.to, busy, slot.node, Enqueues(s, step, slot));
    }
    WorkKept(s, step, slot);
  }

  lemma SettledNodes(s: State, step: Step, q: set<Slot>, q': set<Slot>, slot: Slot)
    requires slot.kind == KVolume && SettledSlot(s, q, slot) && QueueStep(s, step, q, q')
    requires !step.Deliver? || !OwnedBy(Cur(s.server.vols, slot.name), slot.node)
    ensures var pos := PosOf(NodesAfter(s, step), slot);
            && pos < |HistOf(s.server, slot)|
            && Settled(HistOf(s.server, slot), pos, Busy(NodesAfter(s, step), q', slot), slot.node)
  {
    WorkKept(s, step, slot);
    if Busy(NodesAfter(s, step), q', slot) { BusyAfter(s, step, q, q', slot); }
  }

  lemma TidyServer(s: State, step: Step, n': Nodes, q': set<Slot>, slot: Slot)
    requires slot.kind == KVolume && TidySlot(s.server, n', q', slot)
    requires GivesAway(s, step, slot) ==>
      Settled(HistOf(s.server, slot), PosOf(n', slot), Busy(n', q', slot), slot.node)
    ensures TidySlot(ServerAfter(s, step), n', q', slot)
    ensures GivesAway(s, step, slot) ==>
      Settled(HistOf(ServerAfter(s, step), slot), PosOf(n', slot), Busy(n', q', slot), slot.node)
  {
    OneVersion(s.server, RequestOf(s, step), slot.name);
    if HistOf(ServerAfter(s, step), slot) != HistOf(s.server, slot) {
      var h, o := HistOf(s.server, slot), Cur(ServerAfter(s, step).vols, slot.name);
      TidyPublish(h, PosOf(n', slot), Busy(n', q', slot), slot.node, o);
      if GivesAway(s, step, slot) { SettledPublish(h, PosOf(n', slot), slot.node, o); }
    }
  }

  lemma TidyStep(s: State, step: Step, q: set<Slot>, q': set<Slot>, slot: Slot)
    requires TidySlot(s.server, s.nodes, q, slot) && QueueStep(s, step, q, q')
    requires GivesAway(s, step, slot) ==> SettledSlot(s, q, slot)
    ensures TidySlot(ServerAfter(s, step), NodesAfter(s, step), q', slot)
    ensures GivesAway(s, step, slot) ==> SettledSlot(Apply(s, step), q', slot)
  {
    if slot.kind == KVolume {
      TidyNodes(s, step, q, q', slot);
      if GivesAway(s, step, slot) { SettledNodes(s, step, q, q', slot); }
      TidyServer(s, step, NodesAfter(s, step), q', slot);
    }
  }

  /** Once settled, a node stays so while another owns the volume. */
  lemma SafeStep(s: State, step: Step, q: set<Slot>, q': set<Slot>, slot: Slot)
    requires SafeSlot(s.server, s.nodes, q, slot) && QueueStep(s, step, q, q')
    requires Loses(s, step, slot) ==> SettledSlot(s, q, slot)
    ensures SafeSlot(ServerAfter(s, step), NodesAfter(s, step), q', slot)
  {
    TidyStep(s, step, q, q', slot);
    if slot.kind == KVolume && !OwnedBy(Cur(ServerAfter(s, step).vols, slot.name), slot.node) {
      if !GivesAway(s, step, slot) { SettledNodes(s, step, q, q', slot); }
    }
  }

  lemma {:induction false} SafeRun(s: State, steps: seq<Step>, queues: seq<set<Slot>>, slot: Slot)
    requires SettledRun(s, steps, queues) && SafeSlot(s.server, s.nodes, queues[0], slot)
    ensures SafeSlot(Run(s, steps).server, Run(s, steps).nodes, queues[|steps|], slot)
  {
    if steps != [] {
      var k := |steps| - 1;
      SettledPrefix(s, steps, queues, k);
      SafeRun(s, steps[..k], queues[..k + 1], slot);
      assert SettledStep(Run(s, steps[..k]), steps[k], queues[k]);
      SafeStep(Run(s, steps[..k]), steps[k], queues[k], queues[k + 1], slot);
    }
  }

  lemma SettledPrefix(s: State, steps: seq<Step>, queues: seq<set<Slot>>, k: nat)
    requires SettledRun(s, steps, queues) && k <= |steps|
    ensures SettledRun(s, steps[..k], queues[..k + 1])
  {
    forall i | 0 <= i < k
      ensures QueueStep(Run(s, steps[..k][..i]), steps[..k][i], queues[..k + 1][i], queues[..k + 1][i + 1])
           && SettledStep(Run(s, steps[..k][..i]), steps[..k][i], queues[..k + 1][i])
    {
      assert steps[..k][..i] == steps[..i];
    }
  }

  lemma InitiallySafe(s: State, slot: Slot)
    requires Initial(s)
    ensures SafeSlot(s.server, s.nodes, {}, slot)
  {
  }

  /** Settled owner changes are enough: no worker then writes for a volume another node owns. */
  lemma SettledIsOwned(s: State, steps: seq<Step>, queues: seq<set<Slot>>)
    requires Initial(s) && SettledRun(s, steps, queues) && queues[0] == {}
    ensures OwnedRun(s, steps)
  {
    forall i | 0 <= i < |steps| ensures OwnerMarks(Run(s, steps[..i]), steps[i]) {
      if steps[i].Finish? {
        SettledPrefix(s, steps, queues, i);
        InitiallySafe(s, steps[i].slot);
        SafeRun(s, steps[..i], queues[..i + 1], steps[i].slot);
      }
    }
  }

  /**
   * In every run, with stale informers, crashes and failures, in which every other node is settled
   * when a volume is given to a node: a volume that is Ready and not being deleted has its dataset
   * in its PoolName on its OwnerNodeID.
   */
  lemma SettledReadyIsOnOwner(s0: State, steps: seq<Step>, queues: seq<set<Slot>>, v: string)
    requires Initial(s0) && SettledRun(s0, steps, queues) && queues[0] == {} && Live(Run(s0, steps).server, v)
    ensures var cr := Cur(Run(s0, steps).server.vols, v).value;
            Vol(cr.spec.poolName, v) in DiskOf(Run(s0, steps).nodes, cr.spec.ownerNodeID)
  {
    SettledIsOwned(s0, steps, queues);
    ReadyIsOnOwner(s0, steps, v);
  }

  /**
   * The node has seen everything, has nothing queued, no worker that may fail, and holds no version of
   * its own that a resync would queue again.
   */
  ghost predicate Drained(s: State, q: set<Slot>, slot: Slot) {
    && !Busy(s.nodes, q, slot) && PosOf(s.nodes, slot) == |HistOf(s.server, slot)| - 1
    && !Notifies(CurOf(s.server, slot.kind, slot.name), CurOf(s.server, slot.kind, slot.name), slot.node)
  }

  ghost predicate DrainedStep(s: State, step: Step, q: set<Slot>) {
    forall slot :: Loses(s, step, slot) ==> Drained(s, q, slot)
  }

  lemma DrainedIsSettled(s: State, q: set<Slot>, slot: Slot)
    requires Drained(s, q, slot)
    ensures SettledSlot(s, q, slot)
  {
  }

  /**
   * In particular, draining is enough: of the key on the node a volume is taken from, before another
   * gets it, and on every other node before a volume is created.
   */
  lemma DrainedReadyIsOnOwner(s0: State, steps: seq<Step>, queues: seq<set<Slot>>, v: string)
    requires Initial(s0) && QueuedRun(s0, steps, queues) && queues[0] == {} && Live(Run(s0, steps).server, v)
    requires forall i :: 0 <= i < |steps| ==> DrainedStep(Run(s0, steps[..i]), steps[i], queues[i])
    ensures var cr := Cur(Run(s0, steps).server.vols, v).value;
            Vol(cr.spec.poolName, v) in DiskOf(Run(s0, steps).nodes, cr.spec.ownerNodeID)
  {
    forall i | 0 <= i < |steps| ensures SettledStep(Run(s0, steps[..i]), steps[i], queues[i]) {
      var s := Run(s0, steps[..i]);
      assert DrainedStep(s, steps[i], queues[i]);
      forall slot | Loses(s, steps[i], slot) ensures SettledSlot(s, queues[i], slot) {
        DrainedIsSettled(s, queues[i], slot);
      }
    }
    SettledReadyIsOnOwner(s0, steps, queues, v);
  }

  // ---- and no less will do ---------------------------------------------------------------------------------

  /** The volume's history does not grow in this run. */
  ghost predicate StillRun(s: State, steps: seq<Step>, v: string) {
    forall i :: 0 <= i < |steps| ==>
        Hist(ServerAfter(Run(s, steps[..i]), steps[i]).vols, v) == Hist(Run(s, steps[..i]).server.vols, v)
  }

  predicate Misreading(n: Nodes, slot: Slot) {
    WorkOf(n, slot) != Idle && WorkOf(n, slot).view.spec.ownerNodeID != slot.node
  }

  /** Without another version being written, the node's worker can come to read one it does not own. */
  ghost predicate CanMisread(s: State, q: set<Slot>, slot: Slot) {
    exists steps, queues :: Misreads(s, q, slot, steps, queues)
  }

  ghost predicate Misreads(s: State, q: set<Slot>, slot: Slot, steps: seq<Step>, queues: seq<set<Slot>>) {
    && QueuedRun(s, steps, queues) && queues[0] == q && StillRun(s, steps, slot.name)
    && Misreading(Run(s, steps).nodes, slot)
  }

  lemma {:induction false} RunCons(s: State, step: Step, steps: seq<Step>)
    ensures Run(s, [step] + steps) == Run(Apply(s, step), steps)
  {
    var all := [step] + steps;
    if steps == [] {
      assert all == [step] && all[..0] == [];
    } else {
      var k := |steps| - 1;
      assert all[..|all| - 1] == [step] + steps[..k];
      RunCons(s, step, steps[..k]);
    }
  }

  lemma LaterStep(s: State, step: Step, steps: seq<Step>, i: nat)
    requires 0 < i <= |steps|
    ensures Run(s, ([step] + steps)[..i]) == Run(Apply(s, step), steps[..i - 1])
  {
    assert ([step] + steps)[..i] == [step] + steps[..i - 1];
    RunCons(s, step, steps[..i - 1]);
  }

  lemma QueuedCons(s: State, q: set<Slot>, step: Step, steps: seq<Step>, queues: seq<set<Slot>>)
    requires QueuedRun(Apply(s, step), steps, queues) && QueueStep(s, step, q, queues[0])
    ensures QueuedRun(s, [step] + steps, [q] + queues)
  {
    var all, qs := [step] + steps, [q] + queues;
    forall i | 0 <= i < |all| ensures QueueStep(Run(s, all[..i]), all[i], qs[i], qs[i + 1]) {
      if i > 0 { LaterStep(s, step, steps, i); } else { assert all[..0] == []; }
    }
  }

  lemma StillCons(s: State, step: Step, steps: seq<Step>, v: string)
    requires StillRun(Apply(s, step), steps, v) && ServerAfter(s, step) == s.server
    ensures StillRun(s, [step] + steps, v)
  {
    var all := [step] + steps;
    forall i | 0 <= i < |all|
      ensures Hist(ServerAfter(Run(s, all[..i]), all[i]).vols, v) == Hist(Run(s, all[..i]).server.vols, v)
    {
      if i > 0 { LaterStep(s, step, steps, i); } else { assert all[..0] == []; }
    }
  }

  /** One step that writes no version of the volume, then a misreading. */
  lemma MisreadsLater(s: State, q: set<Slot>, step: Step, q': set<Slot>, slot: Slot)
    requires QueueStep(s, step, q, q') && ServerAfter(s, step) == s.server && CanMisread(Apply(s, step), q', slot)
    ensures CanMisread(s, q, slot)
  {
    var steps, queues :| Misreads(Apply(s, step), q', slot, steps, queues);
    RunCons(s, step, steps);
    QueuedCons(s, q, step, steps, queues);
    StillCons(s, step, steps, slot.name);
    assert Misreads(s, q, slot, [step] + steps, [q] + queues);
  }

  lemma MisreadsNow(s: State, q: set<Slot>, slot: Slot)
    requires Misreading(s.nodes, slot)
    ensures CanMisread(s, q, slot)
  {
    assert Misreads(s, q, slot, [], [q]);
  }

  lemma QueueDelivered(s: State, q: set<Slot>, slot: Slot, to: nat)
    ensures QueueStep(s, Deliver(slot, to), q, q)
    ensures Enqueues(s, Deliver(slot, to), slot) ==> QueueStep(s, Deliver(slot, to), q, q + {slot})
  {
  }

  lemma QueueTaken(s: State, q: set<Slot>, slot: Slot)
    requires slot in q
    ensures QueueStep(s, Start(slot), q, q - {slot})
  {
  }

  lemma QueueFailed(s: State, q: set<Slot>, slot: Slot)
    requires WorkOf(s.nodes, slot).Commit?
    ensures QueueStep(s, Finish(slot, true), q, q + {slot})
  {
  }

  lemma QueueActed(s: State, q: set<Slot>, slot: Slot, f: Faults)
    requires WorkOf(s.nodes, slot).Sync?
    ensures var fails := SyncFails(DiskOf(s.nodes, slot.node), slot.name, WorkOf(s.nodes, slot).view, f);
            QueueStep(s, Act(slot, f, false), q, if fails then q + {slot} else q)
  {
  }

  /** The node can still be told of the current version, which it does not own. */
  ghost predicate Foreign(s: State, slot: Slot) {
    && slot.kind == KVolume && PosOf(s.nodes, slot) < |HistOf(s.server, slot)|
    && !OwnedBy(Cur(s.server.vols, slot.name), slot.node)
  }

  /** An idle worker whose informer has come to the latest version takes the key. */
  lemma ReadsForeign(s: State, q: set<Slot>, slot: Slot)
    requires Foreign(s, slot) && slot in q && WorkOf(s.nodes, slot) == Idle
    requires PosOf(s.nodes, slot) == |HistOf(s.server, slot)| - 1
    ensures CanMisread(s, q, slot)
  {
    QueueTaken(s, q, slot);
    MisreadsNow(Apply(s, Start(slot)), q - {slot}, slot);
    MisreadsLater(s, q, Start(slot), q - {slot}, slot);
  }

  lemma IdleMisreads(s: State, q: set<Slot>, slot: Slot)
    requires Foreign(s, slot) && slot in q && WorkOf(s.nodes, slot) == Idle
    ensures CanMisread(s, q, slot)
  {
    var step := Deliver(slot, |HistOf(s.server, slot)| - 1);
    QueueDelivered(s, q, slot, step.to);
    ReadsForeign(Apply(s, step), q, slot);
    MisreadsLater(s, q, step, q, slot);
  }

  /** A worker that fails to write puts its key back. */
  lemma CommitMisreads(s: State, q: set<Slot>, slot: Slot)
    requires Foreign(s, slot) && WorkOf(s.nodes, slot).Commit?
    ensures CanMisread(s, q, slot)
  {
    QueueFailed(s, q, slot);
    IdleMisreads(Apply(s, Finish(slot, true)), q + {slot}, slot);
    MisreadsLater(s, q, Finish(slot, true), q + {slot}, slot);
  }

  lemma ActMoves(s: State, slot: Slot, f: Faults)
    requires slot.kind == KVolume && WorkOf(s.nodes, slot).Sync?
    ensures var s', w := Apply(s, Act(slot, f, false)), WorkOf(s.nodes, slot);
            && s'.server == s.server && PosOf(s'.nodes, slot) == PosOf(s.nodes, slot)
            && WorkOf(s'.nodes, slot) == SyncVolume(DiskOf(s.nodes, slot.node), slot.name, w.at, w.view, f).work
            && (WorkOf(s'.nodes, slot) == Idle || WorkOf(s'.nodes, slot).Commit?)
  {
  }

  /** A reconcile that ends with the key queued, or with something to write. */
  lemma SyncMisreads(s: State, q: set<Slot>, slot: Slot, f: Faults)
    requires Foreign(s, slot) && WorkOf(s.nodes, slot).Sync?
    requires var st, w := DiskOf(s.nodes, slot.node), WorkOf(s.nodes, slot);
             slot in q || SyncFails(st, slot.name, w.view, f) || SyncVolume(st, slot.name, w.at, w.view, f).work != Idle
    ensures CanMisread(s, q, slot)
  {
    var st, w := DiskOf(s.nodes, slot.node), WorkOf(s.nodes, slot);
    var act, q' := Act(slot, f, false), if SyncFails(st, slot.name, w.view, f) then q + {slot} else q;
    QueueActed(s, q, slot, f);
    ActMoves(s, slot, f);
    if WorkOf(Apply(s, act).nodes, slot) == Idle { IdleMisreads(Apply(s, act), q', slot); }
    else { CommitMisreads(Apply(s, act), q', slot); }
    MisreadsLater(s, q, act, q', slot);
  }

  /** Whatever the worker is about, a queued key is taken up in the end. */
  lemma QueuedMisreads(s: State, q: set<Slot>, slot: Slot)
    requires Foreign(s, slot) && slot in q
    ensures CanMisread(s, q, slot)
  {
    var w := WorkOf(s.nodes, slot);
    if w == Idle { IdleMisreads(s, q, slot); }
    else if w.Commit? { CommitMisreads(s, q, slot); }
    else { SyncMisreads(s, q, slot, NO_FAULTS); }
  }

  /** Failing commands make a reconcile that may fail do so, if it has nothing to write. */
  const FAILING := NO_FAULTS.(poolList := true, volCmd := true)

  lemma CanFail(st: Store, name: string, at: nat, zv: CR)
    requires MayFail(Sync(at, zv))
    ensures SyncFails(st, name, zv, FAILING) || SyncVolume(st, name, at, zv, FAILING).work != Idle
  {
  }

  lemma BusyMisreads(s: State, q: set<Slot>, slot: Slot)
    requires Foreign(s, slot) && Busy(s.nodes, q, slot)
    ensures CanMisread(s, q, slot)
  {
    var w := WorkOf(s.nodes, slot);
    if slot in q { QueuedMisreads(s, q, slot); }
    else if w.Commit? { CommitMisreads(s, q, slot); }
    else {
      CanFail(DiskOf(s.nodes, slot.node), slot.name, w.at, w.view);
      SyncMisreads(s, q, slot, FAILING);
    }
  }

  /** An event the node has yet to see, or a resync, queues its key. */
  lemma EventMisreads(s: State, q: set<Slot>, slot: Slot, to: nat)
    requires Foreign(s, slot) && PosOf(s.nodes, slot) <= to < |HistOf(s.server, slot)|
    requires Notifies(HistOf(s.server, slot)[PosOf(s.nodes, slot)], HistOf(s.server, slot)[to], slot.node)
    ensures CanMisread(s, q, slot)
  {
    QueueDelivered(s, q, slot, to);
    QueuedMisreads(Apply(s, Deliver(slot, to)), q + {slot}, slot);
    MisreadsLater(s, q, Deliver(slot, to), q + {slot}, slot);
  }

  lemma LaterEventMisreads(s: State, q: set<Slot>, slot: Slot, i: nat, j: nat)
    requires Foreign(s, slot) && PosOf(s.nodes, slot) <= i <= j < |HistOf(s.server, slot)|
    requires Notifies(HistOf(s.server, slot)[i], HistOf(s.server, slot)[j], slot.node)
    ensures CanMisread(s, q, slot)
  {
    QueueDelivered(s, q, slot, i);
    EventMisreads(Apply(s, Deliver(slot, i)), q, slot, j);
    MisreadsLater(s, q, Deliver(slot, i), q, slot);
  }

  /** What is left to see after a version was given away, given what was before. */
  lemma UnsettledMisreads(s: State, q: set<Slot>, slot: Slot, before: History)
    requires Foreign(s, slot) && PosOf(s.nodes, slot) < |before|
    requires HistOf(s.server, slot) == before + [Cur(s.server.vols, slot.name)]
    requires !Settled(before, PosOf(s.nodes, slot), Busy(s.nodes, q, slot), slot.node)
    ensures CanMisread(s, q, slot)
  {
    if Busy(s.nodes, q, slot) {
      BusyMisreads(s, q, slot);
    } else {
      var i, j :| PosOf(s.nodes, slot) <= i <= j < |before| && Notifies(before[i], before[j], slot.node);
      LaterEventMisreads(s, q, slot, i, j);
    }
  }

  lemma StillPrefix(s: State, steps: seq<Step>, queues: seq<set<Slot>>, v: string)
    requires steps != [] && QueuedRun(s, steps, queues) && StillRun(s, steps, v)
    ensures QueuedRun(s, steps[..|steps| - 1], queues[..|steps|]) && StillRun(s, steps[..|steps| - 1], v)
  {
    var before := steps[..|steps| - 1];
    forall i | 0 <= i < |before| ensures before[..i] == steps[..i] {
    }
  }

  /** Runs that write no version of the volume keep a tidy node tidy. */
  lemma {:induction false} StillTidy(s: State, steps: seq<Step>, queues: seq<set<Slot>>, slot: Slot)
    requires QueuedRun(s, steps, queues) && StillRun(s, steps, slot.name)
    requires TidySlot(s.server, s.nodes, queues[0], slot)
    ensures TidySlot(Run(s, steps).server, Run(s, steps).nodes, queues[|steps|], slot)
  {
    if steps != [] {
      var k := |steps| - 1;
      StillPrefix(s, steps, queues, slot.name);
      StillTidy(s, steps[..k], queues[..k + 1], slot);
      assert QueueStep(Run(s, steps[..k]), steps[k], queues[k], queues[k + 1]);
      assert !GivesAway(Run(s, steps[..k]), steps[k], slot);
      TidyStep(Run(s, steps[..k]), steps[k], queues[k], queues[k + 1], slot);
    }
  }

  lemma SettledCannotMisread(s: State, step: Step, q: set<Slot>, q': set<Slot>, slot: Slot)
    requires TidySlot(s.server, s.nodes, q, slot) && QueueStep(s, step, q, q') && GivesAway(s, step, slot)
    requires SettledSlot(s, q, slot)
    ensures !CanMisread(Apply(s, step), q', slot)
  {
    TidyStep(s, step, q, q', slot);
    forall steps, queues | Misreads(Apply(s, step), q', slot, steps, queues) ensures false {
      StillTidy(Apply(s, step), steps, queues, slot);
    }
  }

  /** Giving a version away moves no informer, takes no key and ends no worker's turn of this node. */
  lemma StaysUnsettled(s: State, step: Step, q: set<Slot>, q': set<Slot>, slot: Slot)
    requires TidySlot(s.server, s.nodes, q, slot) && QueueStep(s, step, q, q') && GivesAway(s, step, slot)
    ensures PosOf(NodesAfter(s, step), slot) == PosOf(s.nodes, slot)
    ensures Busy(s.nodes, q, slot) ==> Busy(NodesAfter(s, step), q', slot)
  {
    WorkKept(s, step, slot);
  }

  /**
   * For a node that can so far only come to read its own versions: once one is given to another node,
   * this node's worker can come to read a version it does not own exactly when it was not settled.
   */
  lemma TidyMisreadsIff(s: State, step: Step, q: set<Slot>, q': set<Slot>, slot: Slot)
    requires TidySlot(s.server, s.nodes, q, slot) && QueueStep(s, step, q, q') && GivesAway(s, step, slot)
    ensures CanMisread(Apply(s, step), q', slot) <==> !SettledSlot(s, q, slot)
  {
    if SettledSlot(s, q, slot) {
      SettledCannotMisread(s, step, q, q', slot);
    } else {
      StaysUnsettled(s, step, q, q', slot);
      OneVersion(s.server, RequestOf(s, step), slot.name);
      UnsettledMisreads(Apply(s, step), q', slot, HistOf(s.server, slot));
    }
  }

  /**
   * Settling is exactly what it takes: in every run in which it was kept to so far, when a version is
   * given to another node, this node's worker can come to read a version it does not own, without
   * another being written, exactly when the node was not settled.
   */
  lemma CanMisreadIff(s0: State, steps: seq<Step>, queues: seq<set<Slot>>, step: Step, q': set<Slot>, slot: Slot)
    requires Initial(s0) && SettledRun(s0, steps, queues) && queues[0] == {} && GivesAway(Run(s0, steps), step, slot)
    requires QueueStep(Run(s0, steps), step, queues[|steps|], q')
    ensures CanMisread(Apply(Run(s0, steps), step), q', slot) <==> !SettledSlot(Run(s0, steps), queues[|steps|], slot)
  {
    InitiallySafe(s0, slot);
    SafeRun(s0, steps, queues, slot);
    TidyMisreadsIff(Run(s0, steps), step, queues[|steps|], q', slot);
  }
}
