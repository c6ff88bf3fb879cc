/**
 * Ready means there. The node an agent writes into a volume's label has the volume's dataset,
 * for as long as the volume is Ready and not being deleted, and a provisioning handler that
 * returns success has seen Ready for the very spec it wrote.
 */
module Readiness {
  import opened Base
  import opened Resource
  import opened Api
  import opened ZfsStore
  import opened Cluster
  import opened Consistency
  import opened DeleteSafety
  import opened AgentSafety

  /** The current version of a volume, when it is Ready and not being deleted. */
  predicate Live(sv: Server, v: string) {
    Cur(sv.vols, v).Some? && Cur(sv.vols, v).value.phase == Ready && !Cur(sv.vols, v).value.terminating
  }

  // ---- who can make a volume Ready ----------------------------------------------------------

  /** An agent marks `v` Ready from the current version. */
  ghost predicate MarksReady(s: State, step: Step, v: string) {
    && step.Finish? && step.slot.kind == KVolume && step.slot.name == v
    && WorkOf(s.nodes, step.slot).Commit? && WorkOf(s.nodes, step.slot).verdict == MarkReady
    && Cur(s.server.vols, v) == Some(WorkOf(s.nodes, step.slot).view)
    && PosOf(s.nodes, step.slot) == |Hist(s.server.vols, v)| - 1
    && var after := Cur(ServerAfter(s, step).vols, v);
       && after.Some? && after.value.spec == WorkOf(s.nodes, step.slot).view.spec
       && after.value.labels.node == step.slot.node
  }

  /** Two versions of a volume agree on where its dataset is. */
  ghost predicate SamePlace(a: CR, b: CR) {
    a.spec.poolName == b.spec.poolName && a.spec.ownerNodeID == b.spec.ownerNodeID && a.labels == b.labels
  }

  /** A handler's write reaches the server only if its copy is the current version. */
  lemma FreshHandlerCopy(s: State, h: nat)
    requires Consistent(s) && h in s.ctl.calls && s.ctl.calls[h].copy.Some? && !s.ctl.calls[h].op.DeleteSnapshotOp?
    requires Cur(s.server.vols, s.ctl.calls[h].op.volume).Some?
    requires Cur(s.server.vols, s.ctl.calls[h].op.volume).value.version == s.ctl.calls[h].copy.value.version
    ensures Cur(s.server.vols, s.ctl.calls[h].op.volume) == s.ctl.calls[h].copy
  {
    assert KnownCopy(s.server, s.ctl.calls[h]);
  }

  /** What a handler can ask of a volume's resource. */
  lemma HandlerWrites(s: State, c: Call, fails: bool, timeout: bool)
    ensures var rq := HandlerMove(s, c, fails, timeout).request;
            && (rq.Create? && rq.kind == KVolume ==> rq.cr.phase == Pending)
            && (rq.Update? ==>
                  && c.copy.Some? && !c.op.DeleteSnapshotOp? && rq.cr.version == c.copy.value.version
                  && (rq.cr.phase == Pending
                      || (rq.cr.phase == c.copy.value.phase && SamePlace(rq.cr, c.copy.value))))
  {
  }

  /** What the server makes of an update: the fields sent, unless the object goes with it. */
  lemma StoredUpdate(sv: Server, rq: Request)
    requires rq.Update? && Accepts(sv, rq)
    ensures Stored(sv, rq).Some? ==>
              var o := Stored(sv, rq).value;
              && o.spec == rq.cr.spec && o.labels == rq.cr.labels && o.phase == rq.cr.phase
              && o.terminating == CurOf(sv, rq.kind, rq.name).value.terminating
  {
  }

  lemma FinishReady(s: State, step: Step, v: string)
    requires Sound(s) && step.Finish? && RequestOf(s, step).Update? && Accepts(s.server, RequestOf(s, step))
    requires step.slot.kind == KVolume && step.slot.name == v && Live(ServerAfter(s, step), v)
    requires Cur(ServerAfter(s, step).vols, v) == Stored(s.server, RequestOf(s, step))
    ensures MarksReady(s, step, v)
  {
    FreshCopy(s, step.slot);
    assert Established(DiskOf(s.nodes, step.slot.node), step.slot, WorkOf(s.nodes, step.slot));
    StoredUpdate(s.server, RequestOf(s, step));
  }

  lemma AdvanceReady(s: State, step: Step, v: string)
    requires Sound(s) && step.Advance? && step.h in s.ctl.calls
    requires var rq := RequestOf(s, step); Accepts(s.server, rq) && rq.kind == KVolume && rq.name == v
    requires Stored(s.server, RequestOf(s, step)).Some?
    requires var o := Stored(s.server, RequestOf(s, step)).value; o.phase == Ready && !o.terminating
    ensures Live(s.server, v)
    ensures SamePlace(Cur(s.server.vols, v).value, Stored(s.server, RequestOf(s, step)).value)
  {
    HandlerWrites(s, s.ctl.calls[step.h], step.fails, step.timeout);
    if RequestOf(s, step).Update? {
      FreshHandlerCopy(s, step.h);
      StoredUpdate(s.server, RequestOf(s, step));
    }
  }

  lemma OutsideReady(s: State, step: Step, v: string)
    requires !step.Advance? && !step.Finish?
    requires var rq := RequestOf(s, step); Accepts(s.server, rq) && rq.kind == KVolume && rq.name == v
    requires Stored(s.server, RequestOf(s, step)).Some?
    requires var o := Stored(s.server, RequestOf(s, step)).value; o.phase == Ready && !o.terminating
    ensures Live(s.server, v)
    ensures SamePlace(Cur(s.server.vols, v).value, Stored(s.server, RequestOf(s, step)).value)
  {
    if RequestOf(s, step).Update? { StoredUpdate(s.server, RequestOf(s, step)); }
  }

  lemma ReadyEffect(s: State, step: Step, v: string)
    requires Sound(s) && Live(ServerAfter(s, step), v)
    ensures || MarksReady(s, step, v)
            || (Live(s.server, v) && SamePlace(Cur(s.server.vols, v).value, Cur(ServerAfter(s, step).vols, v).value))
  {
    var rq := RequestOf(s, step);
    ServedCur(s.server, rq, KVolume, v);
    if Cur(ServerAfter(s, step).vols, v) != Cur(s.server.vols, v) {
      if step.Finish? { FinishReady(s, step, v); }
      else if step.Advance? { AdvanceReady(s, step, v); }
      else { OutsideReady(s, step, v); }
    }
  }

  // ---- the dataset is on the node the label names ---------------------------------------------

  /** Nothing the labelled node's worker can still read tells it to destroy the dataset. */
  ghost predicate Unthreatened(sv: Server, n: Nodes, slot: Slot) {
    && (forall i :: PosOf(n, slot) <= i < |HistOf(sv, slot)| ==>
          HistOf(sv, slot)[i].Some? && !HistOf(sv, slot)[i].value.terminating)
    && (WorkOf(n, slot) != Idle ==> !WorkOf(n, slot).view.terminating)
  }

  ghost predicate Backed(sv: Server, n: Nodes, v: string) {
    Live(sv, v) ==>
      var cr := Cur(sv.vols, v).value;
      Vol(cr.spec.poolName, v) in DiskOf(n, cr.labels.node) && Unthreatened(sv, n, Slot(KVolume, cr.labels.node, v))
  }

  /** What a worker does to the datasets leaves the volume's where it is. */
  lemma ActBacks(s: State, step: Step, v: string)
    requires Sound(s) && Backed(s.server, s.nodes, v) && Live(s.server, v)
    requires step.Act? && WorkOf(s.nodes, step.slot).Sync?
    ensures var cr := Cur(s.server.vols, v).value;
            Vol(cr.spec.poolName, v) in DiskOf(NodesAfter(s, step), cr.labels.node)
  {
    var cr := Cur(s.server.vols, v).value;
    var n, slot := s.nodes, Slot(KVolume, cr.labels.node, v);
    var st, w := DiskOf(n, step.slot.node), WorkOf(n, step.slot);
    assert PosOf(n, slot) < |HistOf(s.server, slot)|;
    if slot == step.slot {
      SyncKeeps(st, v, w.at, w.view, step.faults, cr.spec.poolName);
    } else if step.slot.node == slot.node {
      SyncFrame(step.slot.kind, st, step.slot.name, w.at, w.view, step.faults, Vol(cr.spec.poolName, v));
    }
  }

  lemma BackedNodes(s: State, step: Step, v: string)
    requires Sound(s) && Backed(s.server, s.nodes, v)
    ensures Backed(s.server, NodesAfter(s, step), v)
  {
    if Live(s.server, v) {
      var cr := Cur(s.server.vols, v).value;
      var n, slot := s.nodes, Slot(KVolume, cr.labels.node, v);
      assert PosOf(n, slot) < |HistOf(s.server, slot)|;
      if step.Act? && WorkOf(n, step.slot).Sync? {
        var st, w := DiskOf(n, step.slot.node), WorkOf(n, step.slot);
        SyncEstablishes(step.slot.kind, st, step.slot.node, step.slot.name, w.at, w.view, step.faults);
        ActBacks(s, step, v);
      }
    }
  }

  /** A new version that leaves the dataset where it is. */
  lemma BackedVersion(sv: Server, sv': Server, n: Nodes, v: string)
    requires Live(sv, v) && Live(sv', v) && Backed(sv, n, v)
    requires SamePlace(Cur(sv.vols, v).value, Cur(sv'.vols, v).value)
    requires Hist(sv'.vols, v) == Hist(sv.vols, v) || Hist(sv'.vols, v) == Hist(sv.vols, v) + [Cur(sv'.vols, v)]
    ensures Backed(sv', n, v)
  {
    var slot := Slot(KVolume, Cur(sv.vols, v).value.labels.node, v);
    assert HistOf(sv, slot) == Hist(sv.vols, v) && HistOf(sv', slot) == Hist(sv'.vols, v);
    forall i | PosOf(n, slot) <= i < |HistOf(sv', slot)|
      ensures HistOf(sv', slot)[i].Some? && !HistOf(sv', slot)[i].value.terminating
    {
      if i < |HistOf(sv, slot)| { assert HistOf(sv', slot)[i] == HistOf(sv, slot)[i]; }
    }
  }

  /** The version an agent has just marked Ready, with no other the worker can still read. */
  lemma BackedMark(s: State, step: Step, sv': Server, n': Nodes, v: string)
    requires Sound(s) && MarksReady(s, step, v) && Live(sv', v)
    requires sv' == ServerAfter(s, step) && n' == s.nodes.(work := s.nodes.work[step.slot := Idle])
    requires || Hist(sv'.vols, v) == Hist(s.server.vols, v)
             || Hist(sv'.vols, v) == Hist(s.server.vols, v) + [Cur(sv'.vols, v)]
    ensures Backed(sv', n', v)
  {
    assert Established(DiskOf(s.nodes, step.slot.node), step.slot, WorkOf(s.nodes, step.slot));
  }

  lemma OneVersion(sv: Server, rq: Request, v: string)
    ensures Hist(Serve(sv, rq).vols, v) == Hist(sv.vols, v)
         || Hist(Serve(sv, rq).vols, v) == Hist(sv.vols, v) + [Cur(Serve(sv, rq).vols, v)]
  {
  }

  lemma BackedStep(s: State, step: Step, v: string)
    requires Sound(s) && Backed(s.server, s.nodes, v)
    ensures Backed(ServerAfter(s, step), Apply(s, step).nodes, v)
  {
    var sv' := ServerAfter(s, step);
    if Live(sv', v) {
      ReadyEffect(s, step, v);
      OneVersion(s.server, RequestOf(s, step), v);
      if MarksReady(s, step, v) {
        BackedMark(s, step, sv', NodesAfter(s, step), v);
      } else {
        BackedNodes(s, step, v);
        BackedVersion(s.server, sv', NodesAfter(s, step), v);
      }
    }
  }

  lemma {:induction false} BackedRun(s: State, steps: seq<Step>, v: string)
    requires Initial(s)
    ensures Backed(Run(s, steps).server, Run(s, steps).nodes, v)
  {
    if steps != [] {
      BackedRun(s, steps[..|steps| - 1], v);
      SoundRun(s, steps[..|steps| - 1]);
      BackedStep(Run(s, steps[..|steps| - 1]), steps[|steps| - 1], v);
    }
  }

  /**
   * In every run, without any hypothesis: a volume that is Ready and not being deleted has its
   * dataset, in its pool, on the node its nodename label records.
   */
  lemma ReadyIsOnLabelledNode(s0: State, steps: seq<Step>, v: string)
    requires Initial(s0) && Live(Run(s0, steps).server, v)
    ensures var cr := Cur(Run(s0, steps).server.vols, v).value;
            Vol(cr.spec.poolName, v) in DiskOf(Run(s0, steps).nodes, cr.labels.node)
  {
    BackedRun(s0, steps, v);
  }

  // ---- the owner -------------------------------------------------------------------------------

  /** A worker marks a volume Ready only if the copy it read names its own node as the owner. */
  ghost predicate OwnerMarks(s: State, step: Step) {
    step.Finish? && step.slot.kind == KVolume && WorkOf(s.nodes, step.slot).Commit? ==>
      WorkOf(s.nodes, step.slot).view.spec.ownerNodeID == step.slot.node
  }

  ghost predicate OwnedRun(s: State, steps: seq<Step>) {
    forall i :: 0 <= i < |steps| ==> OwnerMarks(Run(s, steps[..i]), steps[i])
  }

  lemma OwnedPrefix(s: State, steps: seq<Step>)
    requires steps != [] && OwnedRun(s, steps)
    ensures OwnedRun(s, steps[..|steps| - 1])
    ensures OwnerMarks(Run(s, steps[..|steps| - 1]), steps[|steps| - 1])
  {
    var before := steps[..|steps| - 1];
    forall i | 0 <= i < |before| ensures OwnerMarks(Run(s, before[..i]), before[i]) {
      assert before[..i] == steps[..i] && OwnerMarks(Run(s, steps[..i]), steps[i]);
    }
  }

  lemma {:induction false} LabelIsOwner(s: State, steps: seq<Step>, v: string)
    requires Initial(s) && OwnedRun(s, steps) && Live(Run(s, steps).server, v)
    ensures var cr := Cur(Run(s, steps).server.vols, v).value; cr.labels.node == cr.spec.ownerNodeID
  {
    if steps != [] {
      var before, last := steps[..|steps| - 1], steps[|steps| - 1];
      SoundRun(s, before);
      ReadyEffect(Run(s, before), last, v);
      OwnedPrefix(s, steps);
      if Live(Run(s, before).server, v) { LabelIsOwner(s, before, v); }
    }
  }

  /**
   * In every run where no worker writes for a volume another node owns by then: a volume that is
   * Ready and not being deleted has its dataset in its PoolName on its OwnerNodeID.
   */
  lemma ReadyIsOnOwner(s0: State, steps: seq<Step>, v: string)
    requires Initial(s0) && OwnedRun(s0, steps) && Live(Run(s0, steps).server, v)
    ensures var cr := Cur(Run(s0, steps).server.vols, v).value;
            Vol(cr.spec.poolName, v) in DiskOf(Run(s0, steps).nodes, cr.spec.ownerNodeID)
  {
    LabelIsOwner(s0, steps, v);
    ReadyIsOnLabelledNode(s0, steps, v);
  }

  // ---- provisioning ----------------------------------------------------------------------------

  /** While a handler polls, the volume holds the spec that handler wrote. */
  ghost predicate PollsOwnSpec(sv: Server, c: Call) {
    c.op.CreateVolumeOp? && c.pc.Poll? ==>
      && c.pc.i < |c.op.plan|
      && (Cur(sv.vols, c.op.volume).Some? ==> Cur(sv.vols, c.op.volume).value.spec == c.op.plan[c.pc.i])
  }

  ghost predicate PollInv(s: State) {
    forall h :: h in s.ctl.calls ==> PollsOwnSpec(s.server, s.ctl.calls[h])
  }

  lemma OutsideSpec(s: State, step: Step, v: string)
    requires !step.Advance? && !step.Finish?
    requires var rq := RequestOf(s, step); Accepts(s.server, rq) && rq.kind == KVolume && rq.name == v
    requires Stored(s.server, RequestOf(s, step)).Some?
    ensures Cur(s.server.vols, v).Some?
    ensures Stored(s.server, RequestOf(s, step)).value.spec == Cur(s.server.vols, v).value.spec
  {
  }

  lemma FinishSpec(s: State, step: Step, v: string)
    requires Sound(s) && step.Finish?
    requires var rq := RequestOf(s, step); Accepts(s.server, rq) && rq.kind == KVolume && rq.name == v
    requires Stored(s.server, RequestOf(s, step)).Some?
    ensures Cur(s.server.vols, v).Some?
    ensures Stored(s.server, RequestOf(s, step)).value.spec == Cur(s.server.vols, v).value.spec
  {
    FreshCopy(s, step.slot);
    StoredUpdate(s.server, RequestOf(s, step));
  }

  /** Only a handler that holds the volume's name changes its spec. */
  lemma SpecEffect(s: State, step: Step, v: string)
    requires Sound(s) && Cur(ServerAfter(s, step).vols, v).Some?
    ensures || (Cur(s.server.vols, v).Some?
                && Cur(ServerAfter(s, step).vols, v).value.spec == Cur(s.server.vols, v).value.spec)
            || (step.Advance? && step.h in s.ctl.calls && s.ctl.calls[step.h].op.volume == v
                && HoldsVol(s.ctl.calls[step.h]))
  {
    var rq := RequestOf(s, step);
    ServedCur(s.server, rq, KVolume, v);
    if Cur(ServerAfter(s, step).vols, v) != Cur(s.server.vols, v) {
      if step.Finish? { FinishSpec(s, step, v); }
      else if step.Advance? { HandlerTarget(s, s.ctl.calls[step.h], step.fails, step.timeout); }
      else { OutsideSpec(s, step, v); }
    }
  }

  lemma HandlerTarget(s: State, c: Call, fails: bool, timeout: bool)
    ensures var rq := HandlerMove(s, c, fails, timeout).request;
            rq != NoRequest ==> HoldsVol(c) && (rq.kind == KVolume ==> rq.name == c.op.volume)
  {
  }

  /** Entering the poll, the spec has just been written; polling on, nothing is. */
  lemma PollMoves(sv: Server, c: Call, fails: bool, timeout: bool)
    requires c.op.CreateVolumeOp?
    ensures var m := CreateVolumeMove(sv, c, fails, timeout);
            m.call.pc.Poll? ==>
              || (m.call == c && m.request == NoRequest)
              || (c.pc.ProvWrite? && m.call.pc.i == c.pc.i < |c.op.plan|
                  && Accepts(sv, m.request) && m.request == Provisioned(c, c.op.plan[c.pc.i]))
  {
  }

  lemma ProvisionedSpec(sv: Server, c: Call, spec: VolumeInfo)
    requires c.op.CreateVolumeOp? && Accepts(sv, Provisioned(c, spec))
    ensures var after := Cur(Serve(sv, Provisioned(c, spec)).vols, c.op.volume);
            after.Some? ==> after.value.spec == spec
  {
  }

  lemma ProvisionPolls(sv: Server, c: Call, fails: bool, timeout: bool)
    requires c.op.CreateVolumeOp? && PollsOwnSpec(sv, c)
    ensures var m := CreateVolumeMove(sv, c, fails, timeout); PollsOwnSpec(Serve(sv, m.request), m.call)
  {
    var m := CreateVolumeMove(sv, c, fails, timeout);
    PollMoves(sv, c, fails, timeout);
    if m.call.pc.Poll? && (m.call != c || m.request != NoRequest) { ProvisionedSpec(sv, c, c.op.plan[c.pc.i]); }
  }

  lemma OwnPoll(s: State, h: nat, fails: bool, timeout: bool)
    requires Sound(s) && PollInv(s) && h in s.ctl.calls
    ensures PollsOwnSpec(Apply(s, Advance(h, fails, timeout)).server,
        HandlerMove(s, s.ctl.calls[h], fails, timeout).call)
  {
    var c := s.ctl.calls[h];
    if c.op.CreateVolumeOp? && !Locking(c.pc) {
      assert PollsOwnSpec(s.server, c);
      ProvisionPolls(s.server, c, fails, timeout);
    }
  }

  lemma PollStep(s: State, step: Step)
    requires Sound(s) && PollInv(s)
    ensures PollInv(Apply(s, step))
  {
    var s' := Apply(s, step);
    forall h | h in s'.ctl.calls ensures PollsOwnSpec(s'.server, s'.ctl.calls[h]) {
      if step.Advance? && step.h == h && h in s.ctl.calls {
        OwnPoll(s, h, step.fails, step.timeout);
      } else if h in s.ctl.calls {
        var c := s.ctl.calls[h];
        assert PollsOwnSpec(s.server, c) && CallLocks(s.ctl, h, c);
        if Cur(s'.server.vols, c.op.volume).Some? { SpecEffect(s, step, c.op.volume); }
        if step.Advance? && step.h in s.ctl.calls { assert CallLocks(s.ctl, step.h, s.ctl.calls[step.h]); }
      }
    }
  }

  lemma {:induction false} PollRun(s: State, steps: seq<Step>)
    requires Initial(s)
    ensures PollInv(Run(s, steps))
  {
    if steps != [] {
      PollRun(s, steps[..|steps| - 1]);
      SoundRun(s, steps[..|steps| - 1]);
      PollStep(Run(s, steps[..|steps| - 1]), steps[|steps| - 1]);
    }
  }

  lemma PollReturns(s: State, c: Call)
    requires c.op.CreateVolumeOp? && c.pc.Poll? && PollsOwnSpec(s.server, c) && Backed(s.server, s.nodes, c.op.volume)
    requires Cur(s.server.vols, c.op.volume).Some? && Cur(s.server.vols, c.op.volume).value.phase == Ready
    ensures var cr := Cur(s.server.vols, c.op.volume).value;
            && HandlerMove(s, c, false, false) == Goto(c, UnlockVol)
            && c.pc.i < |c.op.plan| && cr.spec == c.op.plan[c.pc.i]
            && (!cr.terminating ==> Vol(c.op.plan[c.pc.i].poolName, c.op.volume) in DiskOf(s.nodes, cr.labels.node))
  {
  }

  /**
   * In every run: when a provisioning handler finds the volume Ready and so returns success, the
   * resource carries the spec it wrote for that attempt, not an earlier one's; and unless the
   * volume is being deleted, the dataset is in that spec's pool on the labelled node.
   */
  lemma ProvisionReturnsOwnSpec(s0: State, steps: seq<Step>, h: nat)
    requires Initial(s0) && h in Run(s0, steps).ctl.calls
    requires var c := Run(s0, steps).ctl.calls[h];
             c.op.CreateVolumeOp? && c.pc.Poll?
             && Cur(Run(s0, steps).server.vols, c.op.volume).Some?
             && Cur(Run(s0, steps).server.vols, c.op.volume).value.phase == Ready
    ensures var s := Run(s0, steps);
            var c := s.ctl.calls[h];
            var cr := Cur(s.server.vols, c.op.volume).value;
            && HandlerMove(s, c, false, false) == Goto(c, UnlockVol)
            && c.pc.i < |c.op.plan| && cr.spec == c.op.plan[c.pc.i]
            && (!cr.terminating ==> Vol(c.op.plan[c.pc.i].poolName, c.op.volume) in DiskOf(s.nodes, cr.labels.node))
  {
    PollRun(s0, steps);
    var s := Run(s0, steps);
    var c := s.ctl.calls[h];
    BackedRun(s0, steps, c.op.volume);
    PollReturns(s, c);
  }
}
