/**
 * The control plane as one state machine: the controller's handlers, the volume and snapshot
 * agents of every node, the API server between them and the datasets behind them. A step is
 * one API request, one batch of `zfs` commands, one informer delivery or one outside event.
 */
module Cluster {
  import opened Base
  import opened Resource
  import opened Api
  import opened UserProp
  import opened ZfsStore

  datatype Kind = KVolume | KSnapshot

  /** One key on one node: where its informer stands and what its worker is doing. */
  datatype Slot = Slot(kind: Kind, node: string, name: string)

  datatype Verdict = MarkReady | MarkFailed | Release

  /** A worker's progress on one key. `at` is the position in the key's history it read. */
  datatype Work =
    | Idle
    | Sync(at: nat, view: CR)
    | Commit(at: nat, view: CR, verdict: Verdict)

  /**
   * A handler's call. The plan of a CreateVolume has the spec for each node the scheduler proposes, in
   * order; a node that is skipped, for want of an id or a pool, is one whose write fails. So a call that
   * skips all its nodes still comes to the clean-up, and one without nodes does not.
   */
  datatype Op =
    | CreateSnapshotOp(volume: string, snapshot: string, props: map<string, string>)
    | DeleteSnapshotOp(volume: string, snapshot: string)
    | DeleteVolumeOp(volume: string)
    | CreateVolumeOp(volume: string, src: Option<string>, plan: seq<VolumeInfo>)
    | ExpandVolumeOp(volume: string, capacity: string)

  datatype Pc =
    | Verify | LockVol | LockSnap | GetSnap | GetVol | List | CreateSnap | DelSnap | Eligible
    | DelVol | MarkGet | MarkUpdate | Precheck | ProvGet(i: nat) | ProvWrite(i: nat) | Poll(i: nat)
    | Resize | UnlockVol | UnlockSnap | Done

  /** One request to the API server. */
  datatype Request =
    | NoRequest
    | Create(kind: Kind, name: string, cr: CR)
    | Update(kind: Kind, name: string, cr: CR)
    | Delete(kind: Kind, name: string)

  /** A handler call in flight: its program counter and its local variables. */
  datatype Call = Call(op: Op, pc: Pc, copy: Option<CR>, listed: set<string>)

  /** One step of a handler: its next program counter and locals, and the request it makes. */
  datatype Move = Move(call: Call, request: Request)

  datatype Server = Server(vols: Table, snaps: Table, clock: nat)
  datatype Controller = Controller(locks: map<string, nat>, calls: map<nat, Call>)
  datatype Nodes = Nodes(pos: map<Slot, nat>, work: map<Slot, Work>, disks: map<string, Store>)

  datatype State = State(server: Server, ctl: Controller, nodes: Nodes)

  datatype Step =
    | Begin(h: nat, op: Op)
    | Advance(h: nat, fails: bool, timeout: bool)
    | Deliver(slot: Slot, to: nat)
    | Start(slot: Slot)
    | Act(slot: Slot, faults: Faults, crash: bool)
    | Finish(slot: Slot, fails: bool)
    | Crash(node: string)
    | CrashController
    | UserDelete(kind: Kind, name: string)
    | Collect(kind: Kind, name: string)
    | AddFinalizer(kind: Kind, name: string, id: string)
    | DropFinalizer(kind: Kind, name: string, id: string)

  // ---- reading the state -----------------------------------------------------------------

  function TableOf(sv: Server, kind: Kind): Table {
    if kind == KVolume then sv.vols else sv.snaps
  }

  function PosOf(n: Nodes, slot: Slot): nat { if slot in n.pos then n.pos[slot] else 0 }
  function WorkOf(n: Nodes, slot: Slot): Work { if slot in n.work then n.work[slot] else Idle }
  function DiskOf(n: Nodes, node: string): Store { if node in n.disks then n.disks[node] else map[] }
  function HistOf(sv: Server, slot: Slot): History { Hist(TableOf(sv, slot.kind), slot.name) }
  function CurOf(sv: Server, kind: Kind, name: string): Option<CR> { Cur(TableOf(sv, kind), name) }

  predicate Labelled(sv: Server, snap: string, vol: string) {
    Cur(sv.snaps, snap).Some? && Cur(sv.snaps, snap).value.labels.volume == vol
  }

  /** GetSnapshotForVolume: terminating snapshots still count. */
  function ListSnaps(sv: Server, vol: string): (r: set<string>)
    ensures forall k :: k in r <==> Labelled(sv, k, vol)
  {
    set k | k in sv.snaps && Labelled(sv, k, vol)
  }

  // ---- the API server ----------------------------------------------------------------------

  /** Whether the server accepts a request. */
  predicate Accepts(sv: Server, rq: Request) {
    match rq
    case NoRequest => false
    case Create(kind, name, _) => CurOf(sv, kind, name).None?
    case Update(kind, name, cr) =>
      CurOf(sv, kind, name).Some? && CurOf(sv, kind, name).value.version == cr.version
    case Delete(kind, name) => CurOf(sv, kind, name).Some?
  }

  /** The version an accepted request leaves; None when the object is gone with it. */
  function Stored(sv: Server, rq: Request): Option<CR>
    requires Accepts(sv, rq)
  {
    match rq
    case Create(_, _, cr) => Some(cr.(version := sv.clock, terminating := false))
    case Update(kind, name, cr) =>
      // the deletion timestamp is the server's, and the last finalizer takes the object with it
      var dying := CurOf(sv, kind, name).value.terminating;
      if dying && cr.finalizers == [] then None
      else Some(cr.(version := sv.clock, terminating := dying))
    case Delete(kind, name) =>
      // foreground deletion: the timestamp and the server's own finalizer
      var cr := CurOf(sv, kind, name).value;
      if cr.terminating then Some(cr)
      else Some(cr.(version := sv.clock, terminating := true, finalizers := cr.finalizers + [ForegroundDeletion]))
  }

  function Serve(sv: Server, rq: Request): Server {
    if !Accepts(sv, rq) || Stored(sv, rq) == CurOf(sv, rq.kind, rq.name) then sv
    else if rq.kind == KVolume then sv.(vols := Push(sv.vols, rq.name, Stored(sv, rq)), clock := sv.clock + 1)
    else sv.(snaps := Push(sv.snaps, rq.name, Stored(sv, rq)), clock := sv.clock + 1)
  }

  // ---- the controller's handlers ---------------------------------------------------------

  function Goto(c: Call, pc: Pc): Move { Move(c.(pc := pc), NoRequest) }

  function Send(c: Call, pc: Pc, rq: Request): Move { Move(c.(pc := pc), rq) }

  predicate TwoNames(op: Op) { op.CreateSnapshotOp? || op.DeleteSnapshotOp? }

  function FirstPc(op: Op): Pc { if op.CreateSnapshotOp? then Verify else LockVol }

  /** CreateVolClone and CreateSnapClone try one spec, check nothing first and clean up nothing. */
  predicate IsClone(plan: seq<VolumeInfo>) { |plan| == 1 && plan[0].snapName.SnapOf? }

  /** Where a handler goes once it has every lock it needs. */
  function BodyPc(op: Op): Pc {
    match op
    case CreateSnapshotOp(_, _, _) => GetSnap
    case DeleteSnapshotOp(_, _) => GetSnap
    case DeleteVolumeOp(_) => GetVol
    case CreateVolumeOp(_, _, plan) => if IsClone(plan) then ProvGet(0) else Precheck
    case ExpandVolumeOp(_, _) => GetVol
  }

  /** Past the locks: a program counter at which the volume's name is held. */
  predicate InBody(pc: Pc) { pc !in {Verify, LockVol, LockSnap, UnlockSnap, Done} }

  predicate Locking(pc: Pc) { pc in {LockVol, LockSnap, UnlockVol, UnlockSnap} }

  /** The name the locking step is about. */
  function LockName(c: Call): string {
    if (c.pc == LockSnap || c.pc == UnlockSnap) && TwoNames(c.op) then c.op.snapshot else c.op.volume
  }

  predicate Blocked(ctl: Controller, c: Call) { (c.pc == LockVol || c.pc == LockSnap) && LockName(c) in ctl.locks }

  function LockMove(ctl: Controller, c: Call): Call {
    if Blocked(ctl, c) then c
    else
      match c.pc
      case LockVol => c.(pc := if TwoNames(c.op) then LockSnap else BodyPc(c.op))
      case LockSnap => c.(pc := BodyPc(c.op))
      case UnlockVol => c.(pc := if TwoNames(c.op) then UnlockSnap else Done)
      case _ => c.(pc := Done)
  }

  function LocksAfter(ctl: Controller, h: nat, c: Call): map<string, nat> {
    if Blocked(ctl, c) then ctl.locks
    else if c.pc == LockVol || c.pc == LockSnap then ctl.locks[LockName(c) := h]
    else ctl.locks - {LockName(c)}
  }

  /** What every handler keeps to: its call, its locks, and what it may write. */
  predicate Proper(c: Call, m: Move) {
    && m.call.op == c.op
    && (InBody(c.pc) && !Locking(c.pc) ==> InBody(m.call.pc))
    && (c.pc == Verify ==> m.call.pc in {Verify, LockVol, Done})
    && (c.pc == Done ==> m.call.pc == Done)
    && (m.request.Update? ==> m.request.kind == KVolume && m.request.name == c.op.volume)
    && (m.request.Create? && m.request.kind == KSnapshot ==>
          && c.op.CreateSnapshotOp? && c.pc == CreateSnap
          && m.request.name == c.op.snapshot && m.request.cr.labels.volume == c.op.volume)
  }

  function CreateSnapshotMove(sv: Server, c: Call, fails: bool): (r: Move)
    requires c.op.CreateSnapshotOp?
    ensures Proper(c, r)
    ensures r.call.copy == c.copy || r.call.copy == None || r.call.copy == Cur(sv.vols, c.op.volume)
  {
    var v, k := c.op.volume, c.op.snapshot;
    match c.pc
    case Verify =>
      // outside the locks: the name is free, or already belongs to this volume
      Goto(c, if fails || (Cur(sv.snaps, k).Some? && !Labelled(sv, k, v)) then Done else LockVol)
    case GetSnap => Goto(c, if !fails && Cur(sv.snaps, k).Some? then UnlockVol else GetVol)
    case GetVol =>
      if fails || Cur(sv.vols, v).None? then Goto(c, UnlockVol)
      else Goto(c.(copy := Cur(sv.vols, v)), CreateSnap)
    case CreateSnap =>
      if fails || c.copy.None? then Goto(c, UnlockVol)
      else
        // the volume's spec, with the user properties the builder set
        var spec := c.copy.value.spec.(userProperties := c.op.props);
        Send(c, UnlockVol, Create(KSnapshot, k, CR(0, spec, Labels(v, None, ""), Pending, [], false, false)))
    case _ => Move(c, NoRequest)
  }

  function DeleteSnapshotMove(sv: Server, c: Call, fails: bool): (r: Move)
    requires c.op.DeleteSnapshotOp?
    ensures Proper(c, r)
    ensures r.call.copy == c.copy || r.call.copy == None || r.call.copy == Cur(sv.snaps, c.op.snapshot)
  {
    var v, k := c.op.volume, c.op.snapshot;
    match c.pc
    case GetSnap =>
      if fails || Cur(sv.snaps, k).None? then Goto(c, UnlockVol)
      else Goto(c.(copy := Cur(sv.snaps, k)), List)
    case List =>
      if fails then Goto(c, UnlockVol) else Goto(c.(listed := ListSnaps(sv, v)), DelSnap)
    case DelSnap =>
      if fails || Cur(sv.snaps, k).None? then Goto(c, UnlockVol)
      else Send(c, Eligible, Delete(KSnapshot, k))
    case Eligible =>
      if fails || Cur(sv.vols, v).None? then Goto(c, UnlockVol)
      else Goto(c, if |c.listed| == 1 && Cur(sv.vols, v).value.marked then DelVol else UnlockVol)
    case DelVol =>
      if fails then Goto(c, UnlockVol) else Send(c, UnlockVol, Delete(KVolume, v))
    case _ => Move(c, NoRequest)
  }

  function DeleteVolumeMove(sv: Server, c: Call, fails: bool): (r: Move)
    requires c.op.DeleteVolumeOp?
    ensures Proper(c, r)
    ensures r.call.copy == c.copy || r.call.copy == None || r.call.copy == Cur(sv.vols, c.op.volume)
  {
    var v := c.op.volume;
    match c.pc
    case GetVol =>
      var cur := Cur(sv.vols, v);
      Goto(c, if fails || cur.None? || cur.value.terminating || cur.value.phase != Ready then UnlockVol else List)
    case List =>
      if fails then Goto(c, UnlockVol)
      else Goto(c.(listed := ListSnaps(sv, v)), if ListSnaps(sv, v) == {} then DelVol else MarkGet)
    case DelVol =>
      if fails then Goto(c, UnlockVol) else Send(c, UnlockVol, Delete(KVolume, v))
    case MarkGet =>
      if fails || Cur(sv.vols, v).None? then Goto(c, UnlockVol)
      else Goto(c.(copy := Cur(sv.vols, v)), MarkUpdate)
    case MarkUpdate =>
      if fails || c.copy.None? then Goto(c, UnlockVol)
      else Send(c, UnlockVol, Update(KVolume, v, c.copy.value.(marked := true)))
    case _ => Move(c, NoRequest)
  }

  /** After a failed attempt: the next node, or the clean-up. */
  function NextAttempt(op: Op, i: nat): Pc
    requires op.CreateVolumeOp?
  {
    if i + 1 < |op.plan| then ProvGet(i + 1) else if IsClone(op.plan) then UnlockVol else DelVol
  }

  /** What ProvisionVolume writes: the spec over the copy it read, or a new object. */
  function Provisioned(c: Call, spec: VolumeInfo): Request
    requires c.op.CreateVolumeOp?
  {
    if c.copy.Some? then Update(KVolume, c.op.volume, c.copy.value.(spec := spec, phase := Pending))
    else Create(KVolume, c.op.volume, CR(0, spec, Labels("", c.op.src, ""), Pending, [], false, false))
  }

  function CreateVolumeMove(sv: Server, c: Call, fails: bool, timeout: bool): (r: Move)
    requires c.op.CreateVolumeOp?
    ensures Proper(c, r)
    ensures r.call.copy == c.copy || r.call.copy == None || r.call.copy == Cur(sv.vols, c.op.volume)
  {
    var v, plan := c.op.volume, c.op.plan;
    match c.pc
    case Precheck =>
      if !fails && Cur(sv.vols, v).Some? && !Cur(sv.vols, v).value.terminating then Goto(c, UnlockVol)
      else Goto(c, if plan == [] then UnlockVol else ProvGet(0))
    case ProvGet(i) => Goto(c.(copy := if fails then None else Cur(sv.vols, v)), ProvWrite(i))
    case ProvWrite(i) =>
      if i >= |plan| then Goto(c, UnlockVol)
      else if fails || !Accepts(sv, Provisioned(c, plan[i])) then Goto(c, NextAttempt(c.op, i))
      else Send(c, Poll(i), Provisioned(c, plan[i]))
    case Poll(i) =>
      if timeout then Goto(c, if IsClone(plan) then UnlockVol else DelVol)
      else if fails || Cur(sv.vols, v).None? then Goto(c, NextAttempt(c.op, i))
      else if Cur(sv.vols, v).value.phase == Ready then Goto(c, UnlockVol)
      else if Cur(sv.vols, v).value.phase == Failed then Goto(c, NextAttempt(c.op, i))
      else Move(c, NoRequest)
    case DelVol =>
      // the clean-up delete, whose error is ignored
      if fails then Goto(c, UnlockVol) else Send(c, UnlockVol, Delete(KVolume, v))
    case _ => Move(c, NoRequest)
  }

  /** A request for no more than the volume has ends, like a failed one, without a write. */
  function ExpandVolumeMove(sv: Server, c: Call, fails: bool): (r: Move)
    requires c.op.ExpandVolumeOp?
    ensures Proper(c, r)
    ensures r.call.copy == c.copy || r.call.copy == None || r.call.copy == Cur(sv.vols, c.op.volume)
  {
    var v := c.op.volume;
    match c.pc
    case GetVol =>
      if fails || Cur(sv.vols, v).None? then Goto(c, UnlockVol)
      else Goto(c.(copy := Cur(sv.vols, v)), Resize)
    case Resize =>
      if fails || c.copy.None? then Goto(c, UnlockVol)
      else
        var cr := c.copy.value;
        Send(c, UnlockVol, Update(KVolume, v, cr.(spec := cr.spec.(capacity := c.op.capacity))))
    case _ => Move(c, NoRequest)
  }

  function HandlerMove(s: State, c: Call, fails: bool, timeout: bool): (r: Move)
    ensures Proper(c, r)
    ensures c.op.DeleteSnapshotOp? || r.call.copy == c.copy || r.call.copy == None
            || r.call.copy == Cur(s.server.vols, c.op.volume)
  {
    var sv := s.server;
    if Locking(c.pc) then Move(LockMove(s.ctl, c), NoRequest)
    else
      match c.op
      case CreateSnapshotOp(_, _, _) => CreateSnapshotMove(sv, c, fails)
      case DeleteSnapshotOp(_, _) => DeleteSnapshotMove(sv, c, fails)
      case DeleteVolumeOp(_) => DeleteVolumeMove(sv, c, fails)
      case CreateVolumeOp(_, _, _) => CreateVolumeMove(sv, c, fails, timeout)
      case ExpandVolumeOp(_, _) => ExpandVolumeMove(sv, c, fails)
  }

  // ---- the agents -----------------------------------------------------------------------

  datatype Effect = Effect(store: Store, work: Work)

  /** syncZV up to its write to the API server. */
  function SyncVolume(st: Store, name: string, at: nat, zv: CR, f: Faults): Effect {
    if zv.terminating then
      if UserFinalizers(zv.finalizers) != [] then Effect(st, Idle)
      else
        var r := DestroyVolume(st, zv.spec, zv.labels.srcVolume, name, f);
        Effect(r.store, if r.ok then Commit(at, zv, Release) else Idle)
    else if !ValidProps(zv.spec.userProperties) then Effect(st, Idle)
    else if IsVolumeReady(zv) then Effect(SetVolumeProp(st, zv.spec, name, f).store, Idle)
    else
      var r := if zv.spec.snapName.SnapOf? then CreateClone(st, zv.spec, zv.labels.srcVolume, name, f)
               else CreateVolume(st, zv.spec, name, f);
      Effect(r.store, Commit(at, zv, if r.ok then MarkReady else MarkFailed))
  }

  /** syncSnap up to its write to the API server; a failed create writes nothing. */
  function SyncSnapshot(st: Store, name: string, at: nat, snap: CR, f: Faults): Effect {
    if snap.terminating then
      if UserFinalizers(snap.finalizers) != [] then Effect(st, Idle)
      else
        var r := DestroySnapshot(st, snap.spec, snap.labels.volume, name, f);
        Effect(r.store, if r.ok then Commit(at, snap, Release) else Idle)
    else if !ValidProps(snap.spec.userProperties) || snap.phase == Ready then Effect(st, Idle)
    else
      var r := CreateSnapshot(st, snap.spec, snap.labels.volume, name, f);
      Effect(r.store, if r.ok then Commit(at, snap, MarkReady) else Idle)
  }

  function SyncOf(kind: Kind, st: Store, name: string, at: nat, cr: CR, f: Faults): Effect {
    if kind == KVolume then SyncVolume(st, name, at, cr, f) else SyncSnapshot(st, name, at, cr, f)
  }

  /** What UpdateZvolInfo, UpdateSnapInfo and Remove*Finalizer send: the copy they read, changed. */
  function Written(cr: CR, node: string, verdict: Verdict): CR {
    match verdict
    case MarkReady => cr.(finalizers := cr.finalizers + [ZfsFinalizer], phase := Ready,
        labels := cr.labels.(node := node))
    case MarkFailed => cr.(phase := Failed, labels := cr.labels.(node := node))
    case Release => cr.(finalizers := [])
  }

  function Remove(fs: seq<Finalizer>, f: Finalizer): (r: seq<Finalizer>)
    ensures forall x :: x in r <==> x in fs && x != f
  {
    if fs == [] then [] else (if fs[0] == f then [] else [fs[0]]) + Remove(fs[1..], f)
  }

  function FinalizersOf(o: Option<CR>): seq<Finalizer> {
    if o.None? then [] else o.value.finalizers
  }

  /** Somebody else edits the finalizers of the current version. */
  function EditFinalizers(sv: Server, kind: Kind, name: string, fs: seq<Finalizer>): Request {
    if CurOf(sv, kind, name).None? then NoRequest
    else Update(kind, name, CurOf(sv, kind, name).value.(finalizers := fs))
  }

  // ---- the machine ------------------------------------------------------------------------

  /** The API request a step makes, if any. */
  function RequestOf(s: State, step: Step): Request {
    var sv := s.server;
    match step
    case Advance(h, fails, timeout) =>
      if h in s.ctl.calls then HandlerMove(s, s.ctl.calls[h], fails, timeout).request else NoRequest
    case Finish(slot, fails) =>
      if !fails && WorkOf(s.nodes, slot).Commit?
      then Update(slot.kind, slot.name, Written(WorkOf(s.nodes, slot).view, slot.node, WorkOf(s.nodes, slot).verdict))
      else NoRequest
    case UserDelete(kind, name) => Delete(kind, name)
    case Collect(kind, name) =>
      EditFinalizers(sv, kind, name, Remove(FinalizersOf(CurOf(sv, kind, name)), ForegroundDeletion))
    case AddFinalizer(kind, name, id) =>
      var o := CurOf(sv, kind, name);
      if o.Some? && !o.value.terminating
      then EditFinalizers(sv, kind, name, o.value.finalizers + [UserFinalizer(id)]) else NoRequest
    case DropFinalizer(kind, name, id) =>
      EditFinalizers(sv, kind, name, Remove(FinalizersOf(CurOf(sv, kind, name)), UserFinalizer(id)))
    case _ => NoRequest
  }

  function ControllerAfter(s: State, step: Step): Controller {
    var ctl := s.ctl;
    match step
    case Begin(h, op) =>
      if h in ctl.calls then ctl else ctl.(calls := ctl.calls[h := Call(op, FirstPc(op), None, {})])
    case Advance(h, fails, timeout) =>
      if h !in ctl.calls then ctl
      else Controller(if Locking(ctl.calls[h].pc) then LocksAfter(ctl, h, ctl.calls[h]) else ctl.locks,
                      ctl.calls[h := HandlerMove(s, ctl.calls[h], fails, timeout).call])
    case CrashController => Controller(map[], map[])
    case _ => ctl
  }

  function NodesAfter(s: State, step: Step): Nodes {
    var n := s.nodes;
    match step
    case Deliver(slot, to) =>
      if PosOf(n, slot) <= to < |HistOf(s.server, slot)| then n.(pos := n.pos[slot := to]) else n
    case Start(slot) =>
      var at := PosOf(n, slot);
      if WorkOf(n, slot) == Idle && at < |HistOf(s.server, slot)| && HistOf(s.server, slot)[at].Some?
      then n.(work := n.work[slot := Sync(at, HistOf(s.server, slot)[at].value)]) else n
    case Act(slot, f, crash) =>
      if !WorkOf(n, slot).Sync? then n
      else
        var e := SyncOf(slot.kind, DiskOf(n, slot.node), slot.name, WorkOf(n, slot).at, WorkOf(n, slot).view, f);
        n.(disks := n.disks[slot.node := e.store], work := n.work[slot := if crash then Idle else e.work])
    case Finish(slot, _) =>
      if WorkOf(n, slot).Commit? then n.(work := n.work[slot := Idle]) else n
    case Crash(node) => n.(work := map x | x in n.work && x.node != node :: n.work[x])
    case _ => n
  }

  function ServerAfter(s: State, step: Step): Server { Serve(s.server, RequestOf(s, step)) }

  function Apply(s: State, step: Step): State {
    State(ServerAfter(s, step), ControllerAfter(s, step), NodesAfter(s, step))
  }

  function Run(s: State, steps: seq<Step>): State {
    if steps == [] then s else Apply(Run(s, steps[..|steps| - 1]), steps[|steps| - 1])
  }

  lemma RunSnoc(s: State, steps: seq<Step>, step: Step)
    ensures Run(s, steps + [step]) == Apply(Run(s, steps), step)
  {
    assert (steps + [step])[..|steps|] == steps;
  }

  /** Nothing created yet; any datasets may already be on the nodes. */
  ghost predicate Initial(s: State) {
    && s.server.vols == map[] && s.server.snaps == map[]
    && s.ctl == Controller(map[], map[])
    && s.nodes.pos == map[] && s.nodes.work == map[]
  }

  /** A request adds one version to one history, numbered by the clock, or changes nothing. */
  lemma Served(sv: Server, rq: Request, slot: Slot)
    ensures var sv' := Serve(sv, rq);
            || HistOf(sv', slot) == HistOf(sv, slot)
            || (Accepts(sv, rq) && rq.kind == slot.kind && rq.name == slot.name && sv'.clock == sv.clock + 1
                && HistOf(sv', slot) == HistOf(sv, slot) + [Stored(sv, rq)]
                && (Stored(sv, rq).Some? ==> Stored(sv, rq).value.version == sv.clock))
    ensures sv.clock <= Serve(sv, rq).clock
  {
  }

  /** The current version of an object is the one before, or the one the request left. */
  lemma ServedCur(sv: Server, rq: Request, kind: Kind, name: string)
    ensures || CurOf(Serve(sv, rq), kind, name) == CurOf(sv, kind, name)
            || (Accepts(sv, rq) && rq.kind == kind && rq.name == name
                && CurOf(Serve(sv, rq), kind, name) == Stored(sv, rq))
  {
    Served(sv, rq, Slot(kind, "", name));
  }

  /** Whatever else happens, a call does not move by itself. */
  lemma OthersLeave(s: State, step: Step, h: nat)
    requires h in s.ctl.calls && step != CrashController && !(step.Advance? && step.h == h)
    ensures h in Apply(s, step).ctl.calls && Apply(s, step).ctl.calls[h] == s.ctl.calls[h]
  {
  }
}
