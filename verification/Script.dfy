/**
 * Building runs of the cluster step by step. A state is queued up to when some run that respects the
 * work queues leads to it; it is reached when, besides, every `zfs list` in the run is truthful and a
 * volume changes its owner only after its key was drained on the node of the owner before.
 */
module Script {
  import opened Base
  import opened Resource
  import opened Api
  import opened ZfsStore
  import opened Cluster
  import opened OwnerDrain

  ghost predicate PreviousOwner(h: History, node: string) {
    exists i :: 0 <= i < |h| && Owns(h[i], node) && forall j :: i < j < |h| ==> h[j].None?
  }

  ghost predicate LastOwnerDrained(s: State, step: Step, q: set<Slot>) {
    forall slot :: GivesAway(s, step, slot) && PreviousOwner(HistOf(s.server, slot), slot.node) ==> Drained(s, q, slot)
  }

  /** No `zfs list` fails. */
  predicate Truthful(step: Step) {
    step.Act? ==> !step.faults.poolList && !step.faults.volList && !step.faults.snapList
  }

  /** A run with its queues, from nothing queued. */
  ghost predicate Leads(s0: State, steps: seq<Step>, queues: seq<set<Slot>>, s: State, q: set<Slot>) {
    QueuedRun(s0, steps, queues) && queues[0] == {} && queues[|steps|] == q && Run(s0, steps) == s
  }

  ghost predicate Careful(s0: State, steps: seq<Step>, queues: seq<set<Slot>>)
    requires |queues| == |steps| + 1
  {
    forall i :: 0 <= i < |steps| ==> LastOwnerDrained(Run(s0, steps[..i]), steps[i], queues[i]) && Truthful(steps[i])
  }

  ghost predicate Queued(s0: State, s: State, q: set<Slot>) {
    exists steps, queues :: Leads(s0, steps, queues, s, q)
  }

  ghost predicate Reach(s0: State, s: State, q: set<Slot>) {
    exists steps, queues :: Leads(s0, steps, queues, s, q) && Careful(s0, steps, queues)
  }

  // ---- sets of states that no step leaves --------------------------------------------------------------

  ghost predicate Closed(r: (State, set<Slot>) -> bool) {
    forall s, step, q, q' :: r(s, q) && QueueStep(s, step, q, q') && LastOwnerDrained(s, step, q) && Truthful(step) ==>
      r(Apply(s, step), q')
  }

  /** States with their queues, closed under such steps. */
  type Reached = r: (State, set<Slot>) -> bool | Closed(r) ghost witness (s, q) => true

  /** The same, closed under all steps that respect the queues. */
  ghost predicate QueueClosed(r: (State, set<Slot>) -> bool) {
    forall s, step, q, q' :: r(s, q) && QueueStep(s, step, q, q') ==> r(Apply(s, step), q')
  }

  type QueueReached = r: (State, set<Slot>) -> bool | QueueClosed(r) ghost witness (s, q) => true

  lemma LeadsOn(s0: State, steps: seq<Step>, queues: seq<set<Slot>>, s: State, q: set<Slot>, step: Step, q': set<Slot>)
    requires Leads(s0, steps, queues, s, q) && QueueStep(s, step, q, q')
    ensures Leads(s0, steps + [step], queues + [q'], Apply(s, step), q')
  {
    var all, qs := steps + [step], queues + [q'];
    assert all[..|steps|] == steps;
    forall i | 0 <= i < |all| ensures QueueStep(Run(s0, all[..i]), all[i], qs[i], qs[i + 1]) {
      if i < |steps| { assert all[..i] == steps[..i]; }
    }
  }

  lemma CarefulOn(s0: State, steps: seq<Step>, queues: seq<set<Slot>>, step: Step, q': set<Slot>)
    requires |queues| == |steps| + 1 && Careful(s0, steps, queues)
    requires LastOwnerDrained(Run(s0, steps), step, queues[|steps|]) && Truthful(step)
    ensures Careful(s0, steps + [step], queues + [q'])
  {
    var all, qs := steps + [step], queues + [q'];
    forall i | 0 <= i < |all| ensures LastOwnerDrained(Run(s0, all[..i]), all[i], qs[i]) && Truthful(all[i]) {
      assert all[..i] == steps[..i];
      if i == |steps| { assert steps[..i] == steps; }
    }
  }

  lemma ExtendRun(s0: State, steps: seq<Step>, queues: seq<set<Slot>>, s: State, q: set<Slot>, step: Step,
                  q': set<Slot>)
    requires Leads(s0, steps, queues, s, q) && Careful(s0, steps, queues)
    requires QueueStep(s, step, q, q') && LastOwnerDrained(s, step, q) && Truthful(step)
    ensures Reach(s0, Apply(s, step), q')
  {
    LeadsOn(s0, steps, queues, s, q, step, q');
    CarefulOn(s0, steps, queues, step, q');
  }

  lemma Extend(s0: State, s: State, q: set<Slot>, step: Step, q': set<Slot>)
    requires Reach(s0, s, q) && QueueStep(s, step, q, q') && LastOwnerDrained(s, step, q) && Truthful(step)
    ensures Reach(s0, Apply(s, step), q')
  {
    var steps, queues :| Leads(s0, steps, queues, s, q) && Careful(s0, steps, queues);
    ExtendRun(s0, steps, queues, s, q, step, q');
  }

  lemma Continues(r: Reached, s: State, q: set<Slot>, step: Step, q': set<Slot>)
    requires r(s, q) && QueueStep(s, step, q, q') && LastOwnerDrained(s, step, q) && Truthful(step)
    ensures r(Apply(s, step), q')
  {
  }

  /** What is reached from a state. */
  lemma From(s0: State) returns (r: Reached)
    ensures r(s0, {}) && forall s, q :: r(s, q) ==> Reach(s0, s, q)
  {
    var reach := (s: State, q: set<Slot>) => Reach(s0, s, q);
    forall s, step, q, q' | reach(s, q) && QueueStep(s, step, q, q') && LastOwnerDrained(s, step, q) && Truthful(step)
      ensures reach(Apply(s, step), q')
    {
      Extend(s0, s, q, step, q');
    }
    assert Leads(s0, [], [{}], s0, {}) && Careful(s0, [], [{}]);
    r := reach;
  }

  lemma FromQueued(s0: State) returns (r: QueueReached)
    ensures r(s0, {}) && forall s, q :: r(s, q) ==> Queued(s0, s, q)
  {
    var reach := (s: State, q: set<Slot>) => Queued(s0, s, q);
    forall s, step, q, q' | reach(s, q) && QueueStep(s, step, q, q') ensures reach(Apply(s, step), q') {
      var steps, queues :| Leads(s0, steps, queues, s, q);
      LeadsOn(s0, steps, queues, s, q, step, q');
    }
    assert Leads(s0, [], [{}], s0, {});
    r := reach;
  }

  // ---- steps that leave the volumes' resources alone -------------------------------------------------

  /** A step that leaves the queue as it is. */
  ghost predicate Quiet(s: State, step: Step) {
    && !step.Start? && !step.Crash?
    && ((step.Act? || step.Finish?) && step.slot.kind == KVolume ==> !Requeues(s, step, step.slot))
  }

  lemma QuietQueue(s: State, q: set<Slot>, step: Step)
    requires Quiet(s, step)
    ensures QueueStep(s, step, q, q)
  {
  }

  lemma ExtendQuiet(r: Reached, s: State, q: set<Slot>, step: Step, t: State)
    requires r(s, q) && Apply(s, step) == t && t.server.vols == s.server.vols && Quiet(s, step) && Truthful(step)
    ensures r(t, q)
  {
    QuietQueue(s, q, step);
    Continues(r, s, q, step, q);
  }

  lemma Begins(r: Reached, s: State, q: set<Slot>, h: nat, op: Op) returns (t: State)
    requires r(s, q) && h !in s.ctl.calls
    ensures r(t, q)
    ensures t == s.(ctl := s.ctl.(calls := s.ctl.calls[h := Call(op, FirstPc(op), None, {})]))
  {
    t := Apply(s, Begin(h, op));
    ExtendQuiet(r, s, q, Begin(h, op), t);
  }

  /** A handler locks or unlocks a name. */
  lemma Locks(r: Reached, s: State, q: set<Slot>, h: nat) returns (t: State)
    requires r(s, q) && h in s.ctl.calls && Locking(s.ctl.calls[h].pc)
    ensures r(t, q)
    ensures var calls := s.ctl.calls[h := LockMove(s.ctl, s.ctl.calls[h])];
            t == s.(ctl := Controller(LocksAfter(s.ctl, h, s.ctl.calls[h]), calls))
  {
    t := Apply(s, Advance(h, false, false));
    ExtendQuiet(r, s, q, Advance(h, false, false), t);
  }

  /** A handler moves on without a request. */
  lemma Moves(r: Reached, s: State, q: set<Slot>, h: nat, fails: bool, timeout: bool, c: Call) returns (t: State)
    requires r(s, q) && h in s.ctl.calls && !Locking(s.ctl.calls[h].pc)
    requires HandlerMove(s, s.ctl.calls[h], fails, timeout) == Move(c, NoRequest)
    ensures r(t, q)
    ensures t == s.(ctl := s.ctl.(calls := s.ctl.calls[h := c]))
  {
    t := Apply(s, Advance(h, fails, timeout));
    ExtendQuiet(r, s, q, Advance(h, fails, timeout), t);
  }

  lemma WritesSnap(r: Reached, s: State, q: set<Slot>, h: nat, m: Move) returns (t: State)
    requires r(s, q) && h in s.ctl.calls && !Locking(s.ctl.calls[h].pc)
    requires HandlerMove(s, s.ctl.calls[h], false, false) == m && Accepts(s.server, m.request)
    requires m.request.kind == KSnapshot
    ensures r(t, q)
    ensures t == s.(server := Serve(s.server, m.request), ctl := s.ctl.(calls := s.ctl.calls[h := m.call]))
  {
    t := Apply(s, Advance(h, false, false));
    ExtendQuiet(r, s, q, Advance(h, false, false), t);
  }

  lemma Delivers(r: Reached, s: State, q: set<Slot>, slot: Slot, to: nat, q': set<Slot>) returns (t: State)
    requires r(s, q) && PosOf(s.nodes, slot) <= to < |HistOf(s.server, slot)|
    requires q' == q || (q' == q + {slot} && EventEnqueues(HistOf(s.server, slot), PosOf(s.nodes, slot), to, slot.node))
    ensures r(t, q')
    ensures t == s.(nodes := s.nodes.(pos := s.nodes.pos[slot := to]))
  {
    t := Apply(s, Deliver(slot, to));
    QueueDelivered(s, q, slot, to);
    Continues(r, s, q, Deliver(slot, to), q');
  }

  lemma Starts(r: Reached, s: State, q: set<Slot>, slot: Slot, cr: CR) returns (t: State)
    requires r(s, q) && (slot.kind == KVolume ==> slot in q) && WorkOf(s.nodes, slot) == Idle
    requires PosOf(s.nodes, slot) < |HistOf(s.server, slot)| && HistOf(s.server, slot)[PosOf(s.nodes, slot)] == Some(cr)
    ensures r(t, q - {slot})
    ensures t == s.(nodes := s.nodes.(work := s.nodes.work[slot := Sync(PosOf(s.nodes, slot), cr)]))
  {
    t := Apply(s, Start(slot));
    Continues(r, s, q, Start(slot), q - {slot});
  }

  lemma Acts(r: Reached, s: State, q: set<Slot>, slot: Slot, f: Faults, e: Effect) returns (t: State)
    requires r(s, q) && WorkOf(s.nodes, slot).Sync? && Truthful(Act(slot, f, false))
    requires SyncOf(slot.kind, DiskOf(s.nodes, slot.node), slot.name, WorkOf(s.nodes, slot).at,
        WorkOf(s.nodes, slot).view, f) == e
    requires slot.kind == KVolume ==> e.work.Commit?
    ensures r(t, q)
    ensures var disks, work := s.nodes.disks[slot.node := e.store], s.nodes.work[slot := e.work];
            t == s.(nodes := s.nodes.(disks := disks, work := work))
  {
    t := Apply(s, Act(slot, f, false));
    ExtendQuiet(r, s, q, Act(slot, f, false), t);
  }

  // ---- steps that write a volume's resource -------------------------------------------------------------

  /** The new version keeps the owner, or the key is drained on the node of the owner before. */
  ghost predicate Orderly(s: State, q: set<Slot>, v: string, after: Option<CR>) {
    forall node :: PreviousOwner(Hist(s.server.vols, v), node) && !OwnedBy(after, node) ==>
        Drained(s, q, Slot(KVolume, node, v))
  }

  lemma ExtendWrite(r: Reached, s: State, q: set<Slot>, step: Step, t: State, rq: Request)
    requires r(s, q) && Apply(s, step) == t && Quiet(s, step) && !step.Act? && RequestOf(s, step) == rq
    requires Accepts(s.server, rq) && rq.kind == KVolume && Orderly(s, q, rq.name, Stored(s.server, rq))
    ensures r(t, q)
  {
    forall slot | GivesAway(s, step, slot) && PreviousOwner(HistOf(s.server, slot), slot.node)
      ensures Drained(s, q, slot)
    {
      Served(s.server, rq, slot);
      assert slot == Slot(KVolume, slot.node, rq.name);
    }
    QuietQueue(s, q, step);
    Continues(r, s, q, step, q);
  }

  lemma WritesVol(r: Reached, s: State, q: set<Slot>, h: nat, m: Move) returns (t: State)
    requires r(s, q) && h in s.ctl.calls && !Locking(s.ctl.calls[h].pc)
    requires HandlerMove(s, s.ctl.calls[h], false, false) == m && Accepts(s.server, m.request)
    requires m.request.kind == KVolume
    requires Orderly(s, q, m.request.name, Stored(s.server, m.request))
    ensures r(t, q)
    ensures t == s.(server := Serve(s.server, m.request), ctl := s.ctl.(calls := s.ctl.calls[h := m.call]))
  {
    t := Apply(s, Advance(h, false, false));
    ExtendWrite(r, s, q, Advance(h, false, false), t, m.request);
  }

  function WriteOf(s: State, slot: Slot): Request
    requires WorkOf(s.nodes, slot).Commit?
  {
    Update(slot.kind, slot.name, Written(WorkOf(s.nodes, slot).view, slot.node, WorkOf(s.nodes, slot).verdict))
  }

  lemma Finishes(r: Reached, s: State, q: set<Slot>, slot: Slot) returns (t: State)
    requires r(s, q) && WorkOf(s.nodes, slot).Commit? && Accepts(s.server, WriteOf(s, slot))
    requires slot.kind == KVolume ==> Orderly(s, q, slot.name, Stored(s.server, WriteOf(s, slot)))
    ensures r(t, q)
    ensures t == s.(server := Serve(s.server, WriteOf(s, slot)), nodes := s.nodes.(work := s.nodes.work[slot := Idle]))
  {
    t := Apply(s, Finish(slot, false));
    if slot.kind == KVolume { ExtendWrite(r, s, q, Finish(slot, false), t, WriteOf(s, slot)); }
    else { ExtendQuiet(r, s, q, Finish(slot, false), t); }
  }

  /** Somebody deletes a resource, or the server's own finalizer is collected. */
  lemma Deletes(r: Reached, s: State, q: set<Slot>, kind: Kind, name: string) returns (t: State)
    requires r(s, q) && CurOf(s.server, kind, name).Some?
    requires kind == KVolume ==> Orderly(s, q, name, Stored(s.server, Delete(kind, name)))
    ensures r(t, q) && t == s.(server := Serve(s.server, Delete(kind, name)))
  {
    t := Apply(s, UserDelete(kind, name));
    if kind == KVolume { ExtendWrite(r, s, q, UserDelete(kind, name), t, Delete(kind, name)); }
    else { ExtendQuiet(r, s, q, UserDelete(kind, name), t); }
  }

  function CollectOf(s: State, v: string): Request {
    EditFinalizers(s.server, KVolume, v, Remove(FinalizersOf(Cur(s.server.vols, v)), ForegroundDeletion))
  }

  lemma Collects(r: Reached, s: State, q: set<Slot>, v: string) returns (t: State)
    requires r(s, q) && Accepts(s.server, CollectOf(s, v))
    requires Orderly(s, q, v, Stored(s.server, CollectOf(s, v)))
    ensures r(t, q) && t == s.(server := Serve(s.server, CollectOf(s, v)))
  {
    t := Apply(s, Collect(KVolume, v));
    ExtendWrite(r, s, q, Collect(KVolume, v), t, CollectOf(s, v));
  }
}
