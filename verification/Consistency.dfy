/** What every step keeps about versions and about the copies that workers and handlers hold. */
module Consistency {
  import opened Base
  import opened Resource
  import opened Api
  import opened Cluster

  ghost predicate OrderedServer(sv: Server) {
    Ordered(sv.vols, sv.clock) && Ordered(sv.snaps, sv.clock)
  }

  /** A worker's copy is a version its informer has already delivered. */
  ghost predicate WorkInv(sv: Server, n: Nodes) {
    && (forall slot {:trigger PosOf(n, slot)} :: PosOf(n, slot) < |HistOf(sv, slot)|)
    && (forall slot {:trigger WorkOf(n, slot)} :: WorkOf(n, slot) != Idle ==>
          && WorkOf(n, slot).at <= PosOf(n, slot)
          && HistOf(sv, slot)[WorkOf(n, slot).at] == Some(WorkOf(n, slot).view))
  }

  /** A handler's copy of a volume is a version the server once had. */
  ghost predicate CopyInv(sv: Server, ctl: Controller) {
    forall h :: h in ctl.calls ==> KnownCopy(sv, ctl.calls[h])
  }

  ghost predicate KnownCopy(sv: Server, c: Call) {
    c.copy.Some? && !c.op.DeleteSnapshotOp? ==> Known(sv.vols, sv.clock, c.op.volume, c.copy.value)
  }

  ghost predicate Consistent(s: State) {
    OrderedServer(s.server) && WorkInv(s.server, s.nodes) && CopyInv(s.server, s.ctl)
  }

  lemma ServeOrderedOne(sv: Server, rq: Request, slot: Slot)
    requires OrderedServer(sv)
    ensures OrderedHist(HistOf(Serve(sv, rq), slot), Serve(sv, rq).clock)
  {
    Served(sv, rq, slot);
    assert OrderedHist(HistOf(sv, slot), sv.clock);
  }

  lemma ServeOrdered(sv: Server, rq: Request)
    requires OrderedServer(sv)
    ensures OrderedServer(Serve(sv, rq))
  {
    forall k ensures OrderedHist(Hist(Serve(sv, rq).vols, k), Serve(sv, rq).clock) {
      ServeOrderedOne(sv, rq, Slot(KVolume, "", k));
    }
    forall k ensures OrderedHist(Hist(Serve(sv, rq).snaps, k), Serve(sv, rq).clock) {
      ServeOrderedOne(sv, rq, Slot(KSnapshot, "", k));
    }
  }

  lemma ServeKnown(sv: Server, rq: Request, k: string, cr: CR)
    requires Known(sv.vols, sv.clock, k, cr)
    ensures Known(Serve(sv, rq).vols, Serve(sv, rq).clock, k, cr)
  {
    Served(sv, rq, Slot(KVolume, "", k));
  }

  /** A conflicting write is refused: an accepted one was made from the current version. */
  lemma FreshCopy(s: State, slot: Slot)
    requires Consistent(s) && WorkOf(s.nodes, slot) != Idle
    requires CurOf(s.server, slot.kind, slot.name).Some?
    requires CurOf(s.server, slot.kind, slot.name).value.version == WorkOf(s.nodes, slot).view.version
    ensures CurOf(s.server, slot.kind, slot.name).value == WorkOf(s.nodes, slot).view
    ensures WorkOf(s.nodes, slot).at == PosOf(s.nodes, slot) == |HistOf(s.server, slot)| - 1
  {
    var h := HistOf(s.server, slot);
    assert OrderedHist(h, s.server.clock);
    assert PosOf(s.nodes, slot) < |h|;
    assert h[WorkOf(s.nodes, slot).at].Some? && h[|h| - 1].Some?;
  }

  lemma ConsistentStep(s: State, step: Step)
    requires Consistent(s)
    ensures Consistent(Apply(s, step))
  {
    ServeOrdered(s.server, RequestOf(s, step));
    WorkStep(s, step);
    ServeWork(s.server, RequestOf(s, step), NodesAfter(s, step));
    CopyStep(s, step);
  }

  lemma WorkStep(s: State, step: Step)
    requires WorkInv(s.server, s.nodes)
    ensures WorkInv(s.server, NodesAfter(s, step))
  {
    var n, n' := s.nodes, NodesAfter(s, step);
    forall slot ensures PosOf(n', slot) < |HistOf(s.server, slot)| {
      assert PosOf(n, slot) < |HistOf(s.server, slot)|;
    }
    forall slot | WorkOf(n', slot) != Idle
      ensures WorkOf(n', slot).at <= PosOf(n', slot)
      ensures HistOf(s.server, slot)[WorkOf(n', slot).at] == Some(WorkOf(n', slot).view)
    {
      assert PosOf(n, slot) < |HistOf(s.server, slot)|;
      assert WorkOf(n, slot) != Idle ==> WorkOf(n, slot).at <= PosOf(n, slot);
    }
  }

  lemma ServeWork(sv: Server, rq: Request, n: Nodes)
    requires WorkInv(sv, n)
    ensures WorkInv(Serve(sv, rq), n)
  {
    forall slot ensures HistOf(sv, slot) <= HistOf(Serve(sv, rq), slot) {
      Served(sv, rq, slot);
    }
    forall slot ensures PosOf(n, slot) < |HistOf(Serve(sv, rq), slot)| {
      assert HistOf(sv, slot) <= HistOf(Serve(sv, rq), slot);
    }
    forall slot | WorkOf(n, slot) != Idle
      ensures HistOf(Serve(sv, rq), slot)[WorkOf(n, slot).at] == Some(WorkOf(n, slot).view)
    {
      assert PosOf(n, slot) < |HistOf(sv, slot)|;
      assert HistOf(sv, slot) <= HistOf(Serve(sv, rq), slot);
    }
  }

  lemma CopyStep(s: State, step: Step)
    requires CopyInv(s.server, s.ctl) && OrderedServer(s.server)
    ensures CopyInv(ServerAfter(s, step), ControllerAfter(s, step))
  {
    var ctl' := ControllerAfter(s, step);
    forall h | h in ctl'.calls ensures KnownCopy(ServerAfter(s, step), ctl'.calls[h]) {
      var c := ctl'.calls[h];
      assert KnownCopy(s.server, c) by {
        if h in s.ctl.calls {
          assert KnownCopy(s.server, s.ctl.calls[h]);
          if step.Advance? && step.h == h { MoveKnown(s, s.ctl.calls[h], step.fails, step.timeout); }
        }
      }
      if c.copy.Some? && !c.op.DeleteSnapshotOp? {
        ServeKnown(s.server, RequestOf(s, step), c.op.volume, c.copy.value);
      }
    }
  }

  lemma MoveKnown(s: State, c: Call, fails: bool, timeout: bool)
    requires KnownCopy(s.server, c) && OrderedServer(s.server)
    ensures KnownCopy(s.server, HandlerMove(s, c, fails, timeout).call)
  {
    var h := Hist(s.server.vols, c.op.volume);
    assert OrderedHist(h, s.server.clock) && h[|h| - 1] == Cur(s.server.vols, c.op.volume);
  }

  lemma {:induction false} ConsistentRun(s: State, steps: seq<Step>)
    requires Initial(s)
    ensures Consistent(Run(s, steps))
  {
    if steps != [] {
      ConsistentRun(s, steps[..|steps| - 1]);
      ConsistentStep(Run(s, steps[..|steps| - 1]), steps[|steps| - 1]);
    }
  }
}
