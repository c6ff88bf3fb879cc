/**
 * Deleting a volume and its snapshots. Whatever the interleaving of handlers, agents, crashes
 * and outside edits, a DeleteVolume or DeleteSnapshot call deletes a volume only when no snapshot
 * of it is left but the one it has just deleted. A failed CreateVolume deletes volumes too, without
 * looking for snapshots: what holds of that one is in CreateCleanup.
 */
module DeleteSafety {
  import opened Base
  import opened Resource
  import opened Api
  import opened Cluster
  import opened Consistency

  // ---- the locks --------------------------------------------------------------------------

  predicate HoldsVol(c: Call) { InBody(c.pc) || c.pc == LockSnap }
  predicate HoldsSnap(c: Call) { TwoNames(c.op) && (InBody(c.pc) || c.pc == UnlockSnap) }

  ghost predicate Holds(ctl: Controller, h: nat, name: string) {
    name in ctl.locks && ctl.locks[name] == h
  }

  ghost predicate CallLocks(ctl: Controller, h: nat, c: Call) {
    && (c.pc == LockSnap || c.pc == UnlockSnap ==> TwoNames(c.op))
    && (TwoNames(c.op) && InBody(c.pc) ==> c.op.volume != c.op.snapshot)
    && (HoldsVol(c) ==> Holds(ctl, h, c.op.volume))
    && (HoldsSnap(c) ==> Holds(ctl, h, c.op.snapshot))
  }

  ghost predicate LockInv(ctl: Controller) {
    forall h :: h in ctl.calls ==> CallLocks(ctl, h, ctl.calls[h])
  }

  lemma LockStep(s: State, step: Step)
    requires LockInv(s.ctl)
    ensures LockInv(ControllerAfter(s, step))
  {
    var ctl, ctl' := s.ctl, ControllerAfter(s, step);
    forall h | h in ctl'.calls ensures CallLocks(ctl', h, ctl'.calls[h]) {
      if step.Advance? && step.h in ctl.calls {
        assert CallLocks(ctl, step.h, ctl.calls[step.h]);
        if h != step.h { assert CallLocks(ctl, h, ctl.calls[h]); }
      } else if step.Begin? && h == step.h {
      } else if h in ctl.calls {
        assert CallLocks(ctl, h, ctl.calls[h]);
      }
    }
  }

  // ---- what a step does to the snapshots ----------------------------------------------------

  ghost predicate CreatesSnap(s: State, step: Step, k: string, v: string) {
    && step.Advance? && step.h in s.ctl.calls
    && s.ctl.calls[step.h].op.CreateSnapshotOp? && s.ctl.calls[step.h].pc == CreateSnap
    && s.ctl.calls[step.h].op.snapshot == k && s.ctl.calls[step.h].op.volume == v
    && Cur(s.server.snaps, k).None?
  }

  /** The later version has the label of the earlier one, and is terminating if that was. */
  ghost predicate SameSnap(before: Option<CR>, after: CR) {
    && before.Some?
    && after.labels.volume == before.value.labels.volume
    && (before.value.terminating ==> after.terminating)
  }

  lemma FinishSnap(s: State, step: Step, k: string)
    requires Consistent(s) && step.Finish?
    requires var rq := RequestOf(s, step); Accepts(s.server, rq) && rq.kind == KSnapshot && rq.name == k
    ensures Stored(s.server, RequestOf(s, step)).Some? ==>
              SameSnap(Cur(s.server.snaps, k), Stored(s.server, RequestOf(s, step)).value)
  {
    FreshCopy(s, step.slot);
  }

  lemma AdvanceSnap(s: State, step: Step, k: string)
    requires step.Advance?
    requires var rq := RequestOf(s, step); Accepts(s.server, rq) && rq.kind == KSnapshot && rq.name == k
    ensures Stored(s.server, RequestOf(s, step)).Some? ==>
              || SameSnap(Cur(s.server.snaps, k), Stored(s.server, RequestOf(s, step)).value)
              || CreatesSnap(s, step, k, Stored(s.server, RequestOf(s, step)).value.labels.volume)
  {
  }

  lemma OutsideSnap(s: State, step: Step, k: string)
    requires !step.Finish? && !step.Advance?
    requires var rq := RequestOf(s, step); Accepts(s.server, rq) && rq.kind == KSnapshot && rq.name == k
    ensures Stored(s.server, RequestOf(s, step)).Some? ==>
              SameSnap(Cur(s.server.snaps, k), Stored(s.server, RequestOf(s, step)).value)
  {
  }

  /** Labels are for ever, deletion timestamps too, and only CreateSnapshot makes a snapshot. */
  lemma SnapEffect(s: State, step: Step, k: string)
    requires Consistent(s)
    ensures var before, after := Cur(s.server.snaps, k), Cur(ServerAfter(s, step).snaps, k);
            after.Some? ==> SameSnap(before, after.value) || CreatesSnap(s, step, k, after.value.labels.volume)
  {
    var rq := RequestOf(s, step);
    ServedCur(s.server, rq, KSnapshot, k);
    if Cur(ServerAfter(s, step).snaps, k) != Cur(s.server.snaps, k) {
      if step.Finish? { FinishSnap(s, step, k); }
      else if step.Advance? { AdvanceSnap(s, step, k); }
      else { OutsideSnap(s, step, k); }
    }
  }

  // ---- what a handler knows -----------------------------------------------------------------

  predicate Listing(c: Call) {
    || (c.op.DeleteSnapshotOp? && c.pc in {DelSnap, Eligible, DelVol})
    || (c.op.DeleteVolumeOp? && c.pc in {DelVol, MarkGet, MarkUpdate})
  }

  /** While it holds the volume's name, a handler's listing covers every snapshot of the volume. */
  ghost predicate ListCovers(sv: Server, c: Call) {
    && (Listing(c) ==> forall k :: Labelled(sv, k, c.op.volume) ==> k in c.listed)
    && (c.op.DeleteVolumeOp? && c.pc == DelVol ==> c.listed == {})
    && (c.op.DeleteSnapshotOp? && c.pc == DelVol ==> |c.listed| == 1)
  }

  /** DeleteSnapshot's own snapshot is in its listing exactly when the id names its volume. */
  ghost predicate OwnSnapshot(sv: Server, c: Call) {
    c.op.DeleteSnapshotOp? && c.pc in {List, DelSnap, Eligible, DelVol} ==>
      var k := c.op.snapshot;
      && c.copy.Some?
      && var matches := c.copy.value.labels.volume == c.op.volume;
      && (Cur(sv.snaps, k).Some? ==> Cur(sv.snaps, k).value.labels.volume == c.copy.value.labels.volume)
      && (c.pc == DelSnap && k in c.listed ==> matches)
      && (c.pc == DelSnap && Cur(sv.snaps, k).Some? && matches ==> k in c.listed)
      && (c.pc in {Eligible, DelVol} ==> (k in c.listed <==> matches))
      && (c.pc in {Eligible, DelVol} && Cur(sv.snaps, k).Some? ==> Cur(sv.snaps, k).value.terminating)
  }

  ghost predicate Knows(sv: Server, c: Call) { ListCovers(sv, c) && OwnSnapshot(sv, c) }

  ghost predicate Safe(s: State) {
    && Consistent(s) && LockInv(s.ctl)
    && forall h :: h in s.ctl.calls ==> Knows(s.server, s.ctl.calls[h])
  }

  lemma OthersKeepListing(s: State, step: Step, h: nat)
    requires Safe(s) && h in s.ctl.calls && !(step.Advance? && step.h == h)
    ensures ListCovers(ServerAfter(s, step), s.ctl.calls[h])
  {
    var c := s.ctl.calls[h];
    assert CallLocks(s.ctl, h, c);
    forall k ensures !CreatesSnap(s, step, k, c.op.volume) || !Listing(c) {
      if CreatesSnap(s, step, k, c.op.volume) { assert CallLocks(s.ctl, step.h, s.ctl.calls[step.h]); }
    }
    forall k ensures Listing(c) && Labelled(ServerAfter(s, step), k, c.op.volume) ==> k in c.listed {
      SnapEffect(s, step, k);
    }
  }

  lemma OthersKeepSnapshot(s: State, step: Step, h: nat)
    requires Safe(s) && h in s.ctl.calls && !(step.Advance? && step.h == h)
    ensures OwnSnapshot(ServerAfter(s, step), s.ctl.calls[h])
  {
    var c := s.ctl.calls[h];
    assert CallLocks(s.ctl, h, c);
    if c.op.DeleteSnapshotOp? {
      SnapEffect(s, step, c.op.snapshot);
      forall v | CreatesSnap(s, step, c.op.snapshot, v) ensures !HoldsSnap(c) {
        assert CallLocks(s.ctl, step.h, s.ctl.calls[step.h]);
      }
    }
  }

  /** Another handler's step, or an agent's, leaves what this one knows true. */
  lemma OthersKeep(s: State, step: Step, h: nat)
    requires Safe(s) && h in s.ctl.calls && !(step.Advance? && step.h == h)
    ensures Knows(ServerAfter(s, step), s.ctl.calls[h])
  {
    OthersKeepListing(s, step, h);
    OthersKeepSnapshot(s, step, h);
  }

  /** A handler's listing is the one it had, or the one it has just made. */
  lemma ListMoves(s: State, c: Call, fails: bool, timeout: bool)
    requires ListCovers(s.server, c)
    ensures var c' := HandlerMove(s, c, fails, timeout).call;
            && (Listing(c') ==>
                  && !c.op.CreateSnapshotOp?
                  && (c'.listed == ListSnaps(s.server, c.op.volume) || (Listing(c) && c'.listed == c.listed)))
            && (c.op.DeleteVolumeOp? && c'.pc == DelVol ==> c'.listed == {})
            && (c.op.DeleteSnapshotOp? && c'.pc == DelVol ==> |c'.listed| == 1)
  {
  }

  /** Its own step: a listing is complete when it is made. */
  lemma OwnListing(s: State, step: Step)
    requires Safe(s) && step.Advance? && step.h in s.ctl.calls
    ensures ListCovers(ServerAfter(s, step), HandlerMove(s, s.ctl.calls[step.h], step.fails, step.timeout).call)
  {
    var c := s.ctl.calls[step.h];
    assert Knows(s.server, c);
    ListMoves(s, c, step.fails, step.timeout);
    forall k ensures Labelled(ServerAfter(s, step), k, c.op.volume) ==>
                       Labelled(s.server, k, c.op.volume) || c.op.CreateSnapshotOp?
    {
      SnapEffect(s, step, k);
    }
  }

  lemma DeleteTerminates(sv: Server, k: string)
    ensures var after := Cur(Serve(sv, Delete(KSnapshot, k)).snaps, k);
            after.Some? ==> after.value.terminating
  {
  }

  /** DeleteSnapshot keeps track of its snapshot through its own step. */
  lemma Tracks(sv: Server, after: Server, c: Call, fails: bool)
    requires c.op.DeleteSnapshotOp? && OwnSnapshot(sv, c)
    requires var k := c.op.snapshot;
             Cur(after.snaps, k).Some? ==>
               && Cur(sv.snaps, k).Some?
               && Cur(after.snaps, k).value.labels.volume == Cur(sv.snaps, k).value.labels.volume
               && (Cur(sv.snaps, k).value.terminating || (c.pc == DelSnap && !fails) ==>
                     Cur(after.snaps, k).value.terminating)
    ensures OwnSnapshot(after, DeleteSnapshotMove(sv, c, fails).call)
  {
  }

  lemma OwnDelete(s: State, step: Step)
    requires step.Advance? && step.h in s.ctl.calls
    requires s.ctl.calls[step.h].op.DeleteSnapshotOp?
    ensures var c := s.ctl.calls[step.h];
            var after := Cur(ServerAfter(s, step).snaps, c.op.snapshot);
            c.pc == DelSnap && !step.fails && Cur(s.server.snaps, c.op.snapshot).Some? && after.Some? ==>
                after.value.terminating
  {
    DeleteTerminates(s.server, s.ctl.calls[step.h].op.snapshot);
  }

  lemma OwnTracking(s: State, step: Step)
    requires Safe(s) && step.Advance? && step.h in s.ctl.calls
    ensures OwnSnapshot(ServerAfter(s, step), HandlerMove(s, s.ctl.calls[step.h], step.fails, step.timeout).call)
  {
    var c := s.ctl.calls[step.h];
    if c.op.DeleteSnapshotOp? && !Locking(c.pc) {
      assert Knows(s.server, c);
      SnapEffect(s, step, c.op.snapshot);
      OwnDelete(s, step);
      Tracks(s.server, ServerAfter(s, step), c, step.fails);
    }
  }

  lemma SafeStep(s: State, step: Step)
    requires Safe(s)
    ensures Safe(Apply(s, step))
  {
    ConsistentStep(s, step);
    LockStep(s, step);
    var s' := Apply(s, step);
    forall h | h in s'.ctl.calls ensures Knows(s'.server, s'.ctl.calls[h]) {
      if step.Advance? && step.h == h && h in s.ctl.calls { OwnListing(s, step); OwnTracking(s, step); }
      else if h in s.ctl.calls { OthersKeep(s, step, h); }
    }
  }

  lemma {:induction false} SafeRun(s: State, steps: seq<Step>)
    requires Initial(s)
    ensures Safe(Run(s, steps))
  {
    if steps != [] {
      SafeRun(s, steps[..|steps| - 1]);
      SafeStep(Run(s, steps[..|steps| - 1]), steps[|steps| - 1]);
    }
  }

  // ---- the theorems -------------------------------------------------------------------------

  lemma OnlyMember(xs: set<string>, x: string, y: string)
    requires |xs| == 1 && x in xs && y in xs
    ensures x == y
  {
    assert |xs - {x}| == 0;
    assert x != y ==> y in xs - {x};
  }

  /**
   * In every run: when DeleteVolume deletes the volume's resource, no snapshot names the volume.
   */
  lemma DeleteVolumeSafe(s0: State, steps: seq<Step>, h: nat)
    requires Initial(s0) && h in Run(s0, steps).ctl.calls
    requires Run(s0, steps).ctl.calls[h].op.DeleteVolumeOp? && Run(s0, steps).ctl.calls[h].pc == DelVol
    ensures forall k :: !Labelled(Run(s0, steps).server, k, Run(s0, steps).ctl.calls[h].op.volume)
  {
    SafeRun(s0, steps);
    assert Knows(Run(s0, steps).server, Run(s0, steps).ctl.calls[h]);
  }

  /**
   * In every run: when DeleteSnapshot deletes the volume's resource, the listing it acts on is
   * its own snapshot alone exactly when the snapshot it read carries the volume of the request.
   * Then no other snapshot names the volume, and its own is already being deleted.
   */
  lemma DeleteSnapshotSafe(s0: State, steps: seq<Step>, h: nat)
    requires Initial(s0) && h in Run(s0, steps).ctl.calls
    requires Run(s0, steps).ctl.calls[h].op.DeleteSnapshotOp? && Run(s0, steps).ctl.calls[h].pc == DelVol
    ensures var s, c := Run(s0, steps), Run(s0, steps).ctl.calls[h];
            && c.copy.Some?
            && (c.listed == {c.op.snapshot} <==> c.copy.value.labels.volume == c.op.volume)
            && (c.copy.value.labels.volume == c.op.volume ==>
                  forall k :: Labelled(s.server, k, c.op.volume) ==>
                    k == c.op.snapshot && Cur(s.server.snaps, k).value.terminating)
  {
    SafeRun(s0, steps);
    var s, c := Run(s0, steps), Run(s0, steps).ctl.calls[h];
    assert Knows(s.server, c);
    forall k | k in c.listed && c.op.snapshot in c.listed ensures k == c.op.snapshot {
      OnlyMember(c.listed, k, c.op.snapshot);
    }
  }
}
