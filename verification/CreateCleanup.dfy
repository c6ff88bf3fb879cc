/**
 * CreateVolume deletes volumes too: after its last attempt fails or time runs out. What it deletes
 * has only the snapshots it had when the call took the name; and it is a volume that was alive then
 * exactly when the call failed to read it.
 */
module CreateCleanup {
  import opened Base
  import opened Api
  import opened Cluster
  import opened Consistency
  import opened DeleteSafety

  /** Handler h is the given CreateVolume call, somewhere in its body. */
  ghost predicate Creating(s: State, h: nat, op: Op) {
    && op.CreateVolumeOp? && h in s.ctl.calls && s.ctl.calls[h].op == op && InBody(s.ctl.calls[h].pc)
  }

  ghost predicate Finished(s: State, h: nat, op: Op) {
    h in s.ctl.calls && s.ctl.calls[h].op == op && s.ctl.calls[h].pc == Done
  }

  /** Every snapshot the volume has now it had before. */
  ghost predicate NoNewSnaps(before: Server, after: Server, v: string) {
    forall k :: Labelled(after, k, v) ==> Labelled(before, k, v)
  }

  /** While the call holds the volume's name, nobody gives the volume a snapshot. */
  lemma HeldStep(s: State, step: Step, h: nat, op: Op)
    requires Safe(s) && Creating(s, h, op)
    ensures NoNewSnaps(s.server, ServerAfter(s, step), op.volume)
  {
    assert CallLocks(s.ctl, h, s.ctl.calls[h]);
    if step.Advance? && step.h in s.ctl.calls { assert CallLocks(s.ctl, step.h, s.ctl.calls[step.h]); }
    forall k ensures Labelled(ServerAfter(s, step), k, op.volume) ==> Labelled(s.server, k, op.volume) {
      SnapEffect(s, step, k);
    }
  }

  lemma CallStays(s: State, step: Step, h: nat, op: Op)
    requires step != CrashController
    ensures Creating(s, h, op) ==> Creating(Apply(s, step), h, op) || Finished(Apply(s, step), h, op)
    ensures Finished(s, h, op) ==> Finished(Apply(s, step), h, op)
  {
  }

  lemma {:induction false} HeldRun(s: State, steps: seq<Step>, h: nat, op: Op)
    requires Safe(s) && Creating(s, h, op) && CrashController !in steps
    ensures var t := Run(s, steps);
            Safe(t) && ((Creating(t, h, op) && NoNewSnaps(s.server, t.server, op.volume)) || Finished(t, h, op))
  {
    if steps != [] {
      var k := |steps| - 1;
      HeldRun(s, steps[..k], h, op);
      var u := Run(s, steps[..k]);
      SafeStep(u, steps[k]);
      CallStays(u, steps[k], h, op);
      if Creating(u, h, op) { HeldStep(u, steps[k], h, op); }
    }
  }

  /** Once the call is on its way out it deletes nothing. */
  ghost predicate Leaving(s: State, h: nat, op: Op) {
    h in s.ctl.calls && s.ctl.calls[h].op == op && s.ctl.calls[h].pc in {UnlockVol, Done}
  }

  lemma LeavingStep(s: State, step: Step, h: nat, op: Op)
    requires op.CreateVolumeOp? && step != CrashController && Leaving(s, h, op)
    ensures Leaving(Apply(s, step), h, op)
  {
  }

  lemma {:induction false} LeavingRun(s: State, steps: seq<Step>, h: nat, op: Op)
    requires op.CreateVolumeOp? && CrashController !in steps && Leaving(s, h, op)
    ensures Leaving(Run(s, steps), h, op)
  {
    if steps != [] {
      LeavingRun(s, steps[..|steps| - 1], h, op);
      LeavingStep(Run(s, steps[..|steps| - 1]), steps[|steps| - 1], h, op);
    }
  }

  ghost predicate AtPrecheck(s: State, h: nat, op: Op) { Creating(s, h, op) && s.ctl.calls[h].pc == Precheck }

  ghost predicate AtCleanup(s: State, h: nat, op: Op) { Creating(s, h, op) && s.ctl.calls[h].pc == DelVol }

  predicate LiveVolume(sv: Server, v: string) { Cur(sv.vols, v).Some? && !Cur(sv.vols, v).value.terminating }

  lemma PrecheckMoves(s: State, h: nat, op: Op, fails: bool, timeout: bool)
    requires AtPrecheck(s, h, op)
    ensures var t := Apply(s, Advance(h, fails, timeout));
            && t.server == s.server && t.nodes == s.nodes && t.ctl.locks == s.ctl.locks
            && (op.plan == [] || (LiveVolume(s.server, op.volume) && !fails) ==> Leaving(t, h, op))
            && (fails && op.plan != [] ==> t.ctl.calls == s.ctl.calls[h := s.ctl.calls[h].(pc := ProvGet(0))])
  {
  }

  /**
   * In every run: take a CreateVolume call at its precheck, name held, and let anything happen. If
   * the call comes to its clean-up delete, every snapshot of the volume was already there at the
   * precheck; and if the volume was alive at the precheck, then reading it had failed.
   */
  lemma CleanupSafe(s0: State, before: seq<Step>, h: nat, op: Op, fails: bool, timeout: bool, after: seq<Step>)
    requires Initial(s0) && AtPrecheck(Run(s0, before), h, op) && CrashController !in after
    requires AtCleanup(Run(Apply(Run(s0, before), Advance(h, fails, timeout)), after), h, op)
    ensures NoNewSnaps(
        Run(s0, before).server,
        Run(Apply(Run(s0, before), Advance(h, fails, timeout)), after).server, op.volume)
    ensures LiveVolume(Run(s0, before).server, op.volume) ==> fails
  {
    var s := Run(s0, before);
    var t := Apply(s, Advance(h, fails, timeout));
    SafeRun(s0, before);
    SafeStep(s, Advance(h, fails, timeout));
    PrecheckMoves(s, h, op, fails, timeout);
    CallStays(s, Advance(h, fails, timeout), h, op);
    if LiveVolume(s.server, op.volume) && !fails { LeavingRun(t, after, h, op); }
    if Creating(t, h, op) { HeldRun(t, after, h, op); } else { FinishedRun(t, after, h, op); }
  }

  lemma {:induction false} FinishedRun(s: State, steps: seq<Step>, h: nat, op: Op)
    requires CrashController !in steps && Finished(s, h, op)
    ensures Finished(Run(s, steps), h, op)
  {
    if steps != [] {
      FinishedRun(s, steps[..|steps| - 1], h, op);
      CallStays(Run(s, steps[..|steps| - 1]), steps[|steps| - 1], h, op);
    }
  }

  // ---- the failed read is enough ----------------------------------------------------------------------

  /** From here the call can come to delete the volume while it is alive. */
  ghost predicate CanDeleteLive(s: State, h: nat, op: Op) {
    exists steps :: DeletesLive(s, h, op, steps)
  }

  ghost predicate DeletesLive(s: State, h: nat, op: Op, steps: seq<Step>) {
    && CrashController !in steps && AtCleanup(Run(s, steps), h, op) && LiveVolume(Run(s, steps).server, op.volume)
  }

  /** ProvisionVolume reads the live volume and overwrites it. */
  lemma Overwrites(s: State, h: nat, op: Op)
    requires Consistent(s) && Creating(s, h, op) && s.ctl.calls[h].pc == ProvGet(0) && op.plan != []
    requires LiveVolume(s.server, op.volume)
    ensures var next := Advance(h, false, false);
            var t := Apply(Apply(s, next), next);
            Creating(t, h, op) && t.ctl.calls[h].pc == Poll(0) && LiveVolume(t.server, op.volume)
  {
    var next := Advance(h, false, false);
    var s1 := Apply(s, next);
    var cr := Cur(s.server.vols, op.volume).value;
    assert s1.server == s.server;
    assert s1.ctl.calls[h] == s.ctl.calls[h].(copy := Some(cr), pc := ProvWrite(0));
    var rq := Provisioned(s1.ctl.calls[h], op.plan[0]);
    assert Accepts(s1.server, rq) && RequestOf(s1, next) == rq;
    Served(s1.server, rq, Slot(KVolume, "", op.volume));
  }

  lemma TimesOut(s: State, h: nat, op: Op)
    requires Creating(s, h, op) && s.ctl.calls[h].pc == Poll(0) && !IsClone(op.plan) && LiveVolume(s.server, op.volume)
    ensures var t := Apply(s, Advance(h, false, true)); AtCleanup(t, h, op) && LiveVolume(t.server, op.volume)
  {
  }

  /** A failed read, then a timeout. */
  lemma FailedReadDeletes(s: State, h: nat, op: Op)
    requires Consistent(s) && Creating(s, h, op) && s.ctl.calls[h].pc == ProvGet(0)
    requires op.plan != [] && !IsClone(op.plan) && LiveVolume(s.server, op.volume)
    ensures CanDeleteLive(s, h, op)
  {
    var next, late := Advance(h, false, false), Advance(h, false, true);
    Overwrites(s, h, op);
    TimesOut(Apply(Apply(s, next), next), h, op);
    var steps := RunThree(s, next, next, late);
    assert DeletesLive(s, h, op, steps);
  }

  lemma RunThree(s: State, a: Step, b: Step, c: Step) returns (steps: seq<Step>)
    ensures Run(s, steps) == Apply(Apply(Apply(s, a), b), c) && forall x :: x in steps <==> x == a || x == b || x == c
  {
    RunSnoc(s, [], a);
    RunSnoc(s, [] + [a], b);
    RunSnoc(s, [] + [a] + [b], c);
    steps := [] + [a] + [b] + [c];
  }

  lemma LeavingDeletesNothing(s: State, h: nat, op: Op)
    requires op.CreateVolumeOp? && Leaving(s, h, op)
    ensures !CanDeleteLive(s, h, op)
  {
    forall steps | CrashController !in steps ensures !AtCleanup(Run(s, steps), h, op) { LeavingRun(s, steps, h, op); }
  }

  /** A clone has no clean-up. */
  ghost predicate Cloning(s: State, h: nat, op: Op) {
    h in s.ctl.calls && s.ctl.calls[h].op == op && s.ctl.calls[h].pc != DelVol
  }

  lemma CloningStep(s: State, step: Step, h: nat, op: Op)
    requires op.CreateVolumeOp? && IsClone(op.plan) && step != CrashController && Cloning(s, h, op)
    ensures Cloning(Apply(s, step), h, op)
  {
  }

  lemma {:induction false} CloningRun(s: State, steps: seq<Step>, h: nat, op: Op)
    requires op.CreateVolumeOp? && IsClone(op.plan) && CrashController !in steps && Cloning(s, h, op)
    ensures Cloning(Run(s, steps), h, op)
  {
    if steps != [] {
      CloningRun(s, steps[..|steps| - 1], h, op);
      CloningStep(Run(s, steps[..|steps| - 1]), steps[|steps| - 1], h, op);
    }
  }

  lemma CloneDeletesNothing(s: State, h: nat, op: Op)
    requires op.CreateVolumeOp? && IsClone(op.plan) && Cloning(s, h, op)
    ensures !CanDeleteLive(s, h, op)
  {
    forall steps | CrashController !in steps ensures !AtCleanup(Run(s, steps), h, op) { CloningRun(s, steps, h, op); }
  }

  /**
   * A call that finds the volume alive can still come to delete it exactly when its read of the
   * volume fails, and it has nodes to try and is no clone: ProvisionVolume then overwrites the
   * volume, and a timeout deletes it.
   */
  lemma CanDeleteLiveIff(s0: State, before: seq<Step>, h: nat, op: Op, fails: bool)
    requires Initial(s0) && AtPrecheck(Run(s0, before), h, op) && LiveVolume(Run(s0, before).server, op.volume)
    ensures CanDeleteLive(Apply(Run(s0, before), Advance(h, fails, false)), h, op)
       <==> fails && op.plan != [] && !IsClone(op.plan)
  {
    var s := Run(s0, before);
    var t := Apply(s, Advance(h, fails, false));
    PrecheckMoves(s, h, op, fails, false);
    if !fails || op.plan == [] {
      LeavingDeletesNothing(t, h, op);
    } else if IsClone(op.plan) {
      CloneDeletesNothing(t, h, op);
    } else {
      ConsistentRun(s0, before);
      ConsistentStep(s, Advance(h, true, false));
      FailedReadDeletes(t, h, op);
    }
  }
}
