/**
 * CreateVolume's attempts, in every run: nodes are tried in the order planned, none is passed over, the
 * next is tried only after the one before has failed, and the clean-up comes only after the last has
 * failed or time has run out.
 */
module Attempts {
  import opened Base
  import opened Resource
  import opened Api
  import opened Cluster

  /** The call is at its i-th attempt. */
  predicate At(pc: Pc, i: nat) { pc == ProvGet(i) || pc == ProvWrite(i) || pc == Poll(i) }

  /** The resource is not as the call read it, so that the server refuses the call's write. */
  predicate Conflicts(sv: Server, c: Call) {
    match c.copy
    case None => Cur(sv.vols, c.op.volume).Some?
    case Some(cr) => Cur(sv.vols, c.op.volume).None? || Cur(sv.vols, c.op.volume).value.version != cr.version
  }

  ghost predicate Own(s: State, step: Step, h: nat, op: Op) {
    && op.CreateVolumeOp? && step.Advance? && step.h == h && h in s.ctl.calls && s.ctl.calls[h].op == op
  }

  /** The i-th attempt fails: its write does, or the poll finds no volume or a failed one. */
  ghost predicate GivesUp(s: State, step: Step, h: nat, op: Op, i: nat) {
    && Own(s, step, h, op)
    && var c, cur := s.ctl.calls[h], Cur(s.server.vols, op.volume);
       || (c.pc == ProvWrite(i) && (step.fails || Conflicts(s.server, c)))
       || (c.pc == Poll(i) && !step.timeout && (step.fails || cur.None? || cur.value.phase == Failed))
  }

  ghost predicate TimesOut(s: State, step: Step, h: nat, op: Op) {
    Own(s, step, h, op) && s.ctl.calls[h].pc.Poll? && step.timeout
  }

  ghost predicate GaveUp(s: State, steps: seq<Step>, h: nat, op: Op, i: nat) {
    exists m :: 0 <= m < |steps| && GivesUp(Run(s, steps[..m]), steps[m], h, op, i)
  }

  ghost predicate TimedOut(s: State, steps: seq<Step>, h: nat, op: Op) {
    exists m :: 0 <= m < |steps| && TimesOut(Run(s, steps[..m]), steps[m], h, op)
  }

  /** Nothing is left to try. */
  ghost predicate Exhausted(s: State, steps: seq<Step>, h: nat, op: Op)
    requires op.CreateVolumeOp?
  {
    TimedOut(s, steps, h, op) || forall i :: 0 <= i < |op.plan| ==> GaveUp(s, steps, h, op, i)
  }

  ghost predicate InOrder(s: State, steps: seq<Step>, h: nat, op: Op, c: Call)
    requires op.CreateVolumeOp?
  {
    && c.op == op
    && (forall i: nat :: At(c.pc, i) ==> i < |op.plan| && forall j :: 0 <= j < i ==> GaveUp(s, steps, h, op, j))
    && (c.pc == DelVol ==> !IsClone(op.plan) && Exhausted(s, steps, h, op))
    && (c.pc in {LockVol, Precheck, UnlockVol, Done, DelVol} || exists i: nat :: At(c.pc, i))
  }

  // ---- one step -------------------------------------------------------------------------------------------

  /** A failed attempt is followed by the next, and the last by the clean-up, which a clone has not. */
  lemma GivesUpGoesOn(s: State, step: Step, h: nat, op: Op, i: nat)
    requires GivesUp(s, step, h, op, i) && i < |op.plan|
    ensures var c := Apply(s, step).ctl.calls[h];
            && Apply(s, step).server == s.server && c.op == op
            && c.pc == if i + 1 < |op.plan| then ProvGet(i + 1) else if IsClone(op.plan) then UnlockVol else DelVol
  {
    assert HandlerMove(s, s.ctl.calls[h], step.fails, step.timeout)
        == CreateVolumeMove(s.server, s.ctl.calls[h], step.fails, step.timeout);
  }

  /** An attempt that has not failed goes on: it reads, writes its own node's spec, and polls until Ready. */
  lemma AttemptGoesOn(s: State, step: Step, h: nat, op: Op, i: nat)
    requires Own(s, step, h, op) && At(s.ctl.calls[h].pc, i) && i < |op.plan| && !GivesUp(s, step, h, op, i)
    ensures var c, t, v := s.ctl.calls[h], Apply(s, step), op.volume;
            var c', cur := t.ctl.calls[h], Cur(s.server.vols, v);
            c'.op == op &&
            match c.pc
            case ProvGet(_) =>
              c'.pc == ProvWrite(i) && t.server == s.server && c'.copy == if step.fails then None else cur
            case ProvWrite(_) => c'.pc == Poll(i) && RequestOf(s, step) != NoRequest
            case _ =>
              && t.server == s.server
              && c'.pc == if step.timeout then (if IsClone(op.plan) then UnlockVol else DelVol)
                          else if cur.value.phase == Ready then UnlockVol else Poll(i)
  {
    assert HandlerMove(s, s.ctl.calls[h], step.fails, step.timeout)
        == CreateVolumeMove(s.server, s.ctl.calls[h], step.fails, step.timeout);
  }

  /** What the attempt writes: its own spec over the version it read, or a new resource. */
  lemma AttemptWrites(s: State, step: Step, h: nat, op: Op, i: nat)
    requires Own(s, step, h, op) && s.ctl.calls[h].pc == ProvWrite(i) && i < |op.plan| && !step.fails
    requires !Conflicts(s.server, s.ctl.calls[h])
    ensures var cur, sv := s.ctl.calls[h].copy, s.server;
            var made := CR(0, op.plan[i], Labels("", op.src, ""), Pending, [], false, false);
            RequestOf(s, step) == (if cur.None? then Create(KVolume, op.volume, made)
                                   else Update(KVolume, op.volume, cur.value.(spec := op.plan[i], phase := Pending)))
  {
    assert HandlerMove(s, s.ctl.calls[h], step.fails, step.timeout)
        == CreateVolumeMove(s.server, s.ctl.calls[h], step.fails, step.timeout);
  }

  /**
   * Before the first attempt: a volume the call finds alive is left as it is, and one that it cannot
   * read, or that is gone or going, is provisioned, if there is a node to try.
   */
  lemma PrecheckDecides(s: State, step: Step, h: nat, op: Op)
    requires Own(s, step, h, op) && s.ctl.calls[h].pc == Precheck
    ensures var t, cur := Apply(s, step), Cur(s.server.vols, op.volume);
            && t.server == s.server
            && t.ctl.calls[h].pc == if (step.fails || cur.None? || cur.value.terminating) && op.plan != []
                                    then ProvGet(0) else UnlockVol
  {
  }

  /** After the last: the volume is told to go, unless that fails too. */
  lemma CleanupDeletes(s: State, step: Step, h: nat, op: Op)
    requires Own(s, step, h, op) && s.ctl.calls[h].pc == DelVol
    ensures var after := Cur(Apply(s, step).server.vols, op.volume);
            && Apply(s, step).ctl.calls[h].pc == UnlockVol
            && (!step.fails && Cur(s.server.vols, op.volume).Some? ==> after.Some? && after.value.terminating)
            && (step.fails || Cur(s.server.vols, op.volume).None? ==> Apply(s, step).server == s.server)
  {
  }

  /** The other steps of the call: its locks, the precheck, the clean-up. */
  lemma OtherOwn(s: State, step: Step, h: nat, op: Op)
    requires Own(s, step, h, op) && s.ctl.calls[h].pc in {LockVol, Precheck, UnlockVol, Done, DelVol}
    ensures var c, c' := s.ctl.calls[h], Apply(s, step).ctl.calls[h];
            && c'.op == op
            && c'.pc in {LockVol, Precheck, ProvGet(0), UnlockVol, Done, DelVol}
            && (c'.pc == ProvGet(0) && op.plan == [] ==> IsClone(op.plan))
            && (c'.pc == DelVol ==> c.pc == DelVol)
  {
  }

  lemma StillDone(s: State, steps: seq<Step>, step: Step, h: nat, op: Op, i: nat)
    ensures GaveUp(s, steps, h, op, i) ==> GaveUp(s, steps + [step], h, op, i)
    ensures TimedOut(s, steps, h, op) ==> TimedOut(s, steps + [step], h, op)
    ensures GivesUp(Run(s, steps), step, h, op, i) ==> GaveUp(s, steps + [step], h, op, i)
    ensures TimesOut(Run(s, steps), step, h, op) ==> TimedOut(s, steps + [step], h, op)
  {
    var all := steps + [step];
    assert all[..|steps|] == steps;
    if GaveUp(s, steps, h, op, i) {
      var m :| 0 <= m < |steps| && GivesUp(Run(s, steps[..m]), steps[m], h, op, i);
      assert all[..m] == steps[..m] && all[m] == steps[m];
    }
    if TimedOut(s, steps, h, op) {
      var m :| 0 <= m < |steps| && TimesOut(Run(s, steps[..m]), steps[m], h, op);
      assert all[..m] == steps[..m] && all[m] == steps[m];
    }
  }

  lemma StaysInOrder(s: State, steps: seq<Step>, step: Step, h: nat, op: Op, c: Call)
    requires op.CreateVolumeOp? && InOrder(s, steps, h, op, c)
    ensures InOrder(s, steps + [step], h, op, c)
  {
    forall i ensures GaveUp(s, steps, h, op, i) ==> GaveUp(s, steps + [step], h, op, i) {
      StillDone(s, steps, step, h, op, i);
    }
    StillDone(s, steps, step, h, op, 0);
  }

  lemma NextInOrder(s: State, steps: seq<Step>, h: nat, op: Op, i: nat, c: Call)
    requires op.CreateVolumeOp? && c.op == op && i < |op.plan|
    requires forall j :: 0 <= j <= i ==> GaveUp(s, steps, h, op, j)
    requires c.pc == if i + 1 < |op.plan| then ProvGet(i + 1) else if IsClone(op.plan) then UnlockVol else DelVol
    ensures InOrder(s, steps, h, op, c)
  {
    if i + 1 < |op.plan| { assert At(c.pc, i + 1); }
  }

  lemma SameInOrder(s: State, steps: seq<Step>, h: nat, op: Op, i: nat, c: Call)
    requires op.CreateVolumeOp? && c.op == op && i < |op.plan| && forall j :: 0 <= j < i ==> GaveUp(s, steps, h, op, j)
    requires At(c.pc, i) || c.pc == UnlockVol || (c.pc == DelVol && !IsClone(op.plan) && TimedOut(s, steps, h, op))
    ensures InOrder(s, steps, h, op, c)
  {
  }

  lemma StillGaveUp(s: State, steps: seq<Step>, step: Step, h: nat, op: Op, i: nat)
    requires forall j :: 0 <= j < i ==> GaveUp(s, steps, h, op, j)
    ensures forall j :: 0 <= j < i ==> GaveUp(s, steps + [step], h, op, j)
  {
    forall j | 0 <= j < i ensures GaveUp(s, steps + [step], h, op, j) { StillDone(s, steps, step, h, op, j); }
  }

  lemma AttemptStep(u: State, step: Step, h: nat, op: Op, i: nat) returns (c: Call)
    requires Own(u, step, h, op) && At(u.ctl.calls[h].pc, i) && i < |op.plan|
    ensures h in Apply(u, step).ctl.calls && c == Apply(u, step).ctl.calls[h] && c.op == op
    ensures if GivesUp(u, step, h, op, i)
            then c.pc == if i + 1 < |op.plan| then ProvGet(i + 1) else if IsClone(op.plan) then UnlockVol else DelVol
            else At(c.pc, i) || c.pc == UnlockVol
                 || (c.pc == DelVol && !IsClone(op.plan) && TimesOut(u, step, h, op))
  {
    c := Apply(u, step).ctl.calls[h];
    if GivesUp(u, step, h, op, i) { GivesUpGoesOn(u, step, h, op, i); } else { AttemptGoesOn(u, step, h, op, i); }
  }

  /** The call's own step at an attempt. */
  lemma AttemptInOrder(s: State, steps: seq<Step>, step: Step, h: nat, op: Op, i: nat)
    requires Own(Run(s, steps), step, h, op) && InOrder(s, steps, h, op, Run(s, steps).ctl.calls[h])
    requires At(Run(s, steps).ctl.calls[h].pc, i)
    ensures InOrder(s, steps + [step], h, op, Apply(Run(s, steps), step).ctl.calls[h])
  {
    var u := Run(s, steps);
    StillGaveUp(s, steps, step, h, op, i);
    StillDone(s, steps, step, h, op, i);
    var c := AttemptStep(u, step, h, op, i);
    if GivesUp(u, step, h, op, i) { NextInOrder(s, steps + [step], h, op, i, c); }
    else { SameInOrder(s, steps + [step], h, op, i, c); }
  }

  lemma OwnInOrder(s: State, steps: seq<Step>, step: Step, h: nat, op: Op)
    requires Own(Run(s, steps), step, h, op) && InOrder(s, steps, h, op, Run(s, steps).ctl.calls[h])
    ensures InOrder(s, steps + [step], h, op, Apply(Run(s, steps), step).ctl.calls[h])
  {
    var u := Run(s, steps);
    if i: nat :| At(u.ctl.calls[h].pc, i) {
      AttemptInOrder(s, steps, step, h, op, i);
    } else {
      StaysInOrder(s, steps, step, h, op, u.ctl.calls[h]);
      OtherOwn(u, step, h, op);
      assert At(ProvGet(0), 0);
    }
  }

  // ---- every run ------------------------------------------------------------------------------------------

  /**
   * In every run from a CreateVolume call's beginning: at its i-th attempt it has given up every one
   * before, each because it failed; and when it comes to its clean-up it has given up all of them, or
   * time has run out at one.
   */
  lemma {:induction false} AttemptsInOrder(s: State, steps: seq<Step>, h: nat, op: Op)
    requires op.CreateVolumeOp? && h in s.ctl.calls && s.ctl.calls[h] == Call(op, LockVol, None, {})
    requires CrashController !in steps
    ensures h in Run(s, steps).ctl.calls && InOrder(s, steps, h, op, Run(s, steps).ctl.calls[h])
  {
    if steps != [] {
      var before, step := steps[..|steps| - 1], steps[|steps| - 1];
      var u := Run(s, before);
      AttemptsInOrder(s, before, h, op);
      assert before + [step] == steps;
      if step.Advance? && step.h == h {
        OwnInOrder(s, before, step, h, op);
      } else {
        OthersLeave(u, step, h);
        StaysInOrder(s, before, step, h, op, u.ctl.calls[h]);
      }
    }
  }
}
