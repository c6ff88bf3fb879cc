/**
 * A worker has found its dataset gone and is about to say so. When the dataset can be back before the
 * write: exactly when a volume clone of the snapshot's name can act meanwhile.
 */
module EarlyRelease {
  import opened Base
  import opened Resource
  import opened Api
  import opened Cluster
  import opened Consistency
  import opened DeleteSafety
  import opened AgentSafety

  /** Throughout the run the worker has the same release in hand. */
  ghost predicate Holding(s: State, steps: seq<Step>, slot: Slot) {
    forall i :: 0 <= i <= |steps| ==> WorkOf(Run(s, steps[..i]).nodes, slot) == WorkOf(s.nodes, slot)
  }

  /** The write would take the finalizer off while the dataset is on the node. */
  ghost predicate Early(s: State, slot: Slot) {
    && Releasing(s.nodes, slot) && TakesFinalizer(s, slot)
    && Target(slot, WorkOf(s.nodes, slot).view) in DiskOf(s.nodes, slot.node)
  }

  ghost predicate CanReleaseEarly(s: State, slot: Slot) {
    exists steps :: Holding(s, steps, slot) && Early(Run(s, steps), slot)
  }

  /** A clone acts before the write, while the write would still be accepted. */
  ghost predicate Retaken(s: State, slot: Slot, steps: seq<Step>, step: Step) {
    Holding(s, steps, slot) && TakesFinalizer(Run(s, steps), slot) && Recreates(Run(s, steps), step, slot)
  }

  ghost predicate CanBeRetaken(s: State, slot: Slot) {
    exists steps, step :: Retaken(s, slot, steps, step)
  }

  /** The write takes the finalizer off exactly when the resource is as the worker read it, and has it. */
  lemma TakesIff(s: State, slot: Slot)
    requires Sound(s) && Releasing(s.nodes, slot)
    ensures var view := WorkOf(s.nodes, slot).view;
            TakesFinalizer(s, slot)
            <==> CurOf(s.server, slot.kind, slot.name) == Some(view) && ZfsFinalizer in view.finalizers
  {
    var w, cur, step := WorkOf(s.nodes, slot), CurOf(s.server, slot.kind, slot.name), Finish(slot, false);
    assert RequestOf(s, step) == Update(slot.kind, slot.name, Written(w.view, slot.node, Release));
    Served(s.server, RequestOf(s, step), slot);
    assert Established(DiskOf(s.nodes, slot.node), slot, w);
    if Accepts(s.server, RequestOf(s, step)) { FreshCopy(s, slot); }
  }

  /** A copy that is not the current version never is again. */
  lemma StaleStays(s: State, step: Step, kind: Kind, name: string, view: CR)
    requires view.version < s.server.clock && CurOf(s.server, kind, name) != Some(view)
    ensures CurOf(ServerAfter(s, step), kind, name) != Some(view)
  {
    Served(s.server, RequestOf(s, step), Slot(kind, "", name));
  }

  lemma ViewIsOld(s: State, slot: Slot)
    requires Sound(s) && WorkOf(s.nodes, slot) != Idle
    ensures WorkOf(s.nodes, slot).view.version < s.server.clock
  {
    var h := HistOf(s.server, slot);
    assert OrderedHist(h, s.server.clock) && PosOf(s.nodes, slot) < |h|;
    assert h[WorkOf(s.nodes, slot).at].Some?;
  }

  lemma HoldingPrefix(s: State, steps: seq<Step>, slot: Slot)
    requires steps != [] && Holding(s, steps, slot)
    ensures Holding(s, steps[..|steps| - 1], slot)
    ensures WorkOf(Run(s, steps[..|steps| - 1]).nodes, slot) == WorkOf(s.nodes, slot)
    ensures WorkOf(Run(s, steps).nodes, slot) == WorkOf(s.nodes, slot)
  {
    var before := steps[..|steps| - 1];
    forall i | 0 <= i <= |before| ensures WorkOf(Run(s, before[..i]).nodes, slot) == WorkOf(s.nodes, slot) {
      assert before[..i] == steps[..i];
    }
    assert steps[..|steps|] == steps;
  }

  lemma {:induction false} SoundOn(s: State, steps: seq<Step>)
    requires Sound(s)
    ensures Sound(Run(s, steps))
  {
    if steps != [] {
      SoundOn(s, steps[..|steps| - 1]);
      SafeStep(Run(s, steps[..|steps| - 1]), steps[|steps| - 1]);
      AgentStep(Run(s, steps[..|steps| - 1]), steps[|steps| - 1]);
    }
  }

  /** If the write takes the finalizer in the end, it would have all along. */
  lemma TookBefore(s: State, step: Step, slot: Slot)
    requires Sound(s) && Sound(Apply(s, step)) && Releasing(s.nodes, slot)
    requires WorkOf(Apply(s, step).nodes, slot) == WorkOf(s.nodes, slot) && TakesFinalizer(Apply(s, step), slot)
    ensures TakesFinalizer(s, slot)
  {
    TakesIff(s, slot);
    TakesIff(Apply(s, step), slot);
    ViewIsOld(s, slot);
    if CurOf(s.server, slot.kind, slot.name) != Some(WorkOf(s.nodes, slot).view) {
      StaleStays(s, step, slot.kind, slot.name, WorkOf(s.nodes, slot).view);
    }
  }

  lemma BroughtBack(s: State, step: Step, slot: Slot)
    requires Releasing(s.nodes, slot) && Gone(s.nodes, slot) && Early(Apply(s, step), slot)
    ensures Recreates(s, step, slot)
  {
    if !Recreates(s, step, slot) { GoneStep(s, step, slot); }
  }

  /** Going back along the run to the step that brought the dataset back. */
  lemma {:induction false} EarlyIsRetaken(s: State, steps: seq<Step>, slot: Slot)
    requires Sound(s) && Releasing(s.nodes, slot) && Gone(s.nodes, slot)
    requires Holding(s, steps, slot) && Early(Run(s, steps), slot)
    ensures CanBeRetaken(s, slot)
  {
    if steps != [] {
      var before, step := steps[..|steps| - 1], steps[|steps| - 1];
      var u := Run(s, before);
      HoldingPrefix(s, steps, slot);
      SoundOn(s, before);
      SoundOn(s, steps);
      TookBefore(u, step, slot);
      if Gone(u.nodes, slot) {
        BroughtBack(u, step, slot);
        assert Retaken(s, slot, before, step);
      } else {
        EarlyIsRetaken(s, before, slot);
      }
    }
  }

  /** A clone's commands leave the snapshot's worker and the resources alone. */
  lemma RetakeKeeps(s: State, step: Step, slot: Slot)
    requires Recreates(s, step, slot) && TakesFinalizer(s, slot)
    ensures var t := Apply(s, step);
            && t.server == s.server && WorkOf(t.nodes, slot) == WorkOf(s.nodes, slot) && TakesFinalizer(t, slot)
  {
    var t := Apply(s, step);
    assert t.server == s.server && WorkOf(t.nodes, slot) == WorkOf(s.nodes, slot);
    assert RequestOf(t, Finish(slot, false)) == RequestOf(s, Finish(slot, false));
  }

  lemma HoldingOn(s: State, steps: seq<Step>, step: Step, slot: Slot)
    requires Holding(s, steps, slot) && WorkOf(Apply(Run(s, steps), step).nodes, slot) == WorkOf(s.nodes, slot)
    ensures Holding(s, steps + [step], slot)
  {
    var all := steps + [step];
    RunSnoc(s, steps, step);
    forall i | 0 <= i <= |all| ensures WorkOf(Run(s, all[..i]).nodes, slot) == WorkOf(s.nodes, slot) {
      if i <= |steps| { assert all[..i] == steps[..i]; } else { assert all[..i] == all; }
    }
  }

  lemma RetakenIsEarly(s: State, slot: Slot, steps: seq<Step>, step: Step)
    requires Releasing(s.nodes, slot) && Retaken(s, slot, steps, step)
    ensures CanReleaseEarly(s, slot)
  {
    var u := Run(s, steps);
    assert steps[..|steps|] == steps && WorkOf(u.nodes, slot) == WorkOf(s.nodes, slot);
    if Gone(u.nodes, slot) {
      RetakeKeeps(u, step, slot);
      OtherActGoneIff(u, step, slot);
      HoldingOn(s, steps, step, slot);
      RunSnoc(s, steps, step);
      assert Early(Run(s, steps + [step]), slot);
    } else {
      assert Early(u, slot);
    }
  }

  /**
   * In every run: from a state in which a worker is about to release a dataset that is gone, it can
   * come to take the finalizer off with the dataset back on the node exactly when, before it writes,
   * a volume clone of the snapshot's name can take the snapshot again.
   */
  lemma CanReleaseEarlyIff(s0: State, before: seq<Step>, slot: Slot)
    requires Initial(s0) && Releasing(Run(s0, before).nodes, slot) && Gone(Run(s0, before).nodes, slot)
    ensures CanReleaseEarly(Run(s0, before), slot) <==> CanBeRetaken(Run(s0, before), slot)
  {
    var s := Run(s0, before);
    SoundRun(s0, before);
    if CanReleaseEarly(s, slot) {
      var steps :| Holding(s, steps, slot) && Early(Run(s, steps), slot);
      EarlyIsRetaken(s, steps, slot);
    }
    if CanBeRetaken(s, slot) {
      var steps, step :| Retaken(s, slot, steps, step);
      RetakenIsEarly(s, slot, steps, step);
    }
  }

  /** A volume is never released early. */
  lemma VolumeNeverEarly(s0: State, before: seq<Step>, slot: Slot)
    requires Initial(s0) && Releasing(Run(s0, before).nodes, slot) && Gone(Run(s0, before).nodes, slot)
    requires slot.kind == KVolume
    ensures !CanReleaseEarly(Run(s0, before), slot)
  {
    CanReleaseEarlyIff(s0, before, slot);
  }
}
