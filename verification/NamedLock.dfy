/**
 * The controller's lock on names: a set of locked names under a mutex, a condition variable, and
 * a two-name acquire that takes the volume's name first and the snapshot's second. Each mutex
 * section is one step; a caller that finds its name locked parks until the next broadcast.
 */
module NamedLock {
  import opened Base

  /** Where a caller stands. `second` tells the snapshot's name from the volume's. */
  datatype Stage =
    | Testing(second: bool)   // about to look whether its name is locked
    | Parked(second: bool)    // in Wait
    | Inside                  // holds everything it asked for
    | HalfOut                 // has unlocked the volume, not yet the snapshot
    | Out

  datatype Caller = Caller(volume: string, snapshot: Option<string>, stage: Stage)

  datatype State = State(locked: set<string>, callers: map<nat, Caller>)

  datatype Step =
    | Call(t: nat, volume: string, snapshot: Option<string>)
    | Test(t: nat)
    | Unlock(t: nat)

  const EMPTY := State({}, map[])

  /** The name a caller looks for next. */
  function Wanted(c: Caller): string {
    if c.stage in {Testing(true), Parked(true)} && c.snapshot.Some? then c.snapshot.value else c.volume
  }

  /** Whether a caller holds a name. */
  predicate Holds(c: Caller, k: string) {
    || (c.stage in {Testing(true), Parked(true), Inside} && k == c.volume)
    || (c.stage in {Inside, HalfOut} && c.snapshot == Some(k))
  }

  /** Broadcast: every parked caller looks again. */
  function Woken(callers: map<nat, Caller>): (r: map<nat, Caller>)
    ensures r.Keys == callers.Keys
  {
    map t | t in callers ::
      if callers[t].stage.Parked? then callers[t].(stage := Testing(callers[t].stage.second)) else callers[t]
  }

  /** One pass of the wait loop of LockVolume. */
  function Tested(s: State, t: nat): State
    requires t in s.callers && s.callers[t].stage.Testing?
  {
    var c := s.callers[t];
    if Wanted(c) in s.locked then s.(callers := s.callers[t := c.(stage := Parked(c.stage.second))])
    else State(s.locked + {Wanted(c)},
               s.callers[t := c.(stage := if !c.stage.second && c.snapshot.Some? then Testing(true) else Inside)])
  }

  /** One of the unlock closures: delete the name, then broadcast. */
  function Unlocked(s: State, t: nat): State
    requires t in s.callers && s.callers[t].stage in {Inside, HalfOut}
  {
    var c := s.callers[t];
    if c.stage == Inside
    then State(s.locked - {c.volume}, Woken(s.callers[t := c.(stage := if c.snapshot.Some? then HalfOut else Out)]))
    else State(s.locked - (if c.snapshot.Some? then {c.snapshot.value} else {}),
               Woken(s.callers[t := c.(stage := Out)]))
  }

  predicate Enabled(s: State, step: Step) {
    match step
    case Call(t, _, _) => t !in s.callers
    case Test(t) => t in s.callers && s.callers[t].stage.Testing?
    case Unlock(t) => t in s.callers && s.callers[t].stage in {Inside, HalfOut}
  }

  function Apply(s: State, step: Step): State {
    if !Enabled(s, step) then s
    else
      match step
      case Call(t, volume, snapshot) => s.(callers := s.callers[t := Caller(volume, snapshot, Testing(false))])
      case Test(t) => Tested(s, t)
      case Unlock(t) => Unlocked(s, t)
  }

  function Run(s: State, steps: seq<Step>): State {
    if steps == [] then s else Apply(Run(s, steps[..|steps| - 1]), steps[|steps| - 1])
  }

  /** The lock as the source keeps it, one method a mutex section. */
  class VolumeLock {
    var locked: set<string>
    var callers: map<nat, Caller>

    ghost function Contents(): State reads this { State(locked, callers) }

    constructor ()
      ensures Contents() == EMPTY
    {
      locked := {};
      callers := map[];
    }

    method Enter(t: nat, volume: string, snapshot: Option<string>)
      requires t !in callers
      modifies this
      ensures Contents() == Apply(old(Contents()), Call(t, volume, snapshot))
    {
      callers := callers[t := Caller(volume, snapshot, Testing(false))];
    }

    /** The section between acquiring the mutex and releasing it or waiting. */
    method TestName(t: nat) returns (taken: bool)
      requires t in callers && callers[t].stage.Testing?
      modifies this
      ensures Contents() == Apply(old(Contents()), Test(t))
      ensures taken <==> Wanted(old(callers[t])) !in old(locked)
      ensures taken ==> Wanted(old(callers[t])) in locked && !callers[t].stage.Parked?
    {
      var c := callers[t];
      taken := Wanted(c) !in locked;
      if taken {
        locked := locked + {Wanted(c)};
        callers := callers[t := c.(stage := if !c.stage.second && c.snapshot.Some? then Testing(true) else Inside)];
      } else {
        callers := callers[t := c.(stage := Parked(c.stage.second))];
      }
    }

    method UnlockName(t: nat)
      requires t in callers && callers[t].stage in {Inside, HalfOut}
      modifies this
      ensures Contents() == Apply(old(Contents()), Unlock(t))
      ensures forall u :: u in callers ==> !callers[u].stage.Parked?
    {
      var c := callers[t];
      if c.stage == Inside {
        locked := locked - {c.volume};
        callers := callers[t := c.(stage := if c.snapshot.Some? then HalfOut else Out)];
      } else {
        locked := locked - (if c.snapshot.Some? then {c.snapshot.value} else {});
        callers := callers[t := c.(stage := Out)];
      }
      callers := Woken(callers);
    }
  }

  // ---- what every step keeps --------------------------------------------------------------------

  ghost predicate WellFormed(c: Caller) {
    && (c.stage in {Testing(true), Parked(true), HalfOut} ==> c.snapshot.Some?)
    && (c.stage == Inside && c.snapshot.Some? ==> c.snapshot.value != c.volume)
  }

  /** Caller `t` holds `k`. */
  ghost predicate HeldBy(s: State, k: string, t: nat) { t in s.callers && Holds(s.callers[t], k) }

  ghost predicate Sane(s: State) { forall t :: t in s.callers ==> WellFormed(s.callers[t]) }

  ghost predicate OneHolder(s: State) {
    forall k, t, u {:trigger HeldBy(s, k, t), HeldBy(s, k, u)} :: HeldBy(s, k, t) && HeldBy(s, k, u) ==> t == u
  }

  ghost predicate LockedIsHeld(s: State) {
    && (forall k, t :: HeldBy(s, k, t) ==> k in s.locked)
    && (forall k :: k in s.locked ==> exists t :: HeldBy(s, k, t))
  }

  ghost predicate NoLostWakeup(s: State) {
    forall t :: t in s.callers && s.callers[t].stage.Parked? ==> Wanted(s.callers[t]) in s.locked
  }

  ghost predicate Inv(s: State) { Sane(s) && OneHolder(s) && LockedIsHeld(s) && NoLostWakeup(s) }

  /** If only `t`'s hold on `k` can change, everybody else's carries over. */
  lemma Carry(s: State, s': State, changed: set<string>)
    requires LockedIsHeld(s)
    requires forall k, t {:trigger HeldBy(s', k, t)} {:trigger HeldBy(s, k, t)} :: k !in changed ==>
              (HeldBy(s', k, t) <==> HeldBy(s, k, t))
    requires s'.locked - changed == s.locked - changed
    requires forall k :: k in changed ==> (k in s'.locked <==> exists t :: HeldBy(s', k, t))
    ensures LockedIsHeld(s')
  {
    forall k | k in s'.locked ensures exists t :: HeldBy(s', k, t) {
      if k !in changed {
        assert k in s'.locked - changed;
        var t :| HeldBy(s, k, t);
        assert HeldBy(s', k, t);
      }
    }
    forall k, t | HeldBy(s', k, t) ensures k in s'.locked {
      if k !in changed {
        assert HeldBy(s, k, t);
        assert k in s.locked - changed;
      }
    }
  }

  lemma TestHolds(s: State, t: nat, k: string, u: nat)
    requires Sane(s) && Enabled(s, Test(t))
    ensures HeldBy(Tested(s, t), k, u)
            <==> HeldBy(s, k, u) || (u == t && k == Wanted(s.callers[t]) && Wanted(s.callers[t]) !in s.locked)
  {
    assert WellFormed(s.callers[t]);
  }

  lemma TestKeeps(s: State, t: nat)
    requires Inv(s) && Enabled(s, Test(t))
    ensures Inv(Tested(s, t))
  {
    var s', w := Tested(s, t), Wanted(s.callers[t]);
    assert WellFormed(s.callers[t]);
    forall k, u ensures HeldBy(s', k, u) <==> HeldBy(s, k, u) || (u == t && k == w && w !in s.locked) {
      TestHolds(s, t, k, u);
    }
    if w !in s.locked { assert HeldBy(s', w, t); }
    Carry(s, s', if w in s.locked then {} else {w});
    assert Sane(s') by {
      if w !in s.locked && s.callers[t].stage.second { assert HeldBy(s, s.callers[t].volume, t); }
    }
    assert OneHolder(s');
  }

  lemma UnlockHolds(s: State, t: nat, k: string, u: nat)
    requires Sane(s) && Enabled(s, Unlock(t))
    ensures HeldBy(Unlocked(s, t), k, u) <==> HeldBy(s, k, u) && !(u == t && k == Freed(s.callers[t]))
  {
    assert WellFormed(s.callers[t]);
    if u in s.callers && u != t { assert Unlocked(s, t).callers[u].volume == s.callers[u].volume; }
  }

  /** The name an unlocking caller gives back. */
  function Freed(c: Caller): string {
    if c.stage == HalfOut && c.snapshot.Some? then c.snapshot.value else c.volume
  }

  lemma UnlockKeeps(s: State, t: nat)
    requires Inv(s) && Enabled(s, Unlock(t))
    ensures Inv(Unlocked(s, t))
  {
    var s', f := Unlocked(s, t), Freed(s.callers[t]);
    assert WellFormed(s.callers[t]);
    forall k, u ensures HeldBy(s', k, u) <==> HeldBy(s, k, u) && !(u == t && k == f) {
      UnlockHolds(s, t, k, u);
    }
    assert HeldBy(s, f, t);
    assert s'.locked == s.locked - {f};
    Carry(s, s', {f});
    assert OneHolder(s');
  }

  lemma StepKeeps(s: State, step: Step)
    requires Inv(s)
    ensures Inv(Apply(s, step))
  {
    if Enabled(s, step) {
      match step
      case Test(t) => TestKeeps(s, t);
      case Unlock(t) => UnlockKeeps(s, t);
      case Call(t, _, _) =>
        var s' := Apply(s, step);
        forall k, u ensures HeldBy(s', k, u) <==> HeldBy(s, k, u) {
        }
        Carry(s, s', {});
    }
  }

  /**
   * In every interleaving of every set of callers: a name has at most one holder, the locked set
   * is exactly the names held, and a parked caller waits for a name that is still locked.
   */
  lemma {:induction false} LockRun(steps: seq<Step>)
    ensures Inv(Run(EMPTY, steps))
  {
    if steps != [] {
      LockRun(steps[..|steps| - 1]);
      StepKeeps(Run(EMPTY, steps[..|steps| - 1]), steps[|steps| - 1]);
    }
  }

  // ---- deadlock -----------------------------------------------------------------------------------

  /** A family of two-name requests, volume first; one-name requests are always allowed. */
  type Requests = iset<(string, string)>

  ghost predicate From(rs: Requests, step: Step) {
    step.Call? && step.snapshot.Some? ==> (step.volume, step.snapshot.value) in rs
  }

  ghost predicate RunFrom(rs: Requests, steps: seq<Step>) {
    forall i :: 0 <= i < |steps| ==> From(rs, steps[i])
  }

  /** Somebody is not done and nobody can step. */
  ghost predicate Stuck(s: State) {
    && (exists t :: t in s.callers && s.callers[t].stage != Out)
    && (forall t :: t in s.callers ==> s.callers[t].stage.Parked? || s.callers[t].stage == Out)
  }

  /** The name after the i-th, round the end. */
  function Next(names: seq<string>, i: nat): string
    requires i < |names|
  {
    names[if i + 1 < |names| then i + 1 else 0]
  }

  /** Some request takes the i-th name and asks for the next. */
  ghost predicate Asked(rs: Requests, names: seq<string>, i: int) {
    0 <= i < |names| && (names[i], Next(names, i)) in rs
  }

  /** Names each of which is asked for, second, by a request that takes the one before it. */
  ghost predicate Cycle(rs: Requests, names: seq<string>) {
    && names != []
    && (forall i, j :: 0 <= i < j < |names| ==> names[i] != names[j])
    && (forall i :: 0 <= i < |names| ==> Asked(rs, names, i))
  }

  ghost predicate CallersFrom(rs: Requests, s: State) {
    forall t :: t in s.callers && s.callers[t].snapshot.Some? ==>
        (s.callers[t].volume, s.callers[t].snapshot.value) in rs
  }

  lemma {:induction false} CallersOfRun(rs: Requests, steps: seq<Step>)
    requires RunFrom(rs, steps)
    ensures CallersFrom(rs, Run(EMPTY, steps))
  {
    if steps != [] {
      CallersOfRun(rs, steps[..|steps| - 1]);
      assert From(rs, steps[|steps| - 1]);
    }
  }

  /** Parked for its second name: it holds the first. */
  predicate Hooked(s: State, t: nat) {
    t in s.callers && s.callers[t].stage == Parked(true) && s.callers[t].snapshot.Some?
  }

  /** `t` waits for the name `u` took first. */
  predicate Waits(s: State, t: nat, u: nat) {
    Hooked(s, t) && Hooked(s, u) && s.callers[t].snapshot.value == s.callers[u].volume
  }

  /** In a stuck state, whatever a parked caller waits for is the volume of a hooked one. */
  lemma Blocker(s: State, t: nat) returns (u: nat)
    requires Inv(s) && Stuck(s) && t in s.callers && s.callers[t].stage.Parked?
    ensures Hooked(s, u) && s.callers[u].volume == Wanted(s.callers[t])
  {
    var w := Wanted(s.callers[t]);
    assert w in s.locked;
    u :| HeldBy(s, w, u);
    assert WellFormed(s.callers[u]);
  }

  ghost predicate Path(s: State, path: seq<nat>) {
    && path != []
    && (forall i :: 0 <= i < |path| ==> Hooked(s, path[i]))
    && (forall i, j :: 0 <= i < j < |path| ==> path[i] != path[j])
    && (forall i, j :: 0 <= i && j == i + 1 < |path| ==> Waits(s, path[i], path[j]))
  }

  lemma Longer(s: State, path: seq<nat>, u: nat)
    requires Path(s, path) && Hooked(s, u) && Waits(s, path[|path| - 1], u) && u !in path
    ensures Path(s, path + [u]) && |path| < |s.callers|
  {
    DistinctBound(path + [u], s.callers.Keys);
  }

  lemma Suffix(s: State, path: seq<nat>, k: nat)
    requires Path(s, path) && k < |path|
    ensures Path(s, path[k..]) && path[k..][0] == path[k] && path[k..][|path| - k - 1] == path[|path| - 1]
  {
    var loop := path[k..];
    assert forall i :: 0 <= i < |loop| ==> loop[i] == path[k + i];
    forall i, j | 0 <= i && j == i + 1 < |loop| ensures Waits(s, loop[i], loop[j]) {
      assert Waits(s, path[k + i], path[k + j]);
    }
  }

  lemma BlockerOf(s: State, t: nat) returns (u: nat)
    requires Inv(s) && Stuck(s) && Hooked(s, t)
    ensures Hooked(s, u) && Waits(s, t, u)
  {
    u := Blocker(s, t);
  }

  /** Following blockers from a path leads back to it in the end. */
  lemma Follow(s: State, path: seq<nat>) returns (loop: seq<nat>)
    requires Inv(s) && Stuck(s) && Path(s, path)
    ensures Path(s, loop) && Waits(s, loop[|loop| - 1], loop[0])
    decreases |s.callers| - |path|
  {
    var u := BlockerOf(s, path[|path| - 1]);
    if k :| 0 <= k < |path| && path[k] == u {
      Suffix(s, path, k);
      loop := path[k..];
    } else {
      Longer(s, path, u);
      loop := Follow(s, path + [u]);
    }
  }

  function Volumes(s: State, loop: seq<nat>): (r: seq<string>)
    requires forall i :: 0 <= i < |loop| ==> loop[i] in s.callers
    ensures |r| == |loop| && forall i :: 0 <= i < |loop| ==> r[i] == s.callers[loop[i]].volume
  {
    if loop == [] then [] else [s.callers[loop[0]].volume] + Volumes(s, loop[1..])
  }

  lemma CycleOf(rs: Requests, s: State, loop: seq<nat>)
    requires Inv(s) && CallersFrom(rs, s) && Path(s, loop) && Waits(s, loop[|loop| - 1], loop[0])
    ensures Cycle(rs, Volumes(s, loop))
  {
    var names := Volumes(s, loop);
    forall i, j | 0 <= i < j < |names| ensures names[i] != names[j] {
      assert HeldBy(s, names[i], loop[i]) && HeldBy(s, names[j], loop[j]);
    }
    forall i | 0 <= i < |names| ensures Asked(rs, names, i) {
      assert Waits(s, loop[i], loop[if i + 1 < |names| then i + 1 else 0]);
    }
  }

  /** A run gets stuck only on a cycle of requests. */
  lemma StuckHasCycle(rs: Requests, steps: seq<Step>) returns (names: seq<string>)
    requires RunFrom(rs, steps) && Stuck(Run(EMPTY, steps))
    ensures Cycle(rs, names)
  {
    LockRun(steps);
    CallersOfRun(rs, steps);
    var s := Run(EMPTY, steps);
    var t :| t in s.callers && s.callers[t].stage != Out;
    var u := Blocker(s, t);
    DistinctBound([u], s.callers.Keys);
    assert Path(s, [u]);
    var loop := Follow(s, [u]);
    CycleOf(rs, s, loop);
    names := Volumes(s, loop);
  }

  // ---- the other direction: on a cycle of requests, a run that gets stuck ------------------------

  /** Callers 0..n of a cycle: everyone calls and takes the first name, then everyone parks. */
  function Stuck0(names: seq<string>, i: nat, parked: bool): Caller
    requires i < |names|
  {
    Caller(names[i], Some(Next(names, i)), if parked then Parked(true) else Testing(true))
  }

  lemma RunTwo(s: State, steps: seq<Step>, a: Step, b: Step)
    ensures Run(s, steps + [a, b]) == Apply(Apply(Run(s, steps), a), b)
  {
    var all := steps + [a, b];
    assert all[..|all| - 1] == steps + [a];
    assert (steps + [a])[..|steps|] == steps;
  }

  lemma RunOne(s: State, steps: seq<Step>, a: Step)
    ensures Run(s, steps + [a]) == Apply(Run(s, steps), a)
  {
    assert (steps + [a])[..|steps|] == steps;
  }

  ghost predicate Staged(s: State, names: seq<string>, n: nat, parked: nat)
    requires n <= |names|
  {
    && (forall t :: t in s.callers <==> 0 <= t < n)
    && (forall t :: 0 <= t < n ==> t in s.callers && s.callers[t] == Stuck0(names, t, t < parked))
    && (forall k :: k in s.locked <==> k in names[..n])
  }

  lemma TakeOne(s: State, names: seq<string>, n: nat)
    requires n < |names| && Staged(s, names, n, 0) && names[n] !in names[..n]
    ensures Staged(Apply(Apply(s, Call(n, names[n], Some(Next(names, n)))), Test(n)), names, n + 1, 0)
  {
    var s1 := Apply(s, Call(n, names[n], Some(Next(names, n))));
    assert n !in s.callers && s1.callers[n] == Caller(names[n], Some(Next(names, n)), Testing(false));
    assert s1.locked == s.locked && names[n] !in s1.locked;
    assert names[..n + 1] == names[..n] + [names[n]];
  }

  lemma ParkOne(s: State, names: seq<string>, n: nat)
    requires n < |names| && Staged(s, names, |names|, n)
    ensures Staged(Apply(s, Test(n)), names, |names|, n + 1)
  {
    assert n in s.callers && s.callers[n] == Stuck0(names, n, false);
    assert names[..|names|] == names && Next(names, n) in names;
    assert Wanted(s.callers[n]) in s.locked;
  }

  lemma FromSnoc(rs: Requests, steps: seq<Step>, step: Step)
    requires RunFrom(rs, steps) && From(rs, step)
    ensures RunFrom(rs, steps + [step])
  {
  }

  lemma TakeNext(rs: Requests, names: seq<string>, n: nat, steps: seq<Step>) returns (more: seq<Step>)
    requires n < |names| && Staged(Run(EMPTY, steps), names, n, 0) && RunFrom(rs, steps)
    requires names[n] !in names[..n] && Asked(rs, names, n)
    ensures Staged(Run(EMPTY, more), names, n + 1, 0) && RunFrom(rs, more)
  {
    more := steps + [Call(n, names[n], Some(Next(names, n))), Test(n)];
    RunTwo(EMPTY, steps, Call(n, names[n], Some(Next(names, n))), Test(n));
    TakeOne(Run(EMPTY, steps), names, n);
  }

  /** Everybody takes the first name, one after the other. */
  lemma {:induction false} TakingRuns(rs: Requests, names: seq<string>, n: nat) returns (steps: seq<Step>)
    requires Cycle(rs, names) && n <= |names|
    ensures Staged(Run(EMPTY, steps), names, n, 0) && RunFrom(rs, steps)
    decreases n
  {
    if n == 0 {
      steps := [];
    } else {
      var before := TakingRuns(rs, names, n - 1);
      steps := TakeNext(rs, names, n - 1, before);
    }
  }

  lemma ParkNext(rs: Requests, names: seq<string>, n: nat, steps: seq<Step>) returns (more: seq<Step>)
    requires n < |names| && Staged(Run(EMPTY, steps), names, |names|, n) && RunFrom(rs, steps)
    ensures Staged(Run(EMPTY, more), names, |names|, n + 1) && RunFrom(rs, more)
  {
    more := steps + [Test(n)];
    RunOne(EMPTY, steps, Test(n));
    ParkOne(Run(EMPTY, steps), names, n);
    FromSnoc(rs, steps, Test(n));
  }

  /** Then everybody asks for the second one and parks. */
  lemma {:induction false} ParkingRuns(rs: Requests, names: seq<string>, n: nat, taken: seq<Step>)
    returns (steps: seq<Step>)
    requires n <= |names| && Staged(Run(EMPTY, taken), names, |names|, 0) && RunFrom(rs, taken)
    ensures Staged(Run(EMPTY, steps), names, |names|, n) && RunFrom(rs, steps)
    decreases n
  {
    if n == 0 {
      steps := taken;
    } else {
      var before := ParkingRuns(rs, names, n - 1, taken);
      steps := ParkNext(rs, names, n - 1, before);
    }
  }

  /**
   * The lock can deadlock on a family of two-name requests exactly when the family has a cycle:
   * requests each of which takes, first, the name the previous one wants second.
   */
  lemma DeadlockIffCycle(rs: Requests)
    ensures (exists steps :: RunFrom(rs, steps) && Stuck(Run(EMPTY, steps))) <==> (exists names :: Cycle(rs, names))
  {
    if steps :| RunFrom(rs, steps) && Stuck(Run(EMPTY, steps)) {
      var names := StuckHasCycle(rs, steps);
    }
    if names :| Cycle(rs, names) {
      var taken := TakingRuns(rs, names, |names|);
      var steps := ParkingRuns(rs, names, |names|, taken);
      var s := Run(EMPTY, steps);
      assert 0 in s.callers && s.callers[0].stage != Out;
      assert Stuck(s);
    }
  }

  lemma DisjointNoCycle(rs: Requests, names: seq<string>)
    requires forall p, q :: p in rs && q in rs ==> p.0 != q.1
    ensures !Cycle(rs, names)
  {
    if names != [] {
      var p, q := (names[|names| - 1], names[0]), (names[0], Next(names, 0));
      assert !(p in rs && q in rs);
      assert Asked(rs, names, 0) <==> q in rs;
      assert Asked(rs, names, |names| - 1) <==> p in rs;
    }
  }

  /** While no snapshot has a volume's name, some caller can always step. */
  lemma DisjointNamesNeverStuck(rs: Requests, steps: seq<Step>)
    requires forall p, q :: p in rs && q in rs ==> p.0 != q.1
    requires RunFrom(rs, steps)
    ensures !Stuck(Run(EMPTY, steps))
  {
    if Stuck(Run(EMPTY, steps)) {
      var names := StuckHasCycle(rs, steps);
      DisjointNoCycle(rs, names);
    }
  }
}
