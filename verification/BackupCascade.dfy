/**
 * What the collector does after one deletion, and what it does not do without one: the cascade
 * ends, in whatever order its goroutines run, and takes exactly the backups built on the deleted
 * one; and a history that creates parents first and deletes nothing makes it delete nothing.
 */
module BackupCascade {
  import opened Base
  import opened BackupKeys
  import opened BackupGC

  /** Steps that need nobody outside: the agents finalizing, the informer, the goroutines. */
  predicate Internal(step: Step) { !step.Create? && !step.Update? && !step.Remove? }

  ghost predicate InternalRun(steps: seq<Step>) { forall i :: 0 <= i < |steps| ==> Internal(steps[i]) }

  /** Nothing internal is left to do. */
  ghost predicate Drained(s: State) { Quiescent(s) && forall n :: n in s.live ==> !s.live[n].dying }

  // ---- the cascade ends -----------------------------------------------------------------------------

  function Weight(t: Task, bound: nat): nat {
    match t
    case Check(_, _) => 1
    case Sweep(_) => bound + 2
    case Deleting(names) => |names| + 1
  }

  function Weights(tasks: seq<Task>, bound: nat): nat {
    if tasks == [] then 0 else Weight(tasks[0], bound) + Weights(tasks[1..], bound)
  }

  /** No more backups than this can ever be found at once. */
  function Bound(s: State): nat { |s.live| + |s.events| + |s.cache| }

  function Measure(s: State, bound: nat): nat {
    (bound + 4) * |s.live| + (bound + 3) * |s.events| + Weights(s.tasks, bound)
  }

  lemma {:induction false} WeightsConcat(a: seq<Task>, b: seq<Task>, bound: nat)
    ensures Weights(a + b, bound) == Weights(a, bound) + Weights(b, bound)
  {
    if a == [] {
      assert a + b == b;
    } else {
      assert (a + b)[1..] == a[1..] + b;
      WeightsConcat(a[1..], b, bound);
    }
  }

  lemma WeightsSplit(tasks: seq<Task>, i: nat, t: Task, bound: nat)
    requires i < |tasks|
    ensures Weights(tasks[i := t], bound) == Weights(Without(tasks, i), bound) + Weight(t, bound)
  {
    WeightsConcat(tasks[..i], tasks[i + 1..], bound);
    assert tasks[i := t] == tasks[..i] + ([t] + tasks[i + 1..]);
    WeightsConcat(tasks[..i], [t] + tasks[i + 1..], bound);
    assert ([t] + tasks[i + 1..])[1..] == tasks[i + 1..];
  }

  lemma KeysSmaller(a: map<string, Object>, b: map<string, Object>, name: string)
    requires name in a && b == a - {name}
    ensures |b| == |a| - 1
  {
    assert b.Keys == a.Keys - {name};
  }

  lemma SetSizes(a: set<string>, name: string)
    ensures |a + {name}| <= |a| + 1 && |a - {name}| <= |a|
  {
    if name in a { assert a + {name} == a; }
    assert a - {name} + (a * {name}) == a;
  }

  lemma CacheGrowsByOne(cache: Cache, e: Event)
    ensures |ApplyEvent(cache, e)| <= |cache| + 1
  {
    SetSizes(cache.Keys, e.name);
    var cache' := ApplyEvent(cache, e);
    if e.Deleted? { assert cache'.Keys == cache.Keys - {e.name}; }
    else { assert cache'.Keys == cache.Keys + {e.name}; }
    assert |cache'| == |cache'.Keys| && |cache| == |cache.Keys|;
  }

  lemma SameLive(s: State, name: string)
    ensures |DeleteByName(s.live, name)| == |s.live|
  {
    assert |DeleteByName(s.live, name).Keys| == |s.live.Keys|;
  }

  lemma BoundHolds(s: State, step: Step)
    requires Enabled(s, step) && Internal(step)
    ensures Bound(Apply(s, step)) <= Bound(s)
  {
    match step
    case Finalize(name) => KeysSmaller(s.live, Apply(s, step).live, name);
    case Deliver => CacheGrowsByOne(s.cache, s.events[0]);
    case RunCheck(i) => SameLive(s, s.tasks[i].name);
    case DeleteNext(i) => if s.tasks[i].names != [] { SameLive(s, s.tasks[i].names[0]); }
    case Lookup(_, _) =>
  }

  lemma FinalizeDecreases(live: nat, events: nat, bound: nat)
    requires live > 0
    ensures (bound + 4) * (live - 1) + (bound + 3) * (events + 1) < (bound + 4) * live + (bound + 3) * events
  {
    assert (bound + 4) * (live - 1) == (bound + 4) * live - (bound + 4);
    assert (bound + 3) * (events + 1) == (bound + 3) * events + (bound + 3);
  }

  lemma DeliverDecreases(events: nat, bound: nat)
    requires events > 0
    ensures (bound + 3) * (events - 1) + (bound + 2) < (bound + 3) * events
  {
    assert (bound + 3) * (events - 1) == (bound + 3) * events - (bound + 3);
  }

  lemma SpawnedWeight(cache: Cache, e: Event, bound: nat)
    ensures Weights(Spawned(cache, e), bound) <= bound + 2
  {
    var spawned := Spawned(cache, e);
    if spawned != [] { assert spawned[1..] == []; }
  }

  lemma FinalizeNearer(s: State, name: string, bound: nat)
    requires Enabled(s, Finalize(name))
    ensures Measure(Apply(s, Finalize(name)), bound) < Measure(s, bound)
  {
    KeysSmaller(s.live, Apply(s, Finalize(name)).live, name);
    FinalizeDecreases(|s.live|, |s.events|, bound);
  }

  lemma DeliverNearer(s: State, bound: nat)
    requires Enabled(s, Deliver)
    ensures Measure(Apply(s, Deliver), bound) < Measure(s, bound)
  {
    DeliverDecreases(|s.events|, bound);
    SpawnedWeight(s.cache, s.events[0], bound);
    WeightsConcat(s.tasks, Spawned(s.cache, s.events[0]), bound);
  }

  /** Every internal step, in every state, brings the end nearer: chains and cycles of backups alike. */
  lemma StepDecreases(s: State, step: Step, bound: nat)
    requires Enabled(s, step) && Internal(step) && Bound(s) <= bound
    ensures Measure(Apply(s, step), bound) < Measure(s, bound)
  {
    match step
    case Finalize(name) => FinalizeNearer(s, name, bound);
    case Deliver => DeliverNearer(s, bound);
    case _ => TaskDecreases(s, step, bound);
  }

  lemma TaskDecreases(s: State, step: Step, bound: nat)
    requires Enabled(s, step) && (step.RunCheck? || step.Lookup? || step.DeleteNext?) && Bound(s) <= bound
    ensures Measure(Apply(s, step), bound) < Measure(s, bound)
  {
    var s' := Apply(s, step);
    WeightsSplit(s.tasks, step.i, s.tasks[step.i], bound);
    assert s.tasks[step.i := s.tasks[step.i]] == s.tasks;
    assert |s'.live| == |s.live| && s'.events == s.events by {
      if step.RunCheck? { SameLive(s, s.tasks[step.i].name); }
      if step.DeleteNext? && s.tasks[step.i].names != [] { SameLive(s, s.tasks[step.i].names[0]); }
    }
    if step.Lookup? {
      DistinctBound(step.found, s.cache.Keys);
      assert |s.cache.Keys| == |s.cache| && s'.tasks == s.tasks[step.i := Deleting(step.found)];
      WeightsSplit(s.tasks, step.i, Deleting(step.found), bound);
    } else if step.DeleteNext? && s.tasks[step.i].names != [] {
      assert s'.tasks == s.tasks[step.i := Deleting(s.tasks[step.i].names[1..])];
      WeightsSplit(s.tasks, step.i, Deleting(s.tasks[step.i].names[1..]), bound);
    } else {
      assert s'.tasks == Without(s.tasks, step.i);
    }
    assert Weights(s'.tasks, bound) < Weights(s.tasks, bound);
  }

  /** No internal run is longer than the measure of the state it starts in. */
  lemma {:induction false} CascadeEnds(s: State, steps: seq<Step>)
    requires Runs(s, steps) && InternalRun(steps)
    ensures Bound(After(s, steps)) <= Bound(s)
    ensures |steps| + Measure(After(s, steps), Bound(s)) <= Measure(s, Bound(s))
  {
    if steps != [] {
      var init, last := steps[..|steps| - 1], steps[|steps| - 1];
      CascadeEnds(s, init);
      BoundHolds(After(s, init), last);
      StepDecreases(After(s, init), last, Bound(s));
    }
  }

  lemma {:induction false} Listing(names: set<string>) returns (found: seq<string>)
    ensures Enumerates(found, names)
  {
    if names == {} {
      found := [];
    } else {
      var n :| n in names;
      var rest := Listing(names - {n});
      found := [n] + rest;
    }
  }

  /** Until everything is drained, some internal step can be taken. */
  lemma CascadeProgresses(s: State) returns (step: Step)
    requires !Drained(s)
    ensures Internal(step) && Enabled(s, step)
  {
    if s.events != [] {
      step := Deliver;
    } else if s.tasks != [] {
      match s.tasks[0]
      case Check(_, _) => step := RunCheck(0);
      case Deleting(_) => step := DeleteNext(0);
      case Sweep(spec) =>
        var found := Listing(ByPrevious(s.cache, SnapKey(spec)));
        step := Lookup(0, found);
    } else {
      var n :| n in s.live && s.live[n].dying;
      step := Finalize(n);
    }
  }

  // ---- what the cascade takes ---------------------------------------------------------------------------

  /** `x` is built on a snapshot with the key of `y`'s. */
  predicate Child(store: Cache, y: string, x: string) {
    y in store && x in store && PrevKey(store[x]) == Some(SnapKey(store[y]))
  }

  ghost predicate Chain(store: Cache, path: seq<string>) {
    && path != [] && path[0] in store
    && forall i :: 0 <= i < |path| - 1 ==> Child(store, path[i], path[i + 1])
  }

  /** Reachable from `d` through previous-snapshot keys. */
  ghost predicate InClosure(store: Cache, d: string, x: string) {
    exists path :: Chain(store, path) && path[0] == d && path[|path| - 1] == x
  }

  lemma ClosureGrows(store: Cache, d: string, y: string, x: string)
    requires InClosure(store, d, y) && Child(store, y, x)
    ensures InClosure(store, d, x)
  {
    var path :| Chain(store, path) && path[0] == d && path[|path| - 1] == y;
    var longer := path + [x];
    assert forall i :: 0 <= i < |longer| - 1 ==> Child(store, longer[i], longer[i + 1]);
    assert Chain(store, longer) && longer[|longer| - 1] == x;
  }

  ghost predicate Gone(s: State, store: Cache, y: string) { y in store && y !in s.live }
  ghost predicate Doomed(s: State, store: Cache, x: string) { x in store && (x !in s.live || s.live[x].dying) }

  /** A goroutine's work lies in the closure. */
  ghost predicate Justified(s: State, store: Cache, d: string, t: Task) {
    match t
    case Check(_, _) => false
    case Sweep(spec) => exists y :: y in store && InClosure(store, d, y) && store[y] == spec
    case Deleting(names) => forall x :: x in names ==> x in store && InClosure(store, d, x)
  }

  /** A child of a deleted backup is deleted, or somebody is on the way to it. */
  ghost predicate Pursued(s: State, store: Cache, y: string, x: string)
    requires y in store
  {
    Doomed(s, store, x) || Deleted(y) in s.events || Covered(s.tasks, x, SnapKey(store[y]))
  }

  ghost predicate Within(s: State, store: Cache) {
    && (forall n :: n in s.live ==> n in s.cache && n in store && s.live[n].spec == store[n])
    && (forall n :: n in s.cache ==> n in store && s.cache[n] == store[n])
    && (forall e :: e in s.events ==> e.Deleted? && Gone(s, store, e.name) && e.name in s.cache)
    && (forall i, j :: 0 <= i < j < |s.events| ==> s.events[i] != s.events[j])
  }

  ghost predicate Cascade(s: State, store: Cache, d: string) {
    && Within(s, store)
    && Doomed(s, store, d)
    && (forall x :: Doomed(s, store, x) ==> InClosure(store, d, x))
    && (forall t :: t in s.tasks ==> Justified(s, store, d, t))
    && (forall y, x :: Gone(s, store, y) && Child(store, y, x) ==> Pursued(s, store, y, x))
  }

  /** The state right after the delete of `d`, from a synced state where nothing was dying. */
  ghost predicate JustDeleted(s: State, d: string) {
    && s.cache == Specs(s.live) && s.events == [] && s.tasks == [] && d in s.live
    && forall n :: n in s.live ==> (s.live[n].dying <==> n == d)
  }

  lemma CascadeStarts(s: State, d: string)
    requires JustDeleted(s, d)
    ensures Cascade(s, s.cache, d)
  {
    assert Chain(s.cache, [d]);
    assert InClosure(s.cache, d, d);
  }

  lemma WithinFinalize(s: State, name: string, store: Cache)
    requires Within(s, store) && Enabled(s, Finalize(name))
    ensures Within(Apply(s, Finalize(name)), store)
  {
    var s' := Apply(s, Finalize(name));
    assert Deleted(name) !in s.events;
    forall e | e in s'.events ensures e.Deleted? && Gone(s', store, e.name) && e.name in s'.cache {
      if e in s.events { assert Gone(s, store, e.name) && e.name in s.cache; }
    }
  }

  lemma WithinDeliver(s: State, store: Cache)
    requires Within(s, store) && Enabled(s, Deliver)
    ensures Within(Apply(s, Deliver), store)
  {
    var s', e := Apply(s, Deliver), s.events[0];
    assert e in s.events;
    forall x | x in s'.events ensures x.Deleted? && Gone(s', store, x.name) && x.name in s'.cache {
      assert x in s.events && x != e;
    }
  }

  lemma WithinStep(s: State, step: Step, store: Cache, d: string)
    requires Cascade(s, store, d) && Enabled(s, step) && Internal(step)
    ensures Within(Apply(s, step), store)
  {
    if step.Finalize? { WithinFinalize(s, step.name, store); }
    else if step.Deliver? { WithinDeliver(s, store); }
  }

  lemma DoomStep(s: State, step: Step, store: Cache, d: string, x: string)
    requires Cascade(s, store, d) && Enabled(s, step) && Internal(step)
    ensures Doomed(s, store, x) ==> Doomed(Apply(s, step), store, x)
    ensures Doomed(Apply(s, step), store, x) ==> InClosure(store, d, x)
  {
    if step.DeleteNext? || step.RunCheck? { assert s.tasks[step.i] in s.tasks; }
    if Doomed(s, store, x) { assert InClosure(store, d, x); }
  }

  lemma TaskStep(s: State, step: Step, store: Cache, d: string, t: Task)
    requires Cascade(s, store, d) && Enabled(s, step) && Internal(step) && t in Apply(s, step).tasks
    ensures Justified(Apply(s, step), store, d, t)
  {
    if t in s.tasks {
      assert Justified(s, store, d, t);
    } else if step.Deliver? {
      var e := s.events[0];
      assert e in s.events && Gone(s, store, e.name) && Doomed(s, store, e.name);
      assert InClosure(store, d, e.name);
    } else {
      var own := s.tasks[step.i];
      assert own in s.tasks && Justified(s, store, d, own);
      if step.Lookup? {
        var y :| y in store && InClosure(store, d, y) && store[y] == own.spec;
        forall x | x in t.names ensures x in store && InClosure(store, d, x) {
          assert x in ByPrevious(s.cache, SnapKey(own.spec));
          ClosureGrows(store, d, y, x);
        }
      } else {
        assert t == Deleting(own.names[1..]);
      }
    }
  }

  lemma PursuitStep(s: State, step: Step, store: Cache, d: string, y: string, x: string)
    requires Cascade(s, store, d) && Enabled(s, step) && Internal(step)
    requires Gone(Apply(s, step), store, y) && Child(store, y, x)
    ensures Pursued(Apply(s, step), store, y, x)
  {
    var s' := Apply(s, step);
    DoomStep(s, step, store, d, x);
    var key := SnapKey(store[y]);
    if !Gone(s, store, y) {
      assert s'.events[|s'.events| - 1] == Deleted(y);
    } else if Deleted(y) in s.events {
      if step.Deliver? && s.events[0] == Deleted(y) { SweepSpawned(s, store, y, x); }
      else if step.Deliver? { assert Deleted(y) in s.events[1..]; }
    } else if !Doomed(s, store, x) {
      assert Pursued(s, store, y, x);
      var t :| t in s.tasks && Covers(t, x, key);
      if step.RunCheck? || step.Lookup? || step.DeleteNext? {
        if t != s.tasks[step.i] { OtherTaskStays(s, step, t); } else { OwnTaskPursues(s, step, store, d, key, x); }
      } else {
        assert t in s'.tasks;
      }
    }
  }

  lemma SweepSpawned(s: State, store: Cache, y: string, x: string)
    requires Within(s, store) && s.events != [] && s.events[0] == Deleted(y) && y in store
    ensures Covered(Apply(s, Deliver).tasks, x, SnapKey(store[y]))
  {
    assert s.events[0] in s.events && y in s.cache;
    var t := Sweep(s.cache[y]);
    assert t in Apply(s, Deliver).tasks && Covers(t, x, SnapKey(store[y]));
  }

  lemma OwnTaskPursues(s: State, step: Step, store: Cache, d: string, key: string, x: string)
    requires Cascade(s, store, d) && Enabled(s, step) && (step.RunCheck? || step.Lookup? || step.DeleteNext?)
    requires Covers(s.tasks[step.i], x, key) && x in s.live && x in store && PrevKey(store[x]) == Some(key)
    ensures Doomed(Apply(s, step), store, x) || Covered(Apply(s, step).tasks, x, key)
  {
    var s' := Apply(s, step);
    assert s.tasks[step.i] in s.tasks && Justified(s, store, d, s.tasks[step.i]);
    if step.Lookup? {
      assert x in ByPrevious(s.cache, key);
      assert s'.tasks[step.i] in s'.tasks && Covers(s'.tasks[step.i], x, key);
    } else {
      var names := s.tasks[step.i].names;
      if names[0] != x { assert s'.tasks[step.i] in s'.tasks && Covers(s'.tasks[step.i], x, key); }
    }
  }

  lemma CascadeStep(s: State, step: Step, store: Cache, d: string)
    requires Cascade(s, store, d) && Enabled(s, step) && Internal(step)
    ensures Cascade(Apply(s, step), store, d)
  {
    WithinStep(s, step, store, d);
    forall x ensures Doomed(s, store, x) ==> Doomed(Apply(s, step), store, x)
             ensures Doomed(Apply(s, step), store, x) ==> InClosure(store, d, x)
    {
      DoomStep(s, step, store, d, x);
    }
    forall t | t in Apply(s, step).tasks ensures Justified(Apply(s, step), store, d, t) {
      TaskStep(s, step, store, d, t);
    }
    forall y, x | Gone(Apply(s, step), store, y) && Child(store, y, x) ensures Pursued(Apply(s, step), store, y, x) {
      PursuitStep(s, step, store, d, y, x);
    }
  }

  lemma {:induction false} CascadeRun(s: State, steps: seq<Step>, d: string)
    requires JustDeleted(s, d) && Runs(s, steps) && InternalRun(steps)
    ensures Cascade(After(s, steps), s.cache, d)
  {
    if steps == [] {
      CascadeStarts(s, d);
    } else {
      CascadeRun(s, steps[..|steps| - 1], d);
      CascadeStep(After(s, steps[..|steps| - 1]), steps[|steps| - 1], s.cache, d);
    }
  }

  lemma {:induction false} FollowsRun(s: State, steps: seq<Step>)
    requires Follows(s) && Runs(s, steps)
    ensures Follows(After(s, steps))
  {
    if steps != [] {
      FollowsRun(s, steps[..|steps| - 1]);
      FollowsStep(After(s, steps[..|steps| - 1]), steps[|steps| - 1]);
    }
  }

  lemma {:induction false} ChainGone(s: State, store: Cache, d: string, path: seq<string>)
    requires Cascade(s, store, d) && Drained(s) && Chain(store, path) && path[0] == d
    ensures Gone(s, store, path[|path| - 1])
  {
    if |path| > 1 {
      var init := path[..|path| - 1];
      ChainGone(s, store, d, init);
      assert Child(store, path[|path| - 2], path[|path| - 1]);
      assert Pursued(s, store, path[|path| - 2], path[|path| - 1]);
    }
  }

  /**
   * After the delete of one backup, with the goroutines and the informer in any order: once
   * everything is drained, the backups left are exactly those not in the closure of the deleted
   * one under "previous-snapshot key equals a deleted snapshot's key", unchanged; and the cache
   * agrees with the server.
   */
  lemma CascadeTakesClosure(s: State, steps: seq<Step>, d: string)
    requires JustDeleted(s, d) && Runs(s, steps) && InternalRun(steps) && Drained(After(s, steps))
    ensures var s' := After(s, steps);
            && (forall n :: n in s'.live <==> n in s.live && !InClosure(s.cache, d, n))
            && (forall n :: n in s'.live ==> s'.live[n] == s.live[n])
            && s'.cache == Specs(s'.live)
  {
    CascadeRun(s, steps, d);
    var s' := After(s, steps);
    FollowsRun(s, steps);
    forall n | n in s.cache && InClosure(s.cache, d, n) ensures n !in s'.live {
      var path :| Chain(s.cache, path) && path[0] == d && path[|path| - 1] == n;
      ChainGone(s', s.cache, d, path);
    }
    forall n | n in s.live && n !in s'.live ensures InClosure(s.cache, d, n) {
      assert Doomed(s', s.cache, n);
    }
  }

  /** The order of events and goroutines does not matter. */
  lemma CascadeConfluent(s: State, a: seq<Step>, b: seq<Step>, d: string)
    requires JustDeleted(s, d) && InternalRun(a) && InternalRun(b)
    requires Runs(s, a) && Drained(After(s, a)) && Runs(s, b) && Drained(After(s, b))
    ensures After(s, a).live == After(s, b).live
  {
    CascadeTakesClosure(s, a, d);
    CascadeTakesClosure(s, b, d);
  }

  // ---- parents first ----------------------------------------------------------------------------------------

  ghost predicate HasKey(cache: Cache, key: string) { exists m :: m in cache && SnapKey(cache[m]) == key }

  /** A new or changed backup references a snapshot that is already there. */
  ghost predicate HasParent(cache: Cache, b: Backup) { b.prev != "" ==> HasKey(cache, PrevKey(b).value) }

  /** The history deletes nothing and creates parents first. */
  ghost predicate ParentFirst(s: State, step: Step) {
    && !step.Remove?
    && (step.Create? || step.Update? ==> HasParent(Specs(s.live), step.spec))
    && Gentle(s, step)
  }

  ghost predicate ParentFirstRun(s: State, steps: seq<Step>)
    requires Runs(s, steps)
    decreases |steps|
  {
    steps == []
    || (ParentFirstRun(s, steps[..|steps| - 1])
        && ParentFirst(After(s, steps[..|steps| - 1]), steps[|steps| - 1]))
  }

  ghost predicate Announced(cache: Cache, e: Event) { !e.Deleted? && HasParent(cache, e.spec) && Fits(cache, e) }

  ghost predicate Calm(s: State) {
    && Follows(s)
    && (forall n :: n in s.live ==> !s.live[n].dying)
    && AllAnnounced(s.cache, s.events)
    && (forall t :: t in s.tasks ==> t.Check? && HasParent(s.cache, t.spec))
  }

  lemma KeysStay(cache: Cache, e: Event, key: string)
    requires HasKey(cache, key) && Nameable(key) && Fits(cache, e) && !e.Deleted?
    ensures HasKey(ApplyEvent(cache, e), key)
  {
    var m :| m in cache && SnapKey(cache[m]) == key;
    assert m in ApplyEvent(cache, e) && SnapKey(ApplyEvent(cache, e)[m]) == key;
  }

  ghost predicate AllAnnounced(cache: Cache, events: seq<Event>) {
    forall i :: 0 <= i < |events| ==> Announced(Replay(cache, events[..i]), events[i])
  }

  lemma AnnouncedTail(cache: Cache, events: seq<Event>)
    requires events != [] && AllAnnounced(cache, events)
    ensures AllAnnounced(ApplyEvent(cache, events[0]), events[1..])
  {
    var rest := events[1..];
    forall i | 0 <= i < |rest| ensures Announced(Replay(ApplyEvent(cache, events[0]), rest[..i]), rest[i]) {
      assert events[..i + 1][1..] == rest[..i];
      ReplayHead(cache, events[..i + 1]);
      assert Announced(Replay(cache, events[..i + 1]), events[i + 1]);
    }
  }

  lemma AnnouncedOne(cache: Cache, events: seq<Event>, e: Event)
    requires AllAnnounced(cache, events) && Announced(Replay(cache, events), e)
    ensures AllAnnounced(cache, events + [e])
  {
    var all := events + [e];
    forall i | 0 <= i < |all| ensures Announced(Replay(cache, all[..i]), all[i]) {
      if i < |events| { assert all[..i] == events[..i]; } else { assert all[..i] == events; }
    }
  }

  lemma CalmEvents(s: State, step: Step)
    requires Calm(s) && Enabled(s, step) && ParentFirst(s, step)
    ensures AllAnnounced(Apply(s, step).cache, Apply(s, step).events)
  {
    if step.Create? { AnnouncedOne(s.cache, s.events, Added(step.name, step.spec)); }
    else if step.Update? { AnnouncedOne(s.cache, s.events, Updated(step.name, step.spec)); }
    else if step.Deliver? { AnnouncedTail(s.cache, s.events); }
  }

  /** Nobody is deleted. */
  lemma CalmLive(s: State, step: Step)
    requires Calm(s) && Enabled(s, step) && ParentFirst(s, step)
    ensures forall n :: n in Apply(s, step).live ==> !Apply(s, step).live[n].dying
  {
    if step.RunCheck? || step.Lookup? || step.DeleteNext? { assert s.tasks[step.i] in s.tasks; }
    if step.RunCheck? { CheckFinds(s, step.i); }
  }

  lemma CalmStep(s: State, step: Step)
    requires Calm(s) && Enabled(s, step) && ParentFirst(s, step)
    ensures Calm(Apply(s, step))
  {
    var s' := Apply(s, step);
    FollowsStep(s, step);
    CalmEvents(s, step);
    CalmLive(s, step);
    forall t | t in s'.tasks ensures t.Check? && HasParent(s'.cache, t.spec) {
      CalmTask(s, step, t);
    }
  }

  lemma CalmTask(s: State, step: Step, t: Task)
    requires Calm(s) && Enabled(s, step) && ParentFirst(s, step) && t in Apply(s, step).tasks
    ensures t.Check? && HasParent(Apply(s, step).cache, t.spec)
  {
    if step.Deliver? {
      var e := s.events[0];
      assert s.events[..0] == [] && Announced(Replay(s.cache, s.events[..0]), e);
      if t.Check? && t.spec.prev != "" && HasKey(s.cache, PrevKey(t.spec).value) {
        Named(t.spec);
        KeysStay(s.cache, e, PrevKey(t.spec).value);
      }
    } else if step.Lookup? || step.DeleteNext? || step.RunCheck? {
      assert s.tasks[step.i] in s.tasks;
    }
  }

  /** An orphan check with its parent in the cache deletes nothing. */
  lemma CheckFinds(s: State, i: nat)
    requires Calm(s) && Enabled(s, RunCheck(i))
    ensures Apply(s, RunCheck(i)).live == s.live
  {
    var t := s.tasks[i];
    assert t in s.tasks;
    if t.spec.prev != "" {
      var m :| m in s.cache && SnapKey(s.cache[m]) == PrevKey(t.spec).value;
      assert m in BySnapshot(s.cache, PrevKey(t.spec).value);
    }
  }

  lemma {:induction false} CalmRun(s: State, steps: seq<Step>)
    requires Calm(s) && Runs(s, steps) && ParentFirstRun(s, steps)
    ensures Calm(After(s, steps))
  {
    if steps != [] {
      CalmRun(s, steps[..|steps| - 1]);
      CalmStep(After(s, steps[..|steps| - 1]), steps[|steps| - 1]);
    }
  }

  /**
   * From a synced cache where nothing is being deleted, in every run that creates parents first
   * and deletes nothing: the collector issues no delete.
   */
  lemma ParentsFirstDeletesNothing(s: State, steps: seq<Step>, n: string)
    requires Synced(s) && (forall m :: m in s.live ==> !s.live[m].dying)
    requires Runs(s, steps) && ParentFirstRun(s, steps) && n in s.live
    ensures n in After(s, steps).live && !After(s, steps).live[n].dying
  {
    assert Calm(s);
    StaysLive(s, steps, n);
  }

  lemma CalmKeepsLive(s: State, step: Step, n: string)
    requires Calm(s) && Enabled(s, step) && ParentFirst(s, step) && n in s.live
    ensures n in Apply(s, step).live
  {
    if step.RunCheck? { CheckFinds(s, step.i); }
  }

  lemma {:induction false} StaysLive(s: State, steps: seq<Step>, n: string)
    requires Calm(s) && Runs(s, steps) && ParentFirstRun(s, steps) && n in s.live
    ensures n in After(s, steps).live && !After(s, steps).live[n].dying
  {
    CalmRun(s, steps);
    if steps != [] {
      var init := steps[..|steps| - 1];
      StaysLive(s, init, n);
      CalmRun(s, init);
      CalmKeepsLive(After(s, init), steps[|steps| - 1], n);
    }
  }
}
