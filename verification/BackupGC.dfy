/**
 * The backup garbage collector: the API server's backups, the informer cache that follows them
 * one event at a time, and the goroutines its event handlers spawn. The machine starts once the
 * cache has synced.
 */
module BackupGC {
  import opened Base
  import opened BackupKeys

  /** A backup on the server; deleted ones stay, dying, until their finalizer goes. */
  datatype Object = Object(spec: Backup, dying: bool)

  datatype Event =
    | Added(name: string, spec: Backup)
    | Updated(name: string, spec: Backup)
    | Deleted(name: string)

  /** A goroutine: an orphan check, a child sweep before its lookup, or one deleting what it found. */
  datatype Task =
    | Check(name: string, spec: Backup)
    | Sweep(spec: Backup)
    | Deleting(names: seq<string>)

  datatype State = State(live: map<string, Object>, cache: Cache, events: seq<Event>, tasks: seq<Task>)

  datatype Step =
    // outside
    | Create(name: string, spec: Backup)
    | Update(name: string, spec: Backup)
    | Remove(name: string)
    | Finalize(name: string)
    // the collector
    | Deliver
    | RunCheck(i: nat)
    | Lookup(i: nat, found: seq<string>)
    | DeleteNext(i: nat)

  /** Delete by name: sets the deletion timestamp, and does nothing to a dying or missing object. */
  function DeleteByName(live: map<string, Object>, name: string): (r: map<string, Object>)
    ensures r.Keys == live.Keys
    ensures forall n :: n in live ==> r[n].spec == live[n].spec && (r[n].dying <==> live[n].dying || n == name)
  {
    if name in live then live[name := live[name].(dying := true)] else live
  }

  function ApplyEvent(cache: Cache, e: Event): Cache {
    match e
    case Added(name, spec) => cache[name := spec]
    case Updated(name, spec) => cache[name := spec]
    case Deleted(name) => cache - {name}
  }

  /** What the event handlers spawn. */
  function Spawned(cache: Cache, e: Event): seq<Task> {
    match e
    case Added(name, spec) => if spec.prev != "" then [Check(name, spec)] else []
    case Updated(name, spec) =>
      if name in cache && cache[name].prev != spec.prev && spec.prev != "" then [Check(name, spec)] else []
    case Deleted(name) => if name in cache then [Sweep(cache[name])] else []
  }

  function Without(tasks: seq<Task>, i: nat): (r: seq<Task>)
    requires i < |tasks|
    ensures forall t :: t in tasks ==> t in r || t == tasks[i]
    ensures forall t :: t in r ==> t in tasks
  {
    tasks[..i] + tasks[i + 1..]
  }

  /** The found backups, in whatever order the index yields them. */
  ghost predicate Enumerates(found: seq<string>, names: set<string>) {
    (forall n :: n in found <==> n in names) && (forall i, j :: 0 <= i < j < |found| ==> found[i] != found[j])
  }

  ghost predicate Enabled(s: State, step: Step) {
    match step
    case Create(name, _) => name !in s.live
    case Update(name, _) => name in s.live
    case Remove(name) => name in s.live
    case Finalize(name) => name in s.live && s.live[name].dying
    case Deliver => s.events != []
    case RunCheck(i) => i < |s.tasks| && s.tasks[i].Check?
    case Lookup(i, found) =>
      i < |s.tasks| && s.tasks[i].Sweep? && Enumerates(found, ByPrevious(s.cache, SnapKey(s.tasks[i].spec)))
    case DeleteNext(i) => i < |s.tasks| && s.tasks[i].Deleting?
  }

  function Apply(s: State, step: Step): State
    requires Enabled(s, step)
  {
    match step
    case Create(name, spec) => s.(live := s.live[name := Object(spec, false)], events := s.events + [Added(name, spec)])
    case Update(name, spec) =>
      s.(live := s.live[name := s.live[name].(spec := spec)], events := s.events + [Updated(name, spec)])
    case Remove(name) => s.(live := DeleteByName(s.live, name))
    case Finalize(name) => s.(live := s.live - {name}, events := s.events + [Deleted(name)])
    case Deliver =>
      s.(cache := ApplyEvent(s.cache, s.events[0]), events := s.events[1..],
         tasks := s.tasks + Spawned(s.cache, s.events[0]))
    case RunCheck(i) =>
      // deleteOrphanedIncBackup
      var t := s.tasks[i];
      var gone := t.spec.prev != "" && BySnapshot(s.cache, PrevKey(t.spec).value) == {};
      s.(tasks := Without(s.tasks, i), live := if gone then DeleteByName(s.live, t.name) else s.live)
    case Lookup(i, found) =>
      // deleteBackupsReferencingDeletedBackup up to its loop
      s.(tasks := s.tasks[i := Deleting(found)])
    case DeleteNext(i) =>
      var names := s.tasks[i].names;
      if names == [] then s.(tasks := Without(s.tasks, i))
      else s.(tasks := s.tasks[i := Deleting(names[1..])], live := DeleteByName(s.live, names[0]))
  }

  ghost predicate Runs(s: State, steps: seq<Step>)
    decreases |steps|, 0
  {
    steps == [] || (Runs(s, steps[..|steps| - 1]) && Enabled(After(s, steps[..|steps| - 1]), steps[|steps| - 1]))
  }

  ghost function After(s: State, steps: seq<Step>): State
    requires Runs(s, steps)
    decreases |steps|, 1
  {
    if steps == [] then s else Apply(After(s, steps[..|steps| - 1]), steps[|steps| - 1])
  }

  function Specs(live: map<string, Object>): Cache { map n | n in live :: live[n].spec }

  /** After the first sync: the cache is the server's state, nothing is under way. */
  ghost predicate Synced(s: State) { s.cache == Specs(s.live) && s.events == [] && s.tasks == [] }

  // ---- the cache follows the server ---------------------------------------------------------------

  function Replay(cache: Cache, events: seq<Event>): Cache {
    if events == [] then cache else ApplyEvent(Replay(cache, events[..|events| - 1]), events[|events| - 1])
  }

  ghost predicate Follows(s: State) { Replay(s.cache, s.events) == Specs(s.live) }

  lemma {:induction false} ReplayHead(cache: Cache, events: seq<Event>)
    requires events != []
    ensures Replay(cache, events) == Replay(ApplyEvent(cache, events[0]), events[1..])
  {
    if |events| > 1 {
      var init := events[..|events| - 1];
      ReplayHead(cache, init);
      assert init[1..] == events[1..][..|events| - 2];
    } else {
      assert events[..0] == [] && events[1..] == [];
    }
  }

  lemma ReplayOne(cache: Cache, events: seq<Event>, e: Event)
    ensures Replay(cache, events + [e]) == ApplyEvent(Replay(cache, events), e)
  {
    assert (events + [e])[..|events|] == events;
  }

  lemma SpecsPut(live: map<string, Object>, n: string, o: Object)
    ensures Specs(live[n := o]) == Specs(live)[n := o.spec]
  {
  }

  lemma SpecsCut(live: map<string, Object>, n: string)
    ensures Specs(live - {n}) == Specs(live) - {n}
  {
  }

  /** The collector's own steps mark backups as dying and no more. */
  lemma SpecsKept(s: State, step: Step)
    requires Enabled(s, step) && !(step.Create? || step.Update? || step.Finalize? || step.Deliver?)
    ensures Specs(Apply(s, step).live) == Specs(s.live)
  {
  }

  lemma FollowsStep(s: State, step: Step)
    requires Follows(s) && Enabled(s, step)
    ensures Follows(Apply(s, step))
  {
    match step
    case Create(name, spec) =>
      ReplayOne(s.cache, s.events, Added(name, spec));
      SpecsPut(s.live, name, Object(spec, false));
    case Update(name, spec) =>
      ReplayOne(s.cache, s.events, Updated(name, spec));
      SpecsPut(s.live, name, s.live[name].(spec := spec));
    case Finalize(name) =>
      ReplayOne(s.cache, s.events, Deleted(name));
      SpecsCut(s.live, name);
    case Deliver => ReplayHead(s.cache, s.events);
    case _ => SpecsKept(s, step);
  }

  /** A cached backup the server no longer has is one whose deletion is on its way to the cache. */
  lemma {:induction false} DeletionOnItsWay(cache: Cache, events: seq<Event>, n: string)
    requires n in cache && n !in Replay(cache, events)
    ensures Deleted(n) in events
  {
    var init, last := events[..|events| - 1], events[|events| - 1];
    if n in Replay(cache, init) {
      assert last == Deleted(n);
    } else {
      DeletionOnItsWay(cache, init, n);
    }
  }

  /** An update the handlers can deal with, wherever it comes: see UpdateSafeIff. */
  predicate SafeUpdate(before: Backup, after: Backup) {
    && (SnapKey(before) == SnapKey(after) || !Nameable(SnapKey(before)))
    && (before.prev == after.prev ==> PrevKey(before) == PrevKey(after) || PrevKey(after) == Some(SnapKey(after)))
  }

  /** Updates in the run are ones the handlers can deal with. */
  ghost predicate Gentle(s: State, step: Step) {
    step.Update? && step.name in s.live ==> SafeUpdate(s.live[step.name].spec, step.spec)
  }

  /** An event that fits the cache it will meet. */
  ghost predicate Fits(cache: Cache, e: Event) {
    match e
    case Added(name, _) => name !in cache
    case Updated(name, spec) => name in cache && SafeUpdate(cache[name], spec)
    case Deleted(name) => name in cache
  }

  ghost predicate EventsFit(cache: Cache, events: seq<Event>) {
    forall i :: 0 <= i < |events| ==> Fits(Replay(cache, events[..i]), events[i])
  }

  lemma EventsFitTail(cache: Cache, events: seq<Event>)
    requires events != [] && EventsFit(cache, events)
    ensures EventsFit(ApplyEvent(cache, events[0]), events[1..])
  {
    var rest := events[1..];
    forall i | 0 <= i < |rest| ensures Fits(Replay(ApplyEvent(cache, events[0]), rest[..i]), rest[i]) {
      assert events[..i + 1][1..] == rest[..i];
      ReplayHead(cache, events[..i + 1]);
      assert Fits(Replay(cache, events[..i + 1]), events[i + 1]);
    }
  }

  lemma EventsFitOne(cache: Cache, events: seq<Event>, e: Event)
    requires EventsFit(cache, events) && Fits(Replay(cache, events), e)
    ensures EventsFit(cache, events + [e])
  {
    var all := events + [e];
    forall i | 0 <= i < |all| ensures Fits(Replay(cache, all[..i]), all[i]) {
      if i < |events| { assert all[..i] == events[..i]; } else { assert all[..i] == events; }
    }
  }

  lemma EventsFitStep(s: State, step: Step)
    requires Follows(s) && EventsFit(s.cache, s.events) && Enabled(s, step) && Gentle(s, step)
    ensures EventsFit(Apply(s, step).cache, Apply(s, step).events)
  {
    match step
    case Create(name, spec) => EventsFitOne(s.cache, s.events, Added(name, spec));
    case Update(name, spec) => EventsFitOne(s.cache, s.events, Updated(name, spec));
    case Finalize(name) => EventsFitOne(s.cache, s.events, Deleted(name));
    case Deliver => EventsFitTail(s.cache, s.events);
    case _ =>
  }

  // ---- integrity ----------------------------------------------------------------------------------

  /** An incremental backup whose parent's key nothing in the cache has. */
  predicate Orphan(cache: Cache, n: string) {
    n in cache && cache[n].prev != "" && BySnapshot(cache, PrevKey(cache[n]).value) == {}
  }

  /** A goroutine that will see to the backup. */
  ghost predicate Covers(t: Task, n: string, key: string) {
    match t
    case Check(name, spec) => name == n && PrevKey(spec) == Some(key)
    case Sweep(spec) => SnapKey(spec) == key
    case Deleting(names) => n in names
  }

  ghost predicate Covered(tasks: seq<Task>, n: string, key: string) {
    exists t :: t in tasks && Covers(t, n, key)
  }

  ghost predicate DeleteIssued(s: State, n: string) {
    Deleted(n) in s.events || (n in s.live && s.live[n].dying)
  }

  ghost predicate Cared(s: State, n: string) {
    Orphan(s.cache, n) ==> DeleteIssued(s, n) || Covered(s.tasks, n, PrevKey(s.cache[n]).value)
  }

  ghost predicate Integrity(s: State) {
    Follows(s) && EventsFit(s.cache, s.events) && forall n :: Cared(s, n)
  }

  /** An orphan after the event was one before, unless the event took its parent away. */
  lemma StillOrphan(cache: Cache, e: Event, n: string)
    requires Fits(cache, e) && n in cache && Orphan(ApplyEvent(cache, e), n)
    requires PrevKey(ApplyEvent(cache, e)[n]) == PrevKey(cache[n])
    requires e.Deleted? ==> SnapKey(cache[e.name]) != PrevKey(cache[n]).value
    ensures Orphan(cache, n)
  {
    var key := PrevKey(cache[n]).value;
    Named(cache[n]);
    assert forall m :: m in BySnapshot(cache, key) ==> m in BySnapshot(ApplyEvent(cache, e), key);
  }

  /** A delivered event makes no orphan the handlers do not take up. */
  lemma DeliverCares(s: State, n: string)
    requires s.events != [] && Fits(s.cache, s.events[0]) && Cared(s, n)
    ensures Cared(Apply(s, Deliver), n)
  {
    var s', e := Apply(s, Deliver), s.events[0];
    if Orphan(s'.cache, n) {
      var key := PrevKey(s'.cache[n]).value;
      var spawned := Spawned(s.cache, e);
      if spawned != [] && Covers(spawned[0], n, key) {
        assert spawned[0] in s'.tasks;
      } else {
        assert n in BySnapshot(s'.cache, SnapKey(s'.cache[n]));
        assert n in s.cache && PrevKey(s.cache[n]) == Some(key);
        StillOrphan(s.cache, e, n);
        if Covered(s.tasks, n, key) {
          var t :| t in s.tasks && Covers(t, n, key);
          assert t in s'.tasks;
        }
      }
    }
  }

  /** Once a task is done with a backup, its delete is issued. */
  lemma Issued(s: State, step: Step, n: string)
    requires Follows(s) && Enabled(s, step) && n in s.cache
    requires !step.Deliver? && !step.Finalize? && !step.Create? && !step.Update?
    requires Apply(s, step).live == DeleteByName(s.live, n)
    ensures DeleteIssued(Apply(s, step), n)
  {
    if n !in s.live { DeletionOnItsWay(s.cache, s.events, n); }
  }

  lemma OtherTaskStays(s: State, step: Step, t: Task)
    requires Enabled(s, step) && (step.RunCheck? || step.Lookup? || step.DeleteNext?)
    requires t in s.tasks && t != s.tasks[step.i]
    ensures t in Apply(s, step).tasks
  {
    var k :| 0 <= k < |s.tasks| && s.tasks[k] == t;
    var s' := Apply(s, step);
    if |s'.tasks| == |s.tasks| { assert s'.tasks[k] == t; }
  }

  lemma TaskCares(s: State, step: Step, n: string)
    requires Follows(s) && Enabled(s, step) && Cared(s, n)
    requires step.RunCheck? || step.Lookup? || step.DeleteNext?
    ensures Cared(Apply(s, step), n)
  {
    var s' := Apply(s, step);
    if Orphan(s.cache, n) && !DeleteIssued(s, n) {
      var key := PrevKey(s.cache[n]).value;
      var t :| t in s.tasks && Covers(t, n, key);
      if t != s.tasks[step.i] {
        OtherTaskStays(s, step, t);
      } else if step.RunCheck? {
        Issued(s, step, n);
      } else if step.Lookup? {
        assert s'.tasks[step.i] in s'.tasks;
      } else {
        var names := s.tasks[step.i].names;
        if names[0] == n { Issued(s, step, n); }
        else { assert s'.tasks[step.i] in s'.tasks; }
      }
    }
  }

  lemma OutsideCares(s: State, step: Step, n: string)
    requires Follows(s) && Enabled(s, step) && Cared(s, n)
    requires step.Create? || step.Update? || step.Remove? || step.Finalize?
    ensures Cared(Apply(s, step), n)
  {
    var s' := Apply(s, step);
    if Orphan(s.cache, n) && DeleteIssued(s, n) {
      if Deleted(n) in s.events { assert Deleted(n) in s'.events; }
    }
  }

  lemma IntegrityStep(s: State, step: Step)
    requires Integrity(s) && Enabled(s, step) && Gentle(s, step)
    ensures Integrity(Apply(s, step))
  {
    FollowsStep(s, step);
    EventsFitStep(s, step);
    forall n ensures Cared(Apply(s, step), n) {
      assert Cared(s, n);
      if step.Deliver? {
        assert s.events[..0] == [] && Fits(Replay(s.cache, s.events[..0]), s.events[0]);
        DeliverCares(s, n);
      } else if step.RunCheck? || step.Lookup? || step.DeleteNext? {
        TaskCares(s, step, n);
      } else {
        OutsideCares(s, step, n);
      }
    }
  }

  ghost predicate GentleRun(s: State, steps: seq<Step>)
    requires Runs(s, steps)
    decreases |steps|
  {
    steps == [] || (GentleRun(s, steps[..|steps| - 1]) && Gentle(After(s, steps[..|steps| - 1]), steps[|steps| - 1]))
  }

  /** Nothing is on its way and no goroutine is left. */
  predicate Quiescent(s: State) { s.events == [] && s.tasks == [] }

  lemma {:induction false} IntegrityRun(s: State, steps: seq<Step>)
    requires Integrity(s) && Runs(s, steps) && GentleRun(s, steps)
    ensures Integrity(After(s, steps))
  {
    if steps != [] {
      IntegrityRun(s, steps[..|steps| - 1]);
      IntegrityStep(After(s, steps[..|steps| - 1]), steps[|steps| - 1]);
    }
  }

  /**
   * From a synced cache without orphans, in every run of creations, safe updates, deletions and
   * collector steps: whenever nothing is under way, the cache is the server's state and every
   * incremental backup either has a parent there or is being deleted.
   */
  lemma NoOrphanAtRest(s: State, steps: seq<Step>, n: string)
    requires Synced(s) && (forall m :: !Orphan(s.cache, m)) && Runs(s, steps) && GentleRun(s, steps)
    requires Quiescent(After(s, steps))
    ensures var s' := After(s, steps);
            && s'.cache == Specs(s'.live)
            && (n in s'.live && s'.live[n].spec.prev != "" && !s'.live[n].dying ==>
                  exists m :: m in s'.live && SnapKey(s'.live[m].spec) == PrevKey(s'.live[n].spec).value)
  {
    IntegrityRun(s, steps);
    var s' := After(s, steps);
    assert Cared(s', n);
    if n in s'.live && s'.live[n].spec.prev != "" && !s'.live[n].dying {
      assert !Orphan(s'.cache, n);
      var m :| m in BySnapshot(s'.cache, PrevKey(s'.live[n].spec).value);
      assert m in s'.live;
    }
  }

  // ---- updates: exactly which ones are safe -----------------------------------------------------

  /** An incremental backup that is not being deleted and whose parent is not on the server. */
  ghost predicate Stranded(live: map<string, Object>, n: string) {
    && n in live && live[n].spec.prev != "" && !live[n].dying
    && forall m :: m in live ==> SnapKey(live[m].spec) != PrevKey(live[n].spec).value
  }

  predicate ByCollector(step: Step) { step.Deliver? || step.RunCheck? || step.Lookup? || step.DeleteNext? }

  /**
   * From a synced state without orphans, the update of a live backup, then nothing but the collector
   * until nothing is under way: and a backup is stranded.
   */
  ghost predicate Strands(before: Backup, after: Backup, s: State, p: string, steps: seq<Step>, n: string) {
    && Synced(s) && (forall m :: !Orphan(s.cache, m))
    && p in s.live && s.live[p] == Object(before, false)
    && steps != [] && steps[0] == Update(p, after) && (forall i :: 0 < i < |steps| ==> ByCollector(steps[i]))
    && Runs(s, steps) && Quiescent(After(s, steps)) && Stranded(After(s, steps).live, n)
  }

  ghost predicate CanStrand(before: Backup, after: Backup) {
    exists s, p, steps, n :: Strands(before, after, s, p, steps, n)
  }

  lemma RunsOne(s: State, step: Step)
    requires Enabled(s, step)
    ensures Runs(s, [step]) && After(s, [step]) == Apply(s, step)
  {
    assert [step][..0] == [];
  }

  lemma RunsSnoc(s: State, steps: seq<Step>, step: Step)
    requires Runs(s, steps) && Enabled(After(s, steps), step)
    ensures Runs(s, steps + [step]) && After(s, steps + [step]) == Apply(After(s, steps), step)
  {
    assert (steps + [step])[..|steps|] == steps;
  }

  /** An update that spawns no check, and its delivery. */
  lemma UpdatedQuietly(s: State, p: string, after: Backup) returns (steps: seq<Step>)
    requires Synced(s) && p in s.live && s.live[p].spec.prev == after.prev
    ensures steps == [Update(p, after), Deliver] && Runs(s, steps)
    ensures var t := After(s, steps); Quiescent(t) && t.live == s.live[p := s.live[p].(spec := after)]
  {
    var u := Update(p, after);
    RunsOne(s, u);
    var s1 := Apply(s, u);
    assert s1.events == [Updated(p, after)] && s1.events[1..] == [];
    RunsSnoc(s, [u], Deliver);
    steps := [u] + [Deliver];
  }

  /** An update that spawns a check, its delivery and the check, which deletes the backup or not. */
  lemma UpdatedAndChecked(s: State, p: string, after: Backup) returns (steps: seq<Step>)
    requires Synced(s) && p in s.live && s.live[p].spec.prev != after.prev && after.prev != ""
    ensures steps == [Update(p, after), Deliver, RunCheck(0)] && Runs(s, steps)
    ensures var t, live := After(s, steps), s.live[p := s.live[p].(spec := after)];
            Quiescent(t) && (t.live == live || t.live == DeleteByName(live, p))
  {
    var u := Update(p, after);
    RunsOne(s, u);
    var s1 := Apply(s, u);
    assert s1.events == [Updated(p, after)] && s1.events[1..] == [] && p in s1.cache;
    RunsSnoc(s, [u], Deliver);
    var s2 := Apply(s1, Deliver);
    assert s2.tasks == [Check(p, after)];
    RunsSnoc(s, [u] + [Deliver], RunCheck(0));
    assert Without(s2.tasks, 0) == [];
    steps := [u] + [Deliver] + [RunCheck(0)];
  }

  /** After the update the rest of the backups are as they were. */
  lemma UpdatedRun(s: State, p: string, after: Backup) returns (steps: seq<Step>)
    requires Synced(s) && p in s.live
    ensures |steps| >= 2 && steps[0] == Update(p, after) && (forall i :: 0 < i < |steps| ==> ByCollector(steps[i]))
    ensures Runs(s, steps)
    ensures var live := After(s, steps).live;
            && Quiescent(After(s, steps)) && live.Keys == s.live.Keys && live[p].spec == after
            && forall n :: n in s.live && n != p ==> live[n] == s.live[n]
  {
    if s.live[p].spec.prev != after.prev && after.prev != "" {
      steps := UpdatedAndChecked(s, p, after);
    } else if s.live[p].spec.prev == after.prev {
      steps := UpdatedQuietly(s, p, after);
    } else {
      var u := Update(p, after);
      RunsOne(s, u);
      assert Apply(s, u).events == [Updated(p, after)] && Apply(s, u).events[1..] == [];
      RunsSnoc(s, [u], Deliver);
      steps := [u] + [Deliver];
    }
  }

  function ParentOf(b: Backup): Backup { Backup(b.volume, b.node, b.prev, "") }

  /** A backup with a child and, unless it is its own, a parent. */
  function Family(b: Backup, child: Backup): State {
    var live := map["p" := Object(b, false), "c" := Object(child, false)];
    var all :=
      if PrevKey(b).None? || PrevKey(b) == Some(SnapKey(b)) then live
      else live["g" := Object(ParentOf(b), false)];
    State(all, Specs(all), [], [])
  }

  lemma FamilyHasNoOrphan(b: Backup, child: Backup, m: string)
    requires PrevKey(child) == Some(SnapKey(b))
    ensures !Orphan(Family(b, child).cache, m)
  {
    var cache := Family(b, child).cache;
    assert "p" in BySnapshot(cache, SnapKey(b));
    if "g" in cache { assert "g" in BySnapshot(cache, PrevKey(b).value); }
  }

  lemma MovedFamily(b: Backup, child: Backup, after: Backup, live: map<string, Object>)
    requires PrevKey(child) == Some(SnapKey(b)) && SnapKey(child) != SnapKey(b) && SnapKey(after) != SnapKey(b)
    requires live.Keys == Family(b, child).live.Keys && live["p"].spec == after
    requires forall n :: n in live && n != "p" ==> live[n] == Family(b, child).live[n]
    ensures Stranded(live, "c")
  {
  }

  /** The parent moves to another key: its child is stranded. */
  lemma MovedParent(before: Backup, after: Backup)
    requires Nameable(SnapKey(before)) && SnapKey(before) != SnapKey(after)
    ensures CanStrand(before, after)
  {
    var child := NamedBy(SnapKey(before), SnapKey(before));
    assert |SnapKey(child)| > |SnapKey(before)|;
    var s := Family(before, child);
    forall m ensures !Orphan(s.cache, m) { FamilyHasNoOrphan(before, child, m); }
    var steps := UpdatedRun(s, "p", after);
    MovedFamily(before, child, after, After(s, steps).live);
    assert Strands(before, after, s, "p", steps, "c");
  }

  /** The backup itself moves under the same previous name: nobody checks its new parent. */
  lemma MovedChild(before: Backup, after: Backup)
    requires before.prev == after.prev && PrevKey(before) != PrevKey(after)
    requires PrevKey(after) != Some(SnapKey(after))
    ensures CanStrand(before, after)
  {
    var live := map["p" := Object(ParentOf(before), false), "c" := Object(before, false)];
    var s := State(live, Specs(live), [], []);
    assert "p" in BySnapshot(s.cache, PrevKey(before).value);
    forall m ensures !Orphan(s.cache, m) {
    }
    var steps := UpdatedQuietly(s, "c", after);
    assert Stranded(After(s, steps).live, "c");
    assert Strands(before, after, s, "c", steps, "c");
  }

  lemma {:induction false} OneUpdateIsGentle(before: Backup, after: Backup, s: State, p: string, steps: seq<Step>)
    requires SafeUpdate(before, after) && p in s.live && s.live[p].spec == before && Runs(s, steps)
    requires forall i :: 0 <= i < |steps| ==> if i == 0 then steps[i] == Update(p, after) else ByCollector(steps[i])
    ensures GentleRun(s, steps)
  {
    if steps != [] {
      OneUpdateIsGentle(before, after, s, p, steps[..|steps| - 1]);
      if |steps| == 1 { assert steps[..0] == []; }
    }
  }

  lemma SafeUpdateStrandsNone(before: Backup, after: Backup)
    requires SafeUpdate(before, after)
    ensures !CanStrand(before, after)
  {
    forall s, p, steps, n ensures !Strands(before, after, s, p, steps, n) {
      if Strands(before, after, s, p, steps, n) {
        OneUpdateIsGentle(before, after, s, p, steps);
        NoOrphanAtRest(s, steps, n);
      }
    }
  }

  /**
   * The handlers look at an update only when the previous snapshot's name changes. An update can end
   * with a live backup stranded and nobody looking exactly unless it keeps the backup's own key, if
   * that is one a backup can refer to, and does not, under an unchanged previous name, move the
   * parent's key to one other than the backup's own.
   */
  lemma UpdateSafeIff(before: Backup, after: Backup)
    ensures CanStrand(before, after) <==> !SafeUpdate(before, after)
  {
    if SafeUpdate(before, after) { SafeUpdateStrandsNone(before, after); }
    else if Nameable(SnapKey(before)) && SnapKey(before) != SnapKey(after) { MovedParent(before, after); }
    else { MovedChild(before, after); }
  }
}
