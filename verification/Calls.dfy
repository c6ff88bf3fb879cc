/**
 * What the controller's calls come to: left alone and without faults, each call has one outcome, told
 * from the resources it finds.
 */
module Calls {
  import opened Base
  import opened Resource
  import opened Api
  import opened Cluster
  import opened Consistency

  function Next(h: nat): Step { Advance(h, false, false) }

  /** The state after n steps of the call, without faults. */
  function Alone(s: State, h: nat, n: nat): State { if n == 0 then s else Apply(Alone(s, h, n - 1), Next(h)) }

  /** The call, alone, comes to this state. */
  ghost predicate ComesTo(s: State, h: nat, t: State) { exists n: nat :: Alone(s, h, n) == t }

  /** A call that has just begun, whose names nobody holds. */
  ghost predicate Begun(s: State, h: nat, op: Op) {
    && h in s.ctl.calls && s.ctl.calls[h] == Call(op, FirstPc(op), None, {})
    && op.volume !in s.ctl.locks
    && (TwoNames(op) ==> op.snapshot !in s.ctl.locks && op.snapshot != op.volume)
  }

  /** It is over: nothing is locked by it, and nothing touched but the resources. */
  ghost predicate Over(s: State, t: State, h: nat) {
    && h in t.ctl.calls && t.ctl.calls[h].pc == Done && t.ctl.locks == s.ctl.locks && t.nodes == s.nodes
    && forall x :: x != h ==> (x in t.ctl.calls <==> x in s.ctl.calls)
                              && (x in s.ctl.calls ==> t.ctl.calls[x] == s.ctl.calls[x])
  }

  // ---- the steps of a call ------------------------------------------------------------------------------

  ghost predicate OwnStep(s: State, h: nat, t: State) { t == Apply(s, Next(h)) }

  /** A set of states that the call's steps do not leave. */
  ghost predicate Closed(r: State -> bool, h: nat) { forall s, t :: r(s) && OwnStep(s, h, t) ==> r(t) }

  lemma From(s: State, h: nat) returns (r: State -> bool)
    ensures Closed(r, h) && r(s) && forall t :: r(t) ==> ComesTo(s, h, t)
  {
    r := t => ComesTo(s, h, t);
    forall u, t | r(u) && OwnStep(u, h, t) ensures r(t) {
      var n: nat :| Alone(s, h, n) == u;
      assert Alone(s, h, n + 1) == t;
    }
    assert Alone(s, h, 0) == s;
  }

  /** In the middle of its body: the call at some point, with its names locked. */
  ghost predicate Amid(s: State, t: State, h: nat, c: Call) {
    && t.nodes == s.nodes && t.ctl.calls == s.ctl.calls[h := c] && !Locking(c.pc)
    && t.ctl.locks == Taken(s, h, c.op)
  }

  function Taken(s: State, h: nat, op: Op): map<string, nat> {
    if TwoNames(op) then s.ctl.locks[op.volume := h][op.snapshot := h] else s.ctl.locks[op.volume := h]
  }

  /** Done with its body, about to unlock. */
  ghost predicate Leaving(s: State, t: State, h: nat, op: Op) {
    && t.nodes == s.nodes && h in t.ctl.calls && t.ctl.calls[h].op == op && t.ctl.calls[h].pc == UnlockVol
    && t.ctl.calls == s.ctl.calls[h := t.ctl.calls[h]] && t.ctl.locks == Taken(s, h, op)
  }

  lemma LocksOne(r: State -> bool, s: State, h: nat, u: State, c: Call) returns (t: State)
    requires Closed(r, h) && r(u) && h in u.ctl.calls && u.ctl.calls[h] == c && Locking(c.pc) && !Blocked(u.ctl, c)
    ensures r(t) && t.server == u.server && t.nodes == u.nodes
    ensures t.ctl.calls == u.ctl.calls[h := LockMove(u.ctl, c)] && t.ctl.locks == LocksAfter(u.ctl, h, c)
  {
    t := Apply(u, Next(h));
    assert OwnStep(u, h, t);
  }

  lemma Enters(r: State -> bool, s: State, h: nat, op: Op) returns (t: State)
    requires Closed(r, h) && r(s) && Begun(s, h, op) && !TwoNames(op) && !Locking(BodyPc(op))
    ensures r(t) && Amid(s, t, h, Call(op, BodyPc(op), None, {})) && t.server == s.server
  {
    t := LocksOne(r, s, h, s, Call(op, LockVol, None, {}));
  }

  lemma EntersBoth(r: State -> bool, s: State, h: nat, op: Op, u: State) returns (t: State)
    requires Closed(r, h) && r(u) && Begun(s, h, op) && TwoNames(op) && u.server == s.server && u.nodes == s.nodes
    requires u.ctl.calls == s.ctl.calls[h := Call(op, LockVol, None, {})] && u.ctl.locks == s.ctl.locks
    ensures r(t) && Amid(s, t, h, Call(op, GetSnap, None, {})) && t.server == s.server
  {
    t := LocksOne(r, s, h, u, Call(op, LockVol, None, {}));
    t := LocksOne(r, s, h, t, Call(op, LockSnap, None, {}));
  }

  lemma Leaves(r: State -> bool, s: State, h: nat, op: Op, u: State) returns (t: State)
    requires Closed(r, h) && r(u) && Begun(s, h, op) && !TwoNames(op) && Leaving(s, u, h, op)
    ensures r(t) && Over(s, t, h) && t.server == u.server
  {
    t := LocksOne(r, s, h, u, u.ctl.calls[h]);
    assert s.ctl.locks[op.volume := h] - {op.volume} == s.ctl.locks;
  }

  lemma LeavesFirst(r: State -> bool, s: State, h: nat, op: Op, u: State) returns (t: State)
    requires Closed(r, h) && r(u) && Begun(s, h, op) && TwoNames(op) && Leaving(s, u, h, op)
    ensures r(t) && t.server == u.server && t.nodes == s.nodes && t.ctl.locks == s.ctl.locks[op.snapshot := h]
    ensures t.ctl.calls == s.ctl.calls[h := u.ctl.calls[h].(pc := UnlockSnap)]
  {
    var locks := s.ctl.locks;
    assert locks[op.volume := h][op.snapshot := h] - {op.volume} == locks[op.snapshot := h];
    t := LocksOne(r, s, h, u, u.ctl.calls[h]);
  }

  lemma LeavesSecond(r: State -> bool, s: State, h: nat, op: Op, u: State, c: Call) returns (t: State)
    requires Closed(r, h) && r(u) && Begun(s, h, op) && TwoNames(op) && c.op == op && c.pc == UnlockSnap
    requires u.nodes == s.nodes && u.ctl.locks == s.ctl.locks[op.snapshot := h] && u.ctl.calls == s.ctl.calls[h := c]
    ensures r(t) && Over(s, t, h) && t.server == u.server
  {
    assert s.ctl.locks[op.snapshot := h] - {op.snapshot} == s.ctl.locks;
    t := LocksOne(r, s, h, u, c);
  }

  lemma LeavesBoth(r: State -> bool, s: State, h: nat, op: Op, u: State) returns (t: State)
    requires Closed(r, h) && r(u) && Begun(s, h, op) && TwoNames(op) && Leaving(s, u, h, op)
    ensures r(t) && Over(s, t, h) && t.server == u.server
  {
    t := LeavesFirst(r, s, h, op, u);
    t := LeavesSecond(r, s, h, op, t, u.ctl.calls[h].(pc := UnlockSnap));
  }

  /** One step of the body. */
  lemma Moves(r: State -> bool, s: State, h: nat, u: State, c: Call, m: Move) returns (t: State)
    requires Closed(r, h) && r(u) && Amid(s, u, h, c) && HandlerMove(u, c, false, false) == m
    ensures r(t) && t.server == Serve(u.server, m.request)
    ensures if m.call.pc == UnlockVol then Leaving(s, t, h, c.op)
            else !Locking(m.call.pc) ==> Amid(s, t, h, m.call)
  {
    t := Apply(u, Next(h));
    assert OwnStep(u, h, t);
  }

  /** A step that sends nothing. */
  lemma Goes(r: State -> bool, s: State, h: nat, u: State, c: Call, c': Call) returns (t: State)
    requires Closed(r, h) && r(u) && Amid(s, u, h, c) && HandlerMove(u, c, false, false) == Move(c', NoRequest)
    ensures r(t) && t.server == u.server
    ensures if c'.pc == UnlockVol then Leaving(s, t, h, c.op) else !Locking(c'.pc) ==> Amid(s, t, h, c')
  {
    t := Moves(r, s, h, u, c, Move(c', NoRequest));
  }

  // ---- DeleteVolume ---------------------------------------------------------------------------------------

  /** All that changes is one more version of one volume. */
  ghost predicate OneMore(before: Server, after: Server, v: string, cr: CR) {
    && after.snaps == before.snaps && after.clock == before.clock + 1
    && Hist(after.vols, v) == Hist(before.vols, v) + [Some(cr.(version := before.clock))]
    && forall x :: x != v ==> Hist(after.vols, x) == Hist(before.vols, x)
  }

  /** A volume that is gone, going or not Ready is left; one without snapshots goes; any other is marked. */
  ghost predicate DeletedOrMarked(before: Server, after: Server, v: string) {
    var cur := Cur(before.vols, v);
    if cur.None? || cur.value.terminating || cur.value.phase != Ready then after == before
    else if exists k :: Labelled(before, k, v) then OneMore(before, after, v, cur.value.(marked := true))
    else
      OneMore(before, after, v,
              cur.value.(terminating := true, finalizers := cur.value.finalizers + [ForegroundDeletion]))
  }

  lemma ServedMark(sv: Server, v: string, cr: CR, after: CR)
    requires OrderedServer(sv) && Cur(sv.vols, v) == Some(cr) && after.version == cr.version
    requires cr.terminating ==> after.finalizers != []
    ensures OneMore(sv, Serve(sv, Update(KVolume, v, after)), v, after.(terminating := cr.terminating))
  {
    assert OrderedHist(Hist(sv.vols, v), sv.clock);
  }

  lemma ServedDelete(sv: Server, v: string, cr: CR)
    requires OrderedServer(sv) && Cur(sv.vols, v) == Some(cr) && !cr.terminating
    ensures OneMore(sv, Serve(sv, Delete(KVolume, v)), v,
                    cr.(terminating := true, finalizers := cr.finalizers + [ForegroundDeletion]))
  {
  }

  lemma Marks(r: State -> bool, s: State, h: nat, v: string, u: State) returns (t: State)
    requires Closed(r, h) && r(u) && Begun(s, h, DeleteVolumeOp(v)) && u.server == s.server
    requires Amid(s, u, h, Call(DeleteVolumeOp(v), MarkGet, None, ListSnaps(s.server, v)))
    requires Cur(s.server.vols, v).Some?
    ensures r(t) && Over(s, t, h)
    ensures t.server == Serve(s.server, Update(KVolume, v, Cur(s.server.vols, v).value.(marked := true)))
  {
    var c := Call(DeleteVolumeOp(v), MarkGet, None, ListSnaps(s.server, v));
    var c1, cr := c.(copy := Cur(s.server.vols, v), pc := MarkUpdate), Cur(s.server.vols, v).value;
    t := Goes(r, s, h, u, c, c1);
    t := Moves(r, s, h, t, c1, Move(c1.(pc := UnlockVol), Update(KVolume, v, cr.(marked := true))));
    t := Leaves(r, s, h, c.op, t);
  }

  lemma Deletes(r: State -> bool, s: State, h: nat, v: string, u: State) returns (t: State)
    requires Closed(r, h) && r(u) && Begun(s, h, DeleteVolumeOp(v)) && u.server == s.server
    requires Amid(s, u, h, Call(DeleteVolumeOp(v), DelVol, None, {}))
    ensures r(t) && Over(s, t, h) && t.server == Serve(s.server, Delete(KVolume, v))
  {
    var c := Call(DeleteVolumeOp(v), DelVol, None, {});
    t := Moves(r, s, h, u, c, Move(c.(pc := UnlockVol), Delete(KVolume, v)));
    t := Leaves(r, s, h, c.op, t);
  }

  lemma Lists(r: State -> bool, s: State, h: nat, v: string, u: State) returns (t: State)
    requires Closed(r, h) && r(u) && Begun(s, h, DeleteVolumeOp(v)) && u.server == s.server
    requires Amid(s, u, h, Call(DeleteVolumeOp(v), List, None, {}))
    ensures r(t) && t.server == s.server
    ensures if exists k :: Labelled(s.server, k, v)
            then Amid(s, t, h, Call(DeleteVolumeOp(v), MarkGet, None, ListSnaps(s.server, v)))
            else Amid(s, t, h, Call(DeleteVolumeOp(v), DelVol, None, {}))
  {
    var c, listed := Call(DeleteVolumeOp(v), List, None, {}), ListSnaps(s.server, v);
    if k :| Labelled(s.server, k, v) {
      assert k in listed;
      t := Goes(r, s, h, u, c, c.(pc := MarkGet, listed := listed));
    } else {
      assert listed == {};
      t := Goes(r, s, h, u, c, c.(pc := DelVol));
    }
  }

  /** The outcome of a DeleteVolume that nothing disturbs. */
  lemma DeleteVolumeOutcome(s: State, h: nat, v: string) returns (t: State)
    requires Begun(s, h, DeleteVolumeOp(v)) && OrderedServer(s.server)
    ensures ComesTo(s, h, t) && Over(s, t, h) && DeletedOrMarked(s.server, t.server, v)
  {
    var c, cur := Call(DeleteVolumeOp(v), GetVol, None, {}), Cur(s.server.vols, v);
    var r := From(s, h);
    t := Enters(r, s, h, c.op);
    if cur.None? || cur.value.terminating || cur.value.phase != Ready {
      t := Goes(r, s, h, t, c, c.(pc := UnlockVol));
      t := Leaves(r, s, h, c.op, t);
    } else {
      t := Goes(r, s, h, t, c, c.(pc := List));
      t := Lists(r, s, h, v, t);
      if exists k :: Labelled(s.server, k, v) {
        t := Marks(r, s, h, v, t);
        ServedMark(s.server, v, cur.value, cur.value.(marked := true));
      } else {
        t := Deletes(r, s, h, v, t);
        ServedDelete(s.server, v, cur.value);
      }
    }
  }

  // ---- ControllerExpandVolume -----------------------------------------------------------------------------

  /** A resource that is on its way out is kept by a finalizer. */
  ghost predicate Kept(o: Option<CR>) { o.Some? && o.value.terminating ==> o.value.finalizers != [] }

  ghost predicate AllKept(sv: Server) { forall v :: Kept(Cur(sv.vols, v)) }

  /** Nothing on its way out is without one in any run. */
  lemma {:induction false} KeptRun(s: State, steps: seq<Step>)
    requires Initial(s)
    ensures AllKept(Run(s, steps).server)
  {
    if steps != [] {
      var u, step := Run(s, steps[..|steps| - 1]), steps[|steps| - 1];
      KeptRun(s, steps[..|steps| - 1]);
      forall v ensures Kept(Cur(ServerAfter(u, step).vols, v)) {
        assert Kept(Cur(u.server.vols, v));
        ServedCur(u.server, RequestOf(u, step), KVolume, v);
      }
    }
  }

  lemma Resizes(r: State -> bool, s: State, h: nat, op: Op, u: State, cr: CR) returns (t: State)
    requires Closed(r, h) && r(u) && op.ExpandVolumeOp? && u.server == s.server && OrderedServer(s.server)
    requires Amid(s, u, h, Call(op, GetVol, None, {})) && Cur(s.server.vols, op.volume) == Some(cr) && Kept(Some(cr))
    ensures r(t) && Leaving(s, t, h, op)
    ensures OneMore(s.server, t.server, op.volume, cr.(spec := cr.spec.(capacity := op.capacity)))
  {
    var c := Call(op, Resize, Some(cr), {});
    var after := cr.(spec := cr.spec.(capacity := op.capacity));
    t := Goes(r, s, h, u, Call(op, GetVol, None, {}), c);
    t := Moves(r, s, h, t, c, Move(c.(pc := UnlockVol), Update(KVolume, op.volume, after)));
    ServedMark(s.server, op.volume, cr, after);
  }

  /** The volume gets the new capacity and keeps everything else. */
  lemma ExpandVolumeOutcome(s: State, h: nat, v: string, capacity: string) returns (t: State)
    requires Begun(s, h, ExpandVolumeOp(v, capacity)) && OrderedServer(s.server) && Kept(Cur(s.server.vols, v))
    ensures ComesTo(s, h, t) && Over(s, t, h)
    ensures match Cur(s.server.vols, v)
            case None => t.server == s.server
            case Some(cr) => OneMore(s.server, t.server, v, cr.(spec := cr.spec.(capacity := capacity)))
  {
    var c, cur := Call(ExpandVolumeOp(v, capacity), GetVol, None, {}), Cur(s.server.vols, v);
    var r := From(s, h);
    t := Enters(r, s, h, c.op);
    if cur.None? {
      t := Goes(r, s, h, t, c, c.(pc := UnlockVol));
    } else {
      t := Resizes(r, s, h, c.op, t, cur.value);
    }
    t := Leaves(r, s, h, c.op, t);
  }

  // ---- CreateSnapshot -------------------------------------------------------------------------------------

  /** A new snapshot of the volume: its spec, with the user properties of the request. */
  ghost predicate Snapshotted(before: Server, after: Server, v: string, k: string, props: map<string, string>) {
    && after.vols == before.vols && after.clock == before.clock + 1
    && Cur(before.vols, v).Some?
    && (var spec := Cur(before.vols, v).value.spec.(userProperties := props);
        Hist(after.snaps, k)
        == Hist(before.snaps, k) + [Some(CR(before.clock, spec, Labels(v, None, ""), Pending, [], false, false))])
    && forall x :: x != k ==> Hist(after.snaps, x) == Hist(before.snaps, x)
  }

  /** A snapshot is made exactly when its name is free and its volume there; otherwise nothing changes. */
  ghost predicate TakenOrNot(before: Server, after: Server, v: string, k: string, props: map<string, string>) {
    if Cur(before.snaps, k).None? && Cur(before.vols, v).Some? then Snapshotted(before, after, v, k, props)
    else after == before
  }

  lemma TakesFound(r: State -> bool, s: State, h: nat, op: Op, u: State, c: Call) returns (t: State)
    requires Closed(r, h) && r(u) && op.CreateSnapshotOp? && u.server == s.server && Amid(s, u, h, c)
    requires c == Call(op, CreateSnap, Cur(s.server.vols, op.volume), {}) && c.copy.Some?
    requires Cur(s.server.snaps, op.snapshot).None?
    ensures r(t) && Leaving(s, t, h, op) && TakenOrNot(s.server, t.server, op.volume, op.snapshot, op.props)
  {
    var spec := c.copy.value.spec.(userProperties := op.props);
    var snap := CR(0, spec, Labels(op.volume, None, ""), Pending, [], false, false);
    t := Moves(r, s, h, u, c, Move(c.(pc := UnlockVol), Create(KSnapshot, op.snapshot, snap)));
  }

  lemma Takes(r: State -> bool, s: State, h: nat, op: Op, u: State) returns (t: State)
    requires Closed(r, h) && r(u) && op.CreateSnapshotOp? && u.server == s.server
    requires Amid(s, u, h, Call(op, GetVol, None, {})) && Cur(s.server.snaps, op.snapshot).None?
    ensures r(t) && Leaving(s, t, h, op) && TakenOrNot(s.server, t.server, op.volume, op.snapshot, op.props)
  {
    var c, cur := Call(op, GetVol, None, {}), Cur(s.server.vols, op.volume);
    if cur.None? {
      t := Goes(r, s, h, u, c, c.(pc := UnlockVol));
    } else {
      t := Goes(r, s, h, u, c, c.(pc := CreateSnap, copy := cur));
      t := TakesFound(r, s, h, op, t, c.(pc := CreateSnap, copy := cur));
    }
  }

  lemma TakesInside(r: State -> bool, s: State, h: nat, op: Op, u: State) returns (t: State)
    requires Closed(r, h) && r(u) && op.CreateSnapshotOp? && u.server == s.server
    requires Amid(s, u, h, Call(op, GetSnap, None, {}))
    ensures r(t) && Leaving(s, t, h, op) && TakenOrNot(s.server, t.server, op.volume, op.snapshot, op.props)
  {
    var c := Call(op, GetSnap, None, {});
    if Cur(s.server.snaps, op.snapshot).Some? {
      t := Goes(r, s, h, u, c, c.(pc := UnlockVol));
    } else {
      t := Goes(r, s, h, u, c, c.(pc := GetVol));
      t := Takes(r, s, h, op, t);
    }
  }

  /** The check of the name, before the locks. */
  lemma Verifies(r: State -> bool, s: State, h: nat, op: Op) returns (t: State)
    requires Closed(r, h) && r(s) && op.CreateSnapshotOp? && Begun(s, h, op)
    ensures r(t) && t.server == s.server && t.nodes == s.nodes && t.ctl.locks == s.ctl.locks
    ensures var taken := Cur(s.server.snaps, op.snapshot).Some? && !Labelled(s.server, op.snapshot, op.volume);
            t.ctl.calls == s.ctl.calls[h := Call(op, if taken then Done else LockVol, None, {})]
  {
    t := Apply(s, Next(h));
    assert OwnStep(s, h, t);
  }

  /** The outcome of a CreateSnapshot that nothing disturbs. */
  lemma CreateSnapshotOutcome(s: State, h: nat, v: string, k: string, props: map<string, string>) returns (t: State)
    requires Begun(s, h, CreateSnapshotOp(v, k, props))
    ensures ComesTo(s, h, t) && Over(s, t, h) && TakenOrNot(s.server, t.server, v, k, props)
  {
    var op := CreateSnapshotOp(v, k, props);
    var r := From(s, h);
    t := Verifies(r, s, h, op);
    if !(Cur(s.server.snaps, k).Some? && !Labelled(s.server, k, v)) {
      t := EntersBoth(r, s, h, op, t);
      t := TakesInside(r, s, h, op, t);
      t := LeavesBoth(r, s, h, op, t);
    }
  }

  // ---- DeleteSnapshot -------------------------------------------------------------------------------------

  /** On its way out: it was already, or it now has a deletion timestamp and is otherwise as it was. */
  ghost predicate Going(before: Option<CR>, after: Option<CR>) {
    && before.Some? && after.Some? && after.value.terminating
    && (before.value.terminating ==> after == before)
    && after.value.spec == before.value.spec && after.value.labels == before.value.labels
    && after.value.phase == before.value.phase && after.value.marked == before.value.marked
  }

  ghost predicate Only(sv: Server, v: string, x: string) { forall k :: Labelled(sv, k, v) <==> k == x }

  /** One snapshot of the volume and no other. */
  ghost predicate OneLeft(sv: Server, v: string) { exists x :: Only(sv, v, x) }

  /** The snapshot goes; its volume goes with it exactly when it was marked and had one snapshot. */
  ghost predicate SnapshotDeleted(before: Server, after: Server, v: string, k: string) {
    if Cur(before.snaps, k).None? then after == before
    else
      && Going(Cur(before.snaps, k), Cur(after.snaps, k))
      && (forall x :: x != k ==> Hist(after.snaps, x) == Hist(before.snaps, x))
      && (forall x :: x != v ==> Hist(after.vols, x) == Hist(before.vols, x))
      && (if Cur(before.vols, v).Some? && Cur(before.vols, v).value.marked && OneLeft(before, v)
          then Going(Cur(before.vols, v), Cur(after.vols, v))
          else Hist(after.vols, v) == Hist(before.vols, v))
  }

  lemma OneListed(listed: set<string>, x: string)
    requires |listed| == 1 && x in listed
    ensures listed == {x}
  {
    assert |listed - {x}| == 0;
    assert listed == (listed - {x}) + {x};
  }

  lemma OneIsOne(sv: Server, v: string)
    ensures OneLeft(sv, v) <==> |ListSnaps(sv, v)| == 1
  {
    var listed := ListSnaps(sv, v);
    if x :| Only(sv, v, x) {
      assert listed == {x};
    }
    if |listed| == 1 {
      var x :| x in listed;
      OneListed(listed, x);
      assert Only(sv, v, x);
    }
  }

  lemma ServedGoing(sv: Server, kind: Kind, name: string)
    requires CurOf(sv, kind, name).Some?
    ensures var sv' := Serve(sv, Delete(kind, name));
            && Going(CurOf(sv, kind, name), CurOf(sv', kind, name))
            && (if kind == KVolume then sv'.snaps == sv.snaps else sv'.vols == sv.vols)
            && forall x :: x != name ==> Hist(TableOf(sv', kind), x) == Hist(TableOf(sv, kind), x)
  {
  }

  lemma DropsVolume(r: State -> bool, s: State, h: nat, c: Call, u: State) returns (t: State)
    requires Closed(r, h) && r(u) && c.op.DeleteSnapshotOp? && c.pc == Eligible && Amid(s, u, h, c)
    ensures r(t) && Leaving(s, t, h, c.op)
    ensures var v := c.op.volume;
            t.server == if Cur(u.server.vols, v).Some? && Cur(u.server.vols, v).value.marked && |c.listed| == 1
                        then Serve(u.server, Delete(KVolume, v)) else u.server
  {
    var v := c.op.volume;
    if Cur(u.server.vols, v).Some? && Cur(u.server.vols, v).value.marked && |c.listed| == 1 {
      t := Goes(r, s, h, u, c, c.(pc := DelVol));
      t := Moves(r, s, h, t, c.(pc := DelVol), Move(c.(pc := UnlockVol), Delete(KVolume, v)));
    } else {
      t := Goes(r, s, h, u, c, c.(pc := UnlockVol));
    }
  }

  lemma DropsSnapshot(r: State -> bool, s: State, h: nat, op: Op, u: State) returns (t: State, c: Call)
    requires Closed(r, h) && r(u) && op.DeleteSnapshotOp? && Amid(s, u, h, Call(op, GetSnap, None, {}))
    requires u.server == s.server && Cur(s.server.snaps, op.snapshot).Some?
    ensures r(t) && Amid(s, t, h, c) && t.server == Serve(s.server, Delete(KSnapshot, op.snapshot))
    ensures c.op == op && c.pc == Eligible && c.listed == ListSnaps(s.server, op.volume)
  {
    c := Call(op, GetSnap, None, {});
    var c1 := c.(pc := List, copy := Cur(s.server.snaps, op.snapshot));
    var c2 := c1.(pc := DelSnap, listed := ListSnaps(s.server, op.volume));
    t := Goes(r, s, h, u, c, c1);
    t := Goes(r, s, h, t, c1, c2);
    t := Moves(r, s, h, t, c2, Move(c2.(pc := Eligible), Delete(KSnapshot, op.snapshot)));
    c := c2.(pc := Eligible);
  }

  lemma BothGo(sv: Server, v: string, k: string, sv': Server)
    requires Cur(sv.snaps, k).Some?
    requires var sv1 := Serve(sv, Delete(KSnapshot, k));
             sv' == if Cur(sv.vols, v).Some? && Cur(sv.vols, v).value.marked && |ListSnaps(sv, v)| == 1
                    then Serve(sv1, Delete(KVolume, v)) else sv1
    ensures SnapshotDeleted(sv, sv', v, k)
  {
    OneIsOne(sv, v);
    ServedGoing(sv, KSnapshot, k);
    var sv1 := Serve(sv, Delete(KSnapshot, k));
    if Cur(sv.vols, v).Some? { ServedGoing(sv1, KVolume, v); }
  }

  /** The outcome of a DeleteSnapshot that nothing disturbs. */
  lemma DeleteSnapshotOutcome(s: State, h: nat, v: string, k: string) returns (t: State)
    requires Begun(s, h, DeleteSnapshotOp(v, k))
    ensures ComesTo(s, h, t) && Over(s, t, h) && SnapshotDeleted(s.server, t.server, v, k)
  {
    var op := DeleteSnapshotOp(v, k);
    var c := Call(op, GetSnap, None, {});
    var r := From(s, h);
    assert s.ctl.calls[h := Call(op, LockVol, None, {})] == s.ctl.calls;
    t := EntersBoth(r, s, h, op, s);
    if Cur(s.server.snaps, k).None? {
      t := Goes(r, s, h, t, c, c.(pc := UnlockVol));
    } else {
      t, c := DropsSnapshot(r, s, h, op, t);
      ServedGoing(s.server, KSnapshot, k);
      t := DropsVolume(r, s, h, c, t);
      BothGo(s.server, v, k, t.server);
    }
    t := LeavesBoth(r, s, h, op, t);
  }

  // ---- DeleteVolume in every run --------------------------------------------------------------------------

  /** Nobody crashes the controller, and the call itself meets no fault. */
  ghost predicate Clean(steps: seq<Step>, h: nat) {
    && CrashController !in steps
    && forall i :: 0 <= i < |steps| && steps[i].Advance? && steps[i].h == h ==> !steps[i].fails
  }

  /**
   * Where a DeleteVolume call can be after its listing in `s`: on its way to delete, if there was no
   * snapshot; otherwise on its way to mark the version it has read, which is the one of the listing
   * unless somebody has written the volume since.
   */
  ghost predicate Decided(s: State, u: State, h: nat, v: string) {
    && h in u.ctl.calls && u.ctl.calls[h].op == DeleteVolumeOp(v)
    && |Hist(s.server.vols, v)| <= |Hist(u.server.vols, v)|
    && var c := u.ctl.calls[h];
       if exists k :: Labelled(s.server, k, v) then
         && c.pc in {MarkGet, MarkUpdate, UnlockVol, Done}
         && (c.pc == MarkUpdate ==> c.copy.Some?)
         && (c.pc == MarkUpdate && Hist(u.server.vols, v) == Hist(s.server.vols, v) ==>
             c.copy == Cur(u.server.vols, v))
       else c.pc in {DelVol, UnlockVol, Done}
  }

  lemma DecidesAtList(s: State, h: nat, v: string, timeout: bool)
    requires h in s.ctl.calls && s.ctl.calls[h].op == DeleteVolumeOp(v) && s.ctl.calls[h].pc == List
    ensures Decided(s, Apply(s, Advance(h, false, timeout)), h, v)
  {
    var c, listed := s.ctl.calls[h], ListSnaps(s.server, v);
    if k :| Labelled(s.server, k, v) { assert k in listed; } else { assert listed == {}; }
    assert HandlerMove(s, c, false, timeout)
        == Move(c.(listed := listed, pc := if listed == {} then DelVol else MarkGet), NoRequest);
  }

  lemma Grows(s: State, step: Step, v: string)
    ensures || Hist(ServerAfter(s, step).vols, v) == Hist(s.server.vols, v)
            || |Hist(ServerAfter(s, step).vols, v)| == |Hist(s.server.vols, v)| + 1
  {
    Served(s.server, RequestOf(s, step), Slot(KVolume, "", v));
  }

  lemma DecidedOwn(s: State, u: State, h: nat, v: string, timeout: bool)
    requires Decided(s, u, h, v)
    ensures Decided(s, Apply(u, Advance(h, false, timeout)), h, v)
  {
    var c, t := u.ctl.calls[h], Apply(u, Advance(h, false, timeout));
    Grows(u, Advance(h, false, timeout), v);
    if Locking(c.pc) {
      assert t.ctl.calls[h] == c.(pc := Done);
    } else {
      assert t.ctl.calls[h] == DeleteVolumeMove(u.server, c, false).call;
      if c.pc == MarkGet { assert t.server == u.server; }
    }
  }

  lemma DecidedOther(s: State, u: State, h: nat, v: string, step: Step)
    requires Decided(s, u, h, v) && step != CrashController && !(step.Advance? && step.h == h)
    ensures Decided(s, Apply(u, step), h, v)
  {
    OthersLeave(u, step, h);
    Grows(u, step, v);
  }

  lemma {:induction false} DecidedRun(s: State, u: State, steps: seq<Step>, h: nat, v: string)
    requires Decided(s, u, h, v) && Clean(steps, h)
    ensures Decided(s, Run(u, steps), h, v)
  {
    if steps != [] {
      var before, step := steps[..|steps| - 1], steps[|steps| - 1];
      DecidedRun(s, u, before, h, v);
      if step.Advance? && step.h == h { DecidedOwn(s, Run(u, before), h, v, step.timeout); }
      else { DecidedOther(s, Run(u, before), h, v, step); }
    }
  }

  /** The call's last step in its body. */
  ghost predicate Ends(u: State, t: State, h: nat) {
    && h in u.ctl.calls && u.ctl.calls[h].pc !in {UnlockVol, UnlockSnap, Done}
    && OwnStep(u, h, t) && h in t.ctl.calls && t.ctl.calls[h].pc == UnlockVol
  }

  /** Its last request, once the decision is made. */
  lemma DecidedEnds(s: State, u: State, t: State, h: nat, v: string)
    requires Decided(s, u, h, v) && Ends(u, t, h) && Cur(u.server.vols, v).Some?
    ensures var cur, after := Cur(u.server.vols, v).value, Cur(t.server.vols, v);
            if exists k :: Labelled(s.server, k, v) then
              && (after.Some? ==> after.value.terminating == cur.terminating) && (!cur.terminating ==> after.Some?)
              && (!cur.terminating && Hist(u.server.vols, v) == Hist(s.server.vols, v) ==> after.value.marked)
            else after.Some? && after.value.terminating
  {
    var c := u.ctl.calls[h];
    assert HandlerMove(u, c, false, false) == DeleteVolumeMove(u.server, c, false);
    ServedCur(u.server, RequestOf(u, Next(h)), KVolume, v);
  }

  /**
   * In every state in which a DeleteVolume call lists the volume's snapshots, and however the run goes
   * on: if the call meets no fault and the volume is still there when it makes its last request, the
   * volume is on its way out afterwards exactly as it was, if it had a snapshot at the listing, and in
   * any case if it had none; with a snapshot it is marked, unless somebody has written it meanwhile.
   */
  lemma DeleteVolumeDecides(s: State, h: nat, v: string, timeout: bool, after: seq<Step>, t: State)
    requires h in s.ctl.calls && s.ctl.calls[h].op == DeleteVolumeOp(v) && s.ctl.calls[h].pc == List && Clean(after, h)
    requires Ends(Run(Apply(s, Advance(h, false, timeout)), after), t, h)
    requires Cur(Run(Apply(s, Advance(h, false, timeout)), after).server.vols, v).Some?
    ensures var u := Run(Apply(s, Advance(h, false, timeout)), after);
            var cur, done := Cur(u.server.vols, v).value, Cur(t.server.vols, v);
            if exists k :: Labelled(s.server, k, v) then
              && (done.Some? ==> done.value.terminating == cur.terminating) && (!cur.terminating ==> done.Some?)
              && (!cur.terminating && Hist(u.server.vols, v) == Hist(s.server.vols, v) ==> done.value.marked)
            else done.Some? && done.value.terminating
  {
    DecidesAtList(s, h, v, timeout);
    DecidedRun(s, Apply(s, Advance(h, false, timeout)), after, h, v);
    DecidedEnds(s, Run(Apply(s, Advance(h, false, timeout)), after), t, h, v);
  }

  /**
   * A fault ends the call with nothing written, except that CreateSnapshot takes a snapshot it cannot
   * read for one that is not there.
   */
  lemma FaultEndsCall(s: State, h: nat, timeout: bool)
    requires h in s.ctl.calls && !s.ctl.calls[h].op.CreateVolumeOp?
    requires BodyOf(s.ctl.calls[h].op, s.ctl.calls[h].pc)
    ensures var c, t := s.ctl.calls[h], Apply(s, Advance(h, true, timeout));
            && t.server == s.server
            && t.ctl.calls[h].pc == if c.op.CreateSnapshotOp? && c.pc == GetSnap then GetVol
                                    else if c.pc == Verify then Done else UnlockVol
  {
  }

  /** The steps each call is made of. */
  predicate BodyOf(op: Op, pc: Pc) {
    match op
    case CreateSnapshotOp(_, _, _) => pc in {Verify, GetSnap, GetVol, CreateSnap}
    case DeleteSnapshotOp(_, _) => pc in {GetSnap, List, DelSnap, Eligible, DelVol}
    case DeleteVolumeOp(_) => pc in {GetVol, List, DelVol, MarkGet, MarkUpdate}
    case CreateVolumeOp(_, _, _) => pc in {Precheck, DelVol} || pc.ProvGet? || pc.ProvWrite? || pc.Poll?
    case ExpandVolumeOp(_, _) => pc in {GetVol, Resize}
  }
}
