/** Runs of whole calls, from a state in which no handler is active to the next such state. */
module Scenarios {
  import opened Base
  import opened Resource
  import opened Api
  import opened UserProp
  import opened ZfsStore
  import opened Cluster
  import opened OwnerDrain
  import opened Script

  /** No name is locked, and the next handler is the n-th. */
  ghost predicate Rest(s: State, n: nat) {
    s.ctl.locks == map[] && forall h :: h in s.ctl.calls ==> h < n
  }

  /** Handler n runs, alone, and holds the name of its volume. */
  ghost predicate Inside(s: State, n: nat, c: Call) {
    && s.ctl.locks == map[c.op.volume := n] && n in s.ctl.calls && s.ctl.calls[n] == c
    && forall h :: h in s.ctl.calls ==> h <= n
  }

  function VolumeSlot(spec: VolumeInfo, v: string): Slot { Slot(KVolume, spec.ownerNodeID, v) }

  // ---- CreateVolume -----------------------------------------------------------------------------------

  /** The call takes its name. */
  lemma Enters(r: Reached, s: State, q: set<Slot>, n: nat, op: Op) returns (t: State)
    requires r(s, q) && Rest(s, n) && !TwoNames(op)
    ensures r(t, q) && Inside(t, n, Call(op, BodyPc(op), None, {})) && t.server == s.server
    ensures t.nodes == s.nodes
  {
    t := Begins(r, s, q, n, op);
    t := Locks(r, t, q, n);
  }

  lemma Leaves(r: Reached, s: State, q: set<Slot>, n: nat, c: Call) returns (t: State)
    requires r(s, q) && Inside(s, n, c) && c.pc == UnlockVol && !TwoNames(c.op)
    ensures r(t, q) && Rest(t, n + 1) && t.server == s.server && t.nodes == s.nodes
  {
    t := Locks(r, s, q, n);
  }

  function NewCR(spec: VolumeInfo, version: nat): CR {
    CR(version, spec, Labels("", None, ""), Pending, [], false, false)
  }

  /** A CreateVolume call moves on without a request. */
  lemma CreateMoves(r: Reached, s: State, q: set<Slot>, n: nat, c: Call, fails: bool, timeout: bool, c': Call)
    returns (t: State)
    requires r(s, q) && Inside(s, n, c) && c.op.CreateVolumeOp? && !Locking(c.pc)
    requires CreateVolumeMove(s.server, c, fails, timeout) == Move(c', NoRequest)
    ensures r(t, q) && Inside(t, n, c') && t.server == s.server && t.nodes == s.nodes
  {
    t := Moves(r, s, q, n, fails, timeout, c');
  }

  /** The handler reads the volume's resource. */
  lemma Reads(r: Reached, s: State, q: set<Slot>, n: nat, c: Call, i: nat) returns (t: State, c': Call)
    requires r(s, q) && Inside(s, n, c) && c.op.CreateVolumeOp? && c.pc == ProvGet(i)
    ensures c' == c.(copy := Cur(s.server.vols, c.op.volume), pc := ProvWrite(i))
    ensures r(t, q) && Inside(t, n, c') && t.server == s.server && t.nodes == s.nodes
  {
    c' := c.(copy := Cur(s.server.vols, c.op.volume), pc := ProvWrite(i));
    t := CreateMoves(r, s, q, n, c, false, false, c');
  }

  /** It writes the spec of its i-th attempt. */
  lemma Puts(r: Reached, s: State, q: set<Slot>, n: nat, c: Call, i: nat) returns (t: State)
    requires r(s, q) && Inside(s, n, c) && c.op.CreateVolumeOp? && c.pc == ProvWrite(i) && i < |c.op.plan|
    requires var rq := Provisioned(c, c.op.plan[i]);
             Accepts(s.server, rq) && Orderly(s, q, c.op.volume, Stored(s.server, rq))
    ensures r(t, q) && Inside(t, n, c.(pc := Poll(i)))
    ensures t.server == Serve(s.server, Provisioned(c, c.op.plan[i])) && t.nodes == s.nodes
  {
    t := WritesVol(r, s, q, n, Move(c.(pc := Poll(i)), Provisioned(c, c.op.plan[i])));
  }

  /** There is no volume, or one that is being deleted: the handler goes on to its first node. */
  lemma PassesPrecheck(r: Reached, s: State, q: set<Slot>, n: nat, c: Call) returns (t: State)
    requires r(s, q) && Inside(s, n, c) && c.op.CreateVolumeOp? && c.pc == Precheck && c.op.plan != []
    requires Cur(s.server.vols, c.op.volume).None?
    ensures r(t, q) && Inside(t, n, c.(pc := ProvGet(0))) && t.server == s.server && t.nodes == s.nodes
  {
    t := CreateMoves(r, s, q, n, c, false, false, c.(pc := ProvGet(0)));
  }

  lemma NobodyBefore(s: State, q: set<Slot>, v: string, after: Option<CR>)
    requires Hist(s.server.vols, v) == [None]
    ensures Orderly(s, q, v, after)
  {
  }

  lemma OrderlyOwner(s: State, t: State, q: set<Slot>, v: string, a: CR, b: CR)
    requires Orderly(s, q, v, Some(a)) && a.spec.ownerNodeID == b.spec.ownerNodeID && t.server == s.server
    requires t.nodes == s.nodes
    ensures Orderly(t, q, v, Some(b))
  {
    forall node | PreviousOwner(Hist(t.server.vols, v), node) && !OwnedBy(Some(b), node)
      ensures Drained(t, q, Slot(KVolume, node, v))
    {
      assert Drained(s, q, Slot(KVolume, node, v));
    }
  }

  lemma ComesToWrite(r: Reached, s: State, q: set<Slot>, n: nat, op: Op) returns (t: State, c: Call)
    requires r(s, q) && Rest(s, n) && op.CreateVolumeOp? && op.plan != [] && op.plan[0].snapName.NoSnap?
    requires Cur(s.server.vols, op.volume).None?
    ensures c == Call(op, ProvWrite(0), None, {})
    ensures r(t, q) && Inside(t, n, c) && t.server == s.server && t.nodes == s.nodes
  {
    t := Enters(r, s, q, n, op);
    t := PassesPrecheck(r, t, q, n, Call(op, Precheck, None, {}));
    t, c := Reads(r, t, q, n, Call(op, ProvGet(0), None, {}), 0);
  }

  /** A volume that is not there is written for its first node. */
  lemma WritesNew(r: Reached, s: State, q: set<Slot>, n: nat, op: Op) returns (t: State)
    requires r(s, q) && Rest(s, n) && op.CreateVolumeOp? && op.plan != [] && op.plan[0].snapName.NoSnap?
    requires op.src.None?
    requires Cur(s.server.vols, op.volume).None? && Orderly(s, q, op.volume, Some(NewCR(op.plan[0], 0)))
    ensures r(t, q) && Inside(t, n, Call(op, Poll(0), None, {})) && t.nodes == s.nodes
    ensures t.server == Serve(s.server, Create(KVolume, op.volume, NewCR(op.plan[0], 0)))
  {
    var c;
    t, c := ComesToWrite(r, s, q, n, op);
    OrderlyOwner(s, t, q, op.volume, NewCR(op.plan[0], 0), NewCR(op.plan[0], t.server.clock));
    t := Puts(r, t, q, n, c, 0);
  }

  lemma ServedNew(sv: Server, v: string, cr: CR)
    requires Cur(sv.vols, v).None?
    ensures Serve(sv, Create(KVolume, v, cr))
         == Server(Push(sv.vols, v, Some(cr.(version := sv.clock, terminating := false))), sv.snaps, sv.clock + 1)
  {
  }

  function ReadyCR(spec: VolumeInfo, version: nat): CR {
    CR(version, spec, Labels("", None, spec.ownerNodeID), Ready, [ZfsFinalizer], false, false)
  }

  /** The owner's agent hears of a new volume and takes it up. */
  lemma AgentHears(r: Reached, s: State, v: string, spec: VolumeInfo, cr: CR) returns (t: State)
    requires r(s, {}) && Hist(s.server.vols, v) == [None, Some(cr)] && cr.spec == spec
    requires PosOf(s.nodes, VolumeSlot(spec, v)) == 0 && WorkOf(s.nodes, VolumeSlot(spec, v)) == Idle
    ensures r(t, {})
    ensures var slot := VolumeSlot(spec, v);
            t == s.(nodes := s.nodes.(pos := s.nodes.pos[slot := 1], work := s.nodes.work[slot := Sync(1, cr)]))
  {
    var slot := VolumeSlot(spec, v);
    t := Delivers(r, s, {}, slot, 1, {slot});
    t := Starts(r, t, {slot}, slot, cr);
    assert {slot} - {slot} == {};
  }

  function WithVolume(disk: Store, spec: VolumeInfo, v: string): Store {
    disk[Vol(spec.poolName, v) := Info(Created(spec), None)]
  }

  lemma CreateEffect(disk: Store, v: string, cr: CR, at: nat)
    requires cr.spec.snapName.NoSnap? && ValidProps(cr.spec.userProperties) && !cr.terminating && cr.phase == Pending
    requires Pool(cr.spec.poolName) in disk && Vol(cr.spec.poolName, v) !in disk
    ensures SyncVolume(disk, v, at, cr, NO_FAULTS) == Effect(WithVolume(disk, cr.spec, v), Commit(at, cr, MarkReady))
  {
  }

  lemma SameOwner(s: State, q: set<Slot>, v: string, cr: CR, after: CR)
    requires Cur(s.server.vols, v) == Some(cr) && after.spec.ownerNodeID == cr.spec.ownerNodeID
    ensures Orderly(s, q, v, Some(after)) && Orderly(s, q, v, None)
  {
  }

  lemma ServedUpdate(sv: Server, v: string, cr: CR)
    requires Cur(sv.vols, v).Some? && !Cur(sv.vols, v).value.terminating
    requires Cur(sv.vols, v).value.version == cr.version < sv.clock
    ensures var after := cr.(version := sv.clock, terminating := false);
            && Accepts(sv, Update(KVolume, v, cr)) && Stored(sv, Update(KVolume, v, cr)) == Some(after)
            && Serve(sv, Update(KVolume, v, cr)) == Server(Push(sv.vols, v, Some(after)), sv.snaps, sv.clock + 1)
  {
  }

  /** Having made the volume, it marks it Ready. */
  lemma AgentMarks(r: Reached, s: State, v: string, spec: VolumeInfo, cr: CR, at: nat) returns (t: State)
    requires r(s, {}) && Cur(s.server.vols, v) == Some(cr) && cr == NewCR(spec, cr.version)
    requires cr.version < s.server.clock
    requires WorkOf(s.nodes, VolumeSlot(spec, v)) == Commit(at, cr, MarkReady)
    ensures r(t, {}) && t.ctl == s.ctl && t.nodes == s.nodes.(work := s.nodes.work[VolumeSlot(spec, v) := Idle])
    ensures t.server
         == Server(Push(s.server.vols, v, Some(ReadyCR(spec, s.server.clock))), s.server.snaps, s.server.clock + 1)
  {
    var slot := VolumeSlot(spec, v);
    assert WriteOf(s, slot) == Update(KVolume, v, ReadyCR(spec, cr.version));
    ServedUpdate(s.server, v, ReadyCR(spec, cr.version));
    SameOwner(s, {}, v, cr, ReadyCR(spec, s.server.clock));
    t := Finishes(r, s, {}, slot);
  }

  ghost predicate Fresh(s: State, v: string, spec: VolumeInfo) {
    && PosOf(s.nodes, VolumeSlot(spec, v)) == 0 && WorkOf(s.nodes, VolumeSlot(spec, v)) == Idle
    && Pool(spec.poolName) in DiskOf(s.nodes, spec.ownerNodeID)
    && Vol(spec.poolName, v) !in DiskOf(s.nodes, spec.ownerNodeID)
    && spec.snapName.NoSnap? && ValidProps(spec.userProperties)
  }

  function NodesWith(n: Nodes, v: string, spec: VolumeInfo): Nodes {
    var slot := VolumeSlot(spec, v);
    Nodes(n.pos[slot := 1], n.work[slot := Idle],
          n.disks[spec.ownerNodeID := WithVolume(DiskOf(n, spec.ownerNodeID), spec, v)])
  }

  lemma Overwrites(work: map<Slot, Work>, slot: Slot, a: Work, b: Work)
    ensures work[slot := a][slot := b] == work[slot := b]
  {
  }

  lemma AgentMakes(r: Reached, s: State, v: string, spec: VolumeInfo, cr: CR) returns (t: State)
    requires r(s, {}) && Fresh(s, v, spec)
    requires Hist(s.server.vols, v) == [None, Some(cr)] && cr == NewCR(spec, cr.version)
    ensures r(t, {}) && t.ctl == s.ctl && t.server == s.server
    ensures var slot := VolumeSlot(spec, v);
            && WorkOf(t.nodes, slot) == Commit(1, cr, MarkReady)
            && t.nodes.(work := t.nodes.work[slot := Idle]) == NodesWith(s.nodes, v, spec)
  {
    var slot, disk := VolumeSlot(spec, v), DiskOf(s.nodes, spec.ownerNodeID);
    t := AgentHears(r, s, v, spec, cr);
    CreateEffect(disk, v, cr, 1);
    t := Acts(r, t, {}, slot, NO_FAULTS, Effect(WithVolume(disk, spec, v), Commit(1, cr, MarkReady)));
    Overwrites(s.nodes.work, slot, Sync(1, cr), Commit(1, cr, MarkReady));
    Overwrites(s.nodes.work, slot, Commit(1, cr, MarkReady), Idle);
  }

  lemma AgentCreates(r: Reached, s: State, v: string, spec: VolumeInfo, cr: CR) returns (t: State)
    requires r(s, {}) && Fresh(s, v, spec)
    requires Hist(s.server.vols, v) == [None, Some(cr)] && cr == NewCR(spec, cr.version) && cr.version < s.server.clock
    ensures r(t, {}) && t.ctl == s.ctl && t.nodes == NodesWith(s.nodes, v, spec)
    ensures t.server
         == Server(Push(s.server.vols, v, Some(ReadyCR(spec, s.server.clock))), s.server.snaps, s.server.clock + 1)
  {
    t := AgentMakes(r, s, v, spec, cr);
    t := AgentMarks(r, t, v, spec, cr, 1);
  }

  lemma PollsReady(r: Reached, s: State, n: nat, c: Call) returns (t: State)
    requires r(s, {}) && Inside(s, n, c) && c.op.CreateVolumeOp? && c.pc.Poll?
    requires Cur(s.server.vols, c.op.volume).Some? && Cur(s.server.vols, c.op.volume).value.phase == Ready
    ensures r(t, {}) && Rest(t, n + 1) && t.server == s.server && t.nodes == s.nodes
  {
    t := CreateMoves(r, s, {}, n, c, false, false, c.(pc := UnlockVol));
    t := Leaves(r, t, {}, n, c.(pc := UnlockVol));
  }

  ghost predicate HasReady(before: Server, after: Server, v: string, spec: VolumeInfo) {
    && after.snaps == before.snaps && after.clock == before.clock + 2
    && (forall x :: x != v ==> Hist(after.vols, x) == Hist(before.vols, x))
    && Hist(after.vols, v) == [None, Some(NewCR(spec, before.clock)), Some(ReadyCR(spec, before.clock + 1))]
  }

  lemma TwoVersions(sv: Server, v: string, spec: VolumeInfo)
    requires Hist(sv.vols, v) == [None]
    ensures var one := Push(sv.vols, v, Some(NewCR(spec, sv.clock)));
            HasReady(sv, Server(Push(one, v, Some(ReadyCR(spec, sv.clock + 1))), sv.snaps, sv.clock + 2), v, spec)
  {
    assert [None] + [Some(NewCR(spec, sv.clock))] == [None, Some(NewCR(spec, sv.clock))];
  }

  lemma WritesFirst(r: Reached, s: State, n: nat, v: string, spec: VolumeInfo) returns (t: State)
    requires r(s, {}) && Rest(s, n) && Hist(s.server.vols, v) == [None] && spec.snapName.NoSnap?
    ensures r(t, {}) && Inside(t, n, Call(CreateVolumeOp(v, None, [spec]), Poll(0), None, {}))
    ensures t.nodes == s.nodes
    ensures t.server
         == Server(Push(s.server.vols, v, Some(NewCR(spec, s.server.clock))), s.server.snaps, s.server.clock + 1)
    ensures Hist(t.server.vols, v) == [None, Some(NewCR(spec, s.server.clock))]
  {
    NobodyBefore(s, {}, v, Some(NewCR(spec, 0)));
    t := WritesNew(r, s, {}, n, CreateVolumeOp(v, None, [spec]));
    ServedNew(s.server, v, NewCR(spec, 0));
    assert [None] + [Some(NewCR(spec, s.server.clock))] == [None, Some(NewCR(spec, s.server.clock))];
  }

  /** A whole CreateVolume that succeeds on its first node. */
  lemma CreatesReady(r: Reached, s: State, n: nat, v: string, spec: VolumeInfo) returns (t: State)
    requires r(s, {}) && Rest(s, n) && Hist(s.server.vols, v) == [None] && Fresh(s, v, spec)
    ensures r(t, {}) && Rest(t, n + 1) && t.nodes == NodesWith(s.nodes, v, spec)
    ensures HasReady(s.server, t.server, v, spec)
  {
    t := WritesFirst(r, s, n, v, spec);
    t := AgentCreates(r, t, v, spec, NewCR(spec, s.server.clock));
    TwoVersions(s.server, v, spec);
    t := PollsReady(r, t, n, Call(CreateVolumeOp(v, None, [spec]), Poll(0), None, {}));
  }

  // ---- CreateSnapshot -----------------------------------------------------------------------------------

  /** Both names are locked. */
  ghost predicate InsideBoth(s: State, n: nat, c: Call) {
    && TwoNames(c.op) && c.op.volume != c.op.snapshot
    && s.ctl.locks == map[c.op.volume := n, c.op.snapshot := n] && n in s.ctl.calls && s.ctl.calls[n] == c
    && forall h :: h in s.ctl.calls ==> h <= n
  }

  lemma LocksVolume(r: Reached, s: State, q: set<Slot>, n: nat, c: Call) returns (t: State)
    requires r(s, q) && s.ctl.locks == map[] && n in s.ctl.calls && s.ctl.calls[n] == c && c.pc == LockVol
    requires TwoNames(c.op) && c.op.volume != c.op.snapshot
    ensures r(t, q) && t.ctl.locks == map[c.op.volume := n] && t.server == s.server && t.nodes == s.nodes
    ensures t.ctl.calls == s.ctl.calls[n := c.(pc := LockSnap)]
  {
    t := Locks(r, s, q, n);
  }

  lemma LocksBoth(r: Reached, s: State, q: set<Slot>, n: nat, c: Call) returns (t: State)
    requires r(s, q) && s.ctl.locks == map[] && n in s.ctl.calls && s.ctl.calls[n] == c && c.pc == LockVol
    requires TwoNames(c.op) && c.op.volume != c.op.snapshot && forall h :: h in s.ctl.calls ==> h <= n
    ensures r(t, q) && InsideBoth(t, n, c.(pc := GetSnap)) && t.server == s.server && t.nodes == s.nodes
  {
    t := LocksVolume(r, s, q, n, c);
    t := Locks(r, t, q, n);
  }

  lemma UnlocksOne(r: Reached, s: State, q: set<Slot>, n: nat, c: Call) returns (t: State)
    requires r(s, q) && InsideBoth(s, n, c) && c.pc == UnlockVol
    ensures r(t, q) && t.server == s.server && t.nodes == s.nodes && t.ctl.locks == map[c.op.snapshot := n]
    ensures t.ctl.calls == s.ctl.calls[n := c.(pc := UnlockSnap)]
  {
    t := Locks(r, s, q, n);
    assert t.ctl.locks == map[c.op.snapshot := n];
  }

  lemma UnlocksBoth(r: Reached, s: State, q: set<Slot>, n: nat, c: Call) returns (t: State)
    requires r(s, q) && InsideBoth(s, n, c) && c.pc == UnlockVol
    ensures r(t, q) && Rest(t, n + 1) && t.server == s.server && t.nodes == s.nodes
  {
    t := UnlocksOne(r, s, q, n, c);
    t := Locks(r, t, q, n);
  }

  lemma MovesBoth(r: Reached, s: State, q: set<Slot>, n: nat, c: Call, c': Call) returns (t: State)
    requires r(s, q) && InsideBoth(s, n, c) && !Locking(c.pc) && c'.op == c.op
    requires HandlerMove(s, c, false, false) == Move(c', NoRequest)
    ensures r(t, q) && InsideBoth(t, n, c') && t.server == s.server && t.nodes == s.nodes
  {
    t := Moves(r, s, q, n, false, false, c');
  }

  /** A snapshot's resource, as CreateSnapshot writes it. */
  function SnapCR(v: string, cr: CR, version: nat): CR {
    CR(version, cr.spec.(userProperties := map[]), Labels(v, None, ""), Pending, [], false, false)
  }

  lemma SnapshotEnters(r: Reached, s: State, n: nat, v: string, k: string) returns (t: State)
    requires r(s, {}) && Rest(s, n) && v != k && Cur(s.server.snaps, k).None?
    ensures r(t, {}) && InsideBoth(t, n, Call(CreateSnapshotOp(v, k, map[]), GetSnap, None, {}))
    ensures t.server == s.server && t.nodes == s.nodes
  {
    var op := CreateSnapshotOp(v, k, map[]);
    t := Begins(r, s, {}, n, op);
    t := Moves(r, t, {}, n, false, false, Call(op, LockVol, None, {}));
    t := LocksBoth(r, t, {}, n, Call(op, LockVol, None, {}));
  }

  lemma SnapshotPuts(r: Reached, s: State, n: nat, c: Call, cr: CR) returns (t: State)
    requires r(s, {}) && InsideBoth(s, n, c) && c.op.CreateSnapshotOp? && c.op.props == map[]
    requires c.pc == CreateSnap && c.copy == Some(cr) && Cur(s.server.snaps, c.op.snapshot).None?
    ensures r(t, {}) && InsideBoth(t, n, c.(pc := UnlockVol)) && t.nodes == s.nodes
    ensures t.server
         == Server(s.server.vols, Push(s.server.snaps, c.op.snapshot, Some(SnapCR(c.op.volume, cr, s.server.clock))),
             s.server.clock + 1)
  {
    var rq := Create(KSnapshot, c.op.snapshot, SnapCR(c.op.volume, cr, 0));
    t := WritesSnap(r, s, {}, n, Move(c.(pc := UnlockVol), rq));
  }

  lemma SnapshotReads(r: Reached, s: State, n: nat, op: Op, cr: CR) returns (t: State)
    requires r(s, {}) && op.CreateSnapshotOp? && InsideBoth(s, n, Call(op, GetSnap, None, {}))
    requires Cur(s.server.vols, op.volume) == Some(cr) && Cur(s.server.snaps, op.snapshot).None?
    ensures r(t, {}) && InsideBoth(t, n, Call(op, CreateSnap, Some(cr), {})) && t.server == s.server
    ensures t.nodes == s.nodes
  {
    t := MovesBoth(r, s, {}, n, Call(op, GetSnap, None, {}), Call(op, GetVol, None, {}));
    t := MovesBoth(r, t, {}, n, Call(op, GetVol, None, {}), Call(op, CreateSnap, Some(cr), {}));
  }

  /** A whole CreateSnapshot of a volume that is there. */
  lemma TakesSnapshot(r: Reached, s: State, n: nat, v: string, k: string, cr: CR) returns (t: State)
    requires r(s, {}) && Rest(s, n) && v != k && Cur(s.server.vols, v) == Some(cr)
    requires Cur(s.server.snaps, k).None?
    ensures r(t, {}) && Rest(t, n + 1) && t.nodes == s.nodes
    ensures t.server
         == Server(s.server.vols, Push(s.server.snaps, k, Some(SnapCR(v, cr, s.server.clock))), s.server.clock + 1)
  {
    var c := Call(CreateSnapshotOp(v, k, map[]), CreateSnap, Some(cr), {});
    t := SnapshotEnters(r, s, n, v, k);
    t := SnapshotReads(r, t, n, c.op, cr);
    t := SnapshotPuts(r, t, n, c, cr);
    t := UnlocksBoth(r, t, {}, n, c.(pc := UnlockVol));
  }

  // ---- DeleteVolume of a volume with a snapshot ------------------------------------------------------------

  lemma DeleteMoves(r: Reached, s: State, n: nat, c: Call, c': Call) returns (t: State)
    requires r(s, {}) && Inside(s, n, c) && c.op.DeleteVolumeOp? && !Locking(c.pc)
    requires DeleteVolumeMove(s.server, c, false) == Move(c', NoRequest)
    ensures r(t, {}) && Inside(t, n, c') && t.server == s.server && t.nodes == s.nodes
  {
    t := Moves(r, s, {}, n, false, false, c');
  }

  lemma ComesToList(r: Reached, s: State, n: nat, v: string, cr: CR) returns (t: State)
    requires r(s, {}) && Rest(s, n) && Cur(s.server.vols, v) == Some(cr) && cr.phase == Ready && !cr.terminating
    ensures r(t, {}) && Inside(t, n, Call(DeleteVolumeOp(v), List, None, {})) && t.server == s.server
    ensures t.nodes == s.nodes
  {
    var op := DeleteVolumeOp(v);
    t := Enters(r, s, {}, n, op);
    t := DeleteMoves(r, t, n, Call(op, GetVol, None, {}), Call(op, List, None, {}));
  }

  lemma Lists(r: Reached, s: State, n: nat, v: string) returns (t: State, c: Call)
    requires r(s, {}) && Inside(s, n, Call(DeleteVolumeOp(v), List, None, {})) && ListSnaps(s.server, v) != {}
    ensures c == Call(DeleteVolumeOp(v), MarkGet, None, ListSnaps(s.server, v))
    ensures r(t, {}) && Inside(t, n, c) && t.server == s.server && t.nodes == s.nodes
  {
    c := Call(DeleteVolumeOp(v), MarkGet, None, ListSnaps(s.server, v));
    t := DeleteMoves(r, s, n, Call(DeleteVolumeOp(v), List, None, {}), c);
  }

  lemma ReadsToMark(r: Reached, s: State, n: nat, c: Call, cr: CR) returns (t: State, c': Call)
    requires r(s, {}) && Inside(s, n, c) && c.op.DeleteVolumeOp? && c.pc == MarkGet
    requires Cur(s.server.vols, c.op.volume) == Some(cr)
    ensures c' == c.(copy := Some(cr), pc := MarkUpdate)
    ensures r(t, {}) && Inside(t, n, c') && t.server == s.server && t.nodes == s.nodes
  {
    c' := c.(copy := Some(cr), pc := MarkUpdate);
    t := DeleteMoves(r, s, n, c, c');
  }

  lemma ComesToMark(r: Reached, s: State, n: nat, v: string, cr: CR) returns (t: State, c: Call)
    requires r(s, {}) && Rest(s, n) && Cur(s.server.vols, v) == Some(cr) && cr.phase == Ready && !cr.terminating
    requires ListSnaps(s.server, v) != {}
    ensures c == Call(DeleteVolumeOp(v), MarkUpdate, Some(cr), ListSnaps(s.server, v))
    ensures r(t, {}) && Inside(t, n, c) && t.server == s.server && t.nodes == s.nodes
  {
    t := ComesToList(r, s, n, v, cr);
    t, c := Lists(r, t, n, v);
    t, c := ReadsToMark(r, t, n, c, cr);
  }

  /** A whole DeleteVolume that leaves the volume marked, for it has a snapshot. */
  lemma MarksVolume(r: Reached, s: State, n: nat, v: string, cr: CR) returns (t: State)
    requires r(s, {}) && Rest(s, n) && Cur(s.server.vols, v) == Some(cr) && cr.phase == Ready && !cr.terminating
    requires ListSnaps(s.server, v) != {} && cr.version < s.server.clock
    ensures r(t, {}) && Rest(t, n + 1) && t.nodes == s.nodes
    ensures t.server
         == Server(Push(s.server.vols, v, Some(cr.(marked := true, version := s.server.clock))), s.server.snaps,
             s.server.clock + 1)
  {
    var c;
    t, c := ComesToMark(r, s, n, v, cr);
    ServedUpdate(s.server, v, cr.(marked := true));
    SameOwner(t, {}, v, cr, cr.(marked := true, version := s.server.clock));
    t := WritesVol(r, t, {}, n, Move(c.(pc := UnlockVol), Update(KVolume, v, cr.(marked := true))));
    t := Leaves(r, t, {}, n, c.(pc := UnlockVol));
  }
}
