/**
 * Draining the node of the last owner is not enough. A node that owned the volume earlier and still
 * holds that version in its informer is queued by the volume's deletion, and its worker then takes
 * up the volume created anew for somebody else.
 */
module TombstoneRace {
  import opened Base
  import opened Resource
  import opened Api
  import opened UserProp
  import opened ZfsStore
  import opened Cluster
  import opened Readiness
  import opened OwnerDrain
  import opened Script
  import opened Scenarios

  /** A volume tried on node A, then on B, deleted, and created anew for C. */
  datatype Case = Case(v: string, a: VolumeInfo, b: VolumeInfo, c: VolumeInfo, disk: Store) {
    ghost predicate Valid() {
      && a.snapName.NoSnap? && b.snapName.NoSnap? && c.snapName.NoSnap?
      && ValidProps(a.userProperties) && ValidProps(c.userProperties)
      && a.ownerNodeID != b.ownerNodeID && a.ownerNodeID != c.ownerNodeID
      && Pool(c.poolName) in disk && Vol(c.poolName, v) !in disk && Vol(a.poolName, v) !in disk
    }
    function OnA(): Slot { VolumeSlot(a, v) }
    function OnB(): Slot { VolumeSlot(b, v) }
    function Start(): State {
      State(Server(map[], map[], 0), Controller(map[], map[]), Nodes(map[], map[], map[a.ownerNodeID := disk]))
    }
    function FirstOp(): Op { CreateVolumeOp(v, None, [a, b]) }
    function A1(): CR { NewCR(a, 0) }
    function A2(): CR { A1().(phase := Failed, labels := Labels("", None, a.ownerNodeID), version := 1) }
    function B3(): CR { A2().(spec := b, phase := Pending, version := 2) }
    function B4(): CR { B3().(terminating := true, finalizers := [ForegroundDeletion], version := 3) }
    function C6(): CR { NewCR(c, 5) }
    /** The volume's i-th version. */
    function Version(i: int): Option<CR> {
      if i == 1 then Some(A1()) else if i == 2 then Some(A2()) else if i == 3 then Some(B3())
      else if i == 4 then Some(B4())
      else if i == 6 then Some(C6()) else None
    }
  }

  /** The volume's first n versions. */
  ghost predicate Has(sv: Server, k: Case, n: nat) {
    && 1 <= n <= 7 && |Hist(sv.vols, k.v)| == n && sv.clock == n - 1
    && forall i :: 0 <= i < n ==> Hist(sv.vols, k.v)[i] == k.Version(i)
  }

  lemma Latest(sv: Server, k: Case, n: nat)
    requires Has(sv, k, n)
    ensures Cur(sv.vols, k.v) == k.Version(n - 1)
  {
  }

  lemma Grows(sv: Server, k: Case, n: nat, sv': Server)
    requires Has(sv, k, n) && n < 7 && sv'.clock == n && sv'.vols == Push(sv.vols, k.v, k.Version(n))
    ensures Has(sv', k, n + 1)
  {
  }

  /** Node A's state: where its informer stands, its worker, its disk; B's informer; nobody else busy. */
  ghost predicate Stand(n: Nodes, k: Case, posA: nat, work: Work, disk: Store, posB: nat) {
    && PosOf(n, k.OnA()) == posA && WorkOf(n, k.OnA()) == work && DiskOf(n, k.a.ownerNodeID) == disk
    && PosOf(n, k.OnB()) == posB && WorkOf(n, k.OnB()) == Idle && DiskOf(n, k.c.ownerNodeID) == map[]
  }

  lemma FirstWritten(r: Reached, k: Case) returns (s: State)
    requires k.Valid() && r(k.Start(), {})
    ensures r(s, {}) && Inside(s, 0, Call(k.FirstOp(), Poll(0), None, {}))
    ensures Has(s.server, k, 2) && Stand(s.nodes, k, 0, Idle, k.disk, 0)
  {
    var s0 := k.Start();
    assert Hist(s0.server.vols, k.v) == [None];
    NobodyBefore(s0, {}, k.v, Some(NewCR(k.a, 0)));
    s := WritesNew(r, s0, {}, 0, k.FirstOp());
    ServedNew(s0.server, k.v, NewCR(k.a, 0));
    Grows(s0.server, k, 1, s.server);
  }

  lemma FailedEffect(k: Case, f: Faults)
    requires k.Valid() && f == NO_FAULTS.(volCmd := true)
    ensures SyncVolume(k.disk, k.v, 1, k.A1(), f) == Effect(k.disk, Commit(1, k.A1(), MarkFailed))
  {
  }

  /** Node A fails to create the volume. */
  lemma FailsOnA(r: Reached, k: Case, s: State) returns (t: State)
    requires k.Valid() && r(s, {}) && Has(s.server, k, 2) && Stand(s.nodes, k, 0, Idle, k.disk, 0)
    ensures r(t, {}) && t.ctl == s.ctl && t.server == s.server
    ensures Stand(t.nodes, k, 1, Commit(1, k.A1(), MarkFailed), k.disk, 0)
  {
    var f := NO_FAULTS.(volCmd := true);
    assert Hist(s.server.vols, k.v) == [None, Some(k.A1())];
    t := AgentHears(r, s, k.v, k.a, k.A1());
    FailedEffect(k, f);
    t := Acts(r, t, {}, k.OnA(), f, Effect(k.disk, Commit(1, k.A1(), MarkFailed)));
  }

  lemma MarksFailed(r: Reached, k: Case, s: State) returns (t: State)
    requires k.Valid() && r(s, {}) && Has(s.server, k, 2)
    requires Stand(s.nodes, k, 1, Commit(1, k.A1(), MarkFailed), k.disk, 0)
    ensures r(t, {}) && t.ctl == s.ctl && Has(t.server, k, 3) && Stand(t.nodes, k, 1, Idle, k.disk, 0)
  {
    var written := Written(k.A1(), k.a.ownerNodeID, MarkFailed);
    Latest(s.server, k, 2);
    assert WriteOf(s, k.OnA()) == Update(KVolume, k.v, written);
    ServedUpdate(s.server, k.v, written);
    SameOwner(s, {}, k.v, k.A1(), k.A2());
    t := Finishes(r, s, {}, k.OnA());
    Grows(s.server, k, 2, t.server);
  }

  lemma SeesFailed(r: Reached, k: Case, s: State) returns (t: State)
    requires r(s, {}) && Inside(s, 0, Call(k.FirstOp(), Poll(0), None, {}))
    requires Cur(s.server.vols, k.v) == Some(k.A2())
    ensures r(t, {}) && Inside(t, 0, Call(k.FirstOp(), ProvGet(1), None, {})) && t.server == s.server
    ensures t.nodes == s.nodes
  {
    var c := Call(k.FirstOp(), Poll(0), None, {});
    t := CreateMoves(r, s, {}, 0, c, false, false, c.(pc := ProvGet(1)));
  }

  /** A has seen all there is: its key is drained when the volume goes to node B. */
  lemma TurnsToB(r: Reached, k: Case, s: State) returns (t: State, c: Call)
    requires k.Valid() && r(s, {}) && Inside(s, 0, Call(k.FirstOp(), Poll(0), None, {}))
    requires Has(s.server, k, 3) && Stand(s.nodes, k, 1, Idle, k.disk, 0)
    ensures c == Call(k.FirstOp(), ProvWrite(1), Some(k.A2()), {})
    ensures r(t, {}) && Inside(t, 0, c) && t.server == s.server && Stand(t.nodes, k, 2, Idle, k.disk, 0)
  {
    Latest(s.server, k, 3);
    t := Delivers(r, s, {}, k.OnA(), 2, {});
    t := SeesFailed(r, k, t);
    t, c := Reads(r, t, {}, 0, Call(k.FirstOp(), ProvGet(1), None, {}), 1);
  }

  lemma DrainedOnA(k: Case, s: State)
    requires k.Valid() && Has(s.server, k, 3) && Stand(s.nodes, k, 2, Idle, k.disk, 0)
    ensures Orderly(s, {}, k.v, Some(k.B3()))
  {
    var h := Hist(s.server.vols, k.v);
    assert h[2] == Some(k.A2());
    forall node | PreviousOwner(h, node) ensures node == k.a.ownerNodeID {
      var i :| 0 <= i < |h| && Owns(h[i], node) && forall j :: i < j < |h| ==> h[j].None?;
      assert i == 2;
    }
  }

  lemma WrittenForB(r: Reached, k: Case, s: State) returns (t: State)
    requires k.Valid() && r(s, {}) && Inside(s, 0, Call(k.FirstOp(), ProvWrite(1), Some(k.A2()), {}))
    requires Has(s.server, k, 3) && Stand(s.nodes, k, 2, Idle, k.disk, 0)
    ensures r(t, {}) && Inside(t, 0, Call(k.FirstOp(), Poll(1), Some(k.A2()), {}))
    ensures Has(t.server, k, 4) && Stand(t.nodes, k, 2, Idle, k.disk, 0)
  {
    var written := k.A2().(spec := k.b, phase := Pending);
    Latest(s.server, k, 3);
    ServedUpdate(s.server, k.v, written);
    DrainedOnA(k, s);
    t := Puts(r, s, {}, 0, Call(k.FirstOp(), ProvWrite(1), Some(k.A2()), {}), 1);
    Grows(s.server, k, 3, t.server);
  }

  lemma ServedDelete(k: Case, sv: Server)
    requires Has(sv, k, 4)
    ensures Stored(sv, Delete(KVolume, k.v)) == Some(k.B4()) && Accepts(sv, Delete(KVolume, k.v))
    ensures Has(Serve(sv, Delete(KVolume, k.v)), k, 5)
  {
    assert [] + [ForegroundDeletion] == [ForegroundDeletion];
    Grows(sv, k, 4, Serve(sv, Delete(KVolume, k.v)));
  }

  lemma Deletes4(r: Reached, k: Case, s: State, c: Call) returns (t: State)
    requires k.Valid() && r(s, {}) && Inside(s, 0, c) && c.op == k.FirstOp() && c.pc == DelVol
    requires Has(s.server, k, 4)
    ensures r(t, {}) && Inside(t, 0, c.(pc := UnlockVol)) && Has(t.server, k, 5) && t.nodes == s.nodes
  {
    Latest(s.server, k, 4);
    ServedDelete(k, s.server);
    SameOwner(s, {}, k.v, k.B3(), k.B4());
    t := WritesVol(r, s, {}, 0, Move(c.(pc := UnlockVol), Delete(KVolume, k.v)));
  }

  lemma PollFails(r: Reached, k: Case, s: State) returns (t: State, c: Call)
    requires r(s, {}) && Inside(s, 0, Call(k.FirstOp(), Poll(1), Some(k.A2()), {}))
    ensures c == Call(k.FirstOp(), DelVol, Some(k.A2()), {})
    ensures r(t, {}) && Inside(t, 0, c) && t.server == s.server && t.nodes == s.nodes
  {
    c := Call(k.FirstOp(), DelVol, Some(k.A2()), {});
    t := CreateMoves(r, s, {}, 0, c.(pc := Poll(1)), true, false, c);
  }

  /** The handler gives up and deletes the volume. */
  lemma GivesUp(r: Reached, k: Case, s: State) returns (t: State)
    requires k.Valid() && r(s, {}) && Inside(s, 0, Call(k.FirstOp(), Poll(1), Some(k.A2()), {}))
    requires Has(s.server, k, 4) && Stand(s.nodes, k, 2, Idle, k.disk, 0)
    ensures r(t, {}) && Rest(t, 1) && Has(t.server, k, 5) && Stand(t.nodes, k, 2, Idle, k.disk, 0)
  {
    var c;
    t, c := PollFails(r, k, s);
    t := Deletes4(r, k, t, c);
    t := Leaves(r, t, {}, 0, c.(pc := UnlockVol));
  }

  /** Its resource goes. */
  lemma Vanishes(r: Reached, k: Case, s: State) returns (t: State)
    requires k.Valid() && r(s, {}) && Rest(s, 1) && Has(s.server, k, 5)
    requires Stand(s.nodes, k, 2, Idle, k.disk, 0)
    ensures r(t, {}) && Rest(t, 1) && Has(t.server, k, 6) && Stand(t.nodes, k, 2, Idle, k.disk, 0)
  {
    Latest(s.server, k, 5);
    assert Remove([ForegroundDeletion], ForegroundDeletion) == [];
    assert Stored(s.server, CollectOf(s, k.v)) == None;
    SameOwner(s, {}, k.v, k.B4(), k.B4());
    t := Collects(r, s, {}, k.v);
    Grows(s.server, k, 5, t.server);
  }

  /** B hears that all is over; A hears of the deletion of a version it owned, and is queued. */
  lemma HearsDeletion(r: Reached, k: Case, s: State) returns (t: State)
    requires k.Valid() && r(s, {}) && Rest(s, 1) && Has(s.server, k, 6)
    requires Stand(s.nodes, k, 2, Idle, k.disk, 0)
    ensures r(t, {k.OnA()}) && Rest(t, 1) && t.server == s.server
    ensures Stand(t.nodes, k, 5, Idle, k.disk, 5)
  {
    t := Delivers(r, s, {}, k.OnB(), 5, {});
    assert Owns(Hist(s.server.vols, k.v)[2], k.a.ownerNodeID);
    t := Delivers(r, t, {}, k.OnA(), 5, {k.OnA()});
  }

  lemma DrainedOnB(k: Case, s: State)
    requires k.Valid() && Has(s.server, k, 6) && Stand(s.nodes, k, 5, Idle, k.disk, 5)
    ensures Orderly(s, {k.OnA()}, k.v, Some(NewCR(k.c, 0)))
  {
    var h := Hist(s.server.vols, k.v);
    assert h[4] == Some(k.B4()) && h[5] == None;
    forall node | PreviousOwner(h, node) ensures node == k.b.ownerNodeID {
      var i :| 0 <= i < |h| && Owns(h[i], node) && forall j :: i < j < |h| ==> h[j].None?;
      assert i == 4;
    }
  }

  /** B is drained, and the volume is created anew for node C. */
  lemma WrittenForC(r: Reached, k: Case, s: State) returns (t: State)
    requires k.Valid() && r(s, {k.OnA()}) && Rest(s, 1) && Has(s.server, k, 6)
    requires Stand(s.nodes, k, 5, Idle, k.disk, 5)
    ensures r(t, {k.OnA()}) && Has(t.server, k, 7) && Stand(t.nodes, k, 5, Idle, k.disk, 5)
  {
    DrainedOnB(k, s);
    Latest(s.server, k, 6);
    t := WritesNew(r, s, {k.OnA()}, 1, CreateVolumeOp(k.v, None, [k.c]));
    ServedNew(s.server, k.v, NewCR(k.c, 0));
    Grows(s.server, k, 6, t.server);
  }

  lemma HeardOnA(r: Reached, k: Case, s: State) returns (t: State)
    requires k.Valid() && r(s, {k.OnA()}) && Has(s.server, k, 7) && Stand(s.nodes, k, 5, Idle, k.disk, 5)
    ensures r(t, {k.OnA()}) && t.server == s.server && Stand(t.nodes, k, 6, Idle, k.disk, 5)
  {
    t := Delivers(r, s, {k.OnA()}, k.OnA(), 6, {k.OnA()});
  }

  lemma TakenUpOnA(r: Reached, k: Case, s: State) returns (t: State)
    requires k.Valid() && r(s, {k.OnA()}) && Has(s.server, k, 7) && Stand(s.nodes, k, 6, Idle, k.disk, 5)
    ensures r(t, {}) && t.server == s.server && Stand(t.nodes, k, 6, Sync(6, k.C6()), k.disk, 5)
  {
    t := Starts(r, s, {k.OnA()}, k.OnA(), k.C6());
    assert {k.OnA()} - {k.OnA()} == {};
  }

  /** A's worker takes it up and makes it. */
  lemma MadeOnA(r: Reached, k: Case, s: State) returns (t: State)
    requires k.Valid() && r(s, {k.OnA()}) && Has(s.server, k, 7) && Stand(s.nodes, k, 5, Idle, k.disk, 5)
    ensures r(t, {}) && t.server == s.server
    ensures Stand(t.nodes, k, 6, Commit(6, k.C6(), MarkReady), WithVolume(k.disk, k.c, k.v), 5)
  {
    t := HeardOnA(r, k, s);
    t := TakenUpOnA(r, k, t);
    CreateEffect(k.disk, k.v, k.C6(), 6);
    t := Acts(r, t, {}, k.OnA(), NO_FAULTS, Effect(WithVolume(k.disk, k.c, k.v), Commit(6, k.C6(), MarkReady)));
  }

  lemma MarkedOnA(r: Reached, k: Case, s: State) returns (t: State)
    requires k.Valid() && r(s, {}) && Has(s.server, k, 7)
    requires Stand(s.nodes, k, 6, Commit(6, k.C6(), MarkReady), WithVolume(k.disk, k.c, k.v), 5)
    ensures r(t, {}) && Live(t.server, k.v) && Cur(t.server.vols, k.v).value.spec == k.c
    ensures Stand(t.nodes, k, 6, Idle, WithVolume(k.disk, k.c, k.v), 5)
  {
    var written := Written(k.C6(), k.a.ownerNodeID, MarkReady);
    Latest(s.server, k, 7);
    assert WriteOf(s, k.OnA()) == Update(KVolume, k.v, written);
    ServedUpdate(s.server, k.v, written);
    SameOwner(s, {}, k.v, k.C6(), written.(version := s.server.clock));
    t := Finishes(r, s, {}, k.OnA());
  }

  lemma ComesToB(r: Reached, k: Case) returns (s: State)
    requires k.Valid() && r(k.Start(), {})
    ensures r(s, {}) && Inside(s, 0, Call(k.FirstOp(), Poll(1), Some(k.A2()), {}))
    ensures Has(s.server, k, 4) && Stand(s.nodes, k, 2, Idle, k.disk, 0)
  {
    s := FirstWritten(r, k);
    s := FailsOnA(r, k, s);
    s := MarksFailed(r, k, s);
    var c;
    s, c := TurnsToB(r, k, s);
    s := WrittenForB(r, k, s);
  }

  /**
   * For every such case there is a run, with the last owner's node drained at every change of owner,
   * that ends with the volume Ready for node C and its dataset on node A.
   */
  lemma LastOwnerDrainedRace(k: Case) returns (s: State)
    requires k.Valid()
    ensures Initial(k.Start()) && Reach(k.Start(), s, {}) && Live(s.server, k.v)
    ensures Cur(s.server.vols, k.v).value.spec == k.c
    ensures Vol(k.c.poolName, k.v) !in DiskOf(s.nodes, k.c.ownerNodeID)
    ensures Vol(k.c.poolName, k.v) in DiskOf(s.nodes, k.a.ownerNodeID)
  {
    var r := From(k.Start());
    s := ComesToB(r, k);
    s := GivesUp(r, k, s);
    s := Vanishes(r, k, s);
    s := HearsDeletion(r, k, s);
    s := WrittenForC(r, k, s);
    s := MadeOnA(r, k, s);
    s := MarkedOnA(r, k, s);
  }
}
