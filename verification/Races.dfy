/** A worker that is late for its own volume. */
module Races {
  import opened Base
  import opened Resource
  import opened Api
  import opened UserProp
  import opened ZfsStore
  import opened Cluster
  import opened Readiness
  import opened Script
  import opened Scenarios

  /** Any volume planned for two nodes, and the disk of the first. */
  datatype Race = Race(v: string, a: VolumeInfo, b: VolumeInfo, disk: Store) {
    ghost predicate Valid() {
      && a.ownerNodeID != b.ownerNodeID && a.snapName.NoSnap? && b.snapName.NoSnap?
      && ValidProps(b.userProperties)
      && Pool(b.poolName) in disk && Vol(b.poolName, v) !in disk
    }
    function OnA(): Slot { VolumeSlot(a, v) }
    function Op(): Op { CreateVolumeOp(v, None, [a, b]) }
    function First(): CR { NewCR(a, 0) }
    function Second(): CR { First().(spec := b, version := 1) }
    function Start(): State {
      State(Server(map[], map[], 0), Controller(map[], map[]), Nodes(map[], map[], map[a.ownerNodeID := disk]))
    }
  }

  /** Node A's informer, worker and disk; node B's disk. */
  ghost predicate Stand(n: Nodes, k: Race, pos: nat, work: Work, disk: Store) {
    && PosOf(n, k.OnA()) == pos && WorkOf(n, k.OnA()) == work && DiskOf(n, k.a.ownerNodeID) == disk
    && DiskOf(n, k.b.ownerNodeID) == map[]
  }

  /** The volume is written for node A, whose informer sees it and queues its key. */
  lemma QueuedOnA(r: QueueReached, k: Race) returns (s: State)
    requires k.Valid() && r(k.Start(), {})
    ensures r(s, {k.OnA()}) && Inside(s, 0, Call(k.Op(), Poll(0), None, {})) && Stand(s.nodes, k, 1, Idle, k.disk)
    ensures Hist(s.server.vols, k.v) == [None, Some(k.First())] && s.server.clock == 1
  {
    var s0 := k.Start();
    assert Hist(s0.server.vols, k.v) == [None];
    NobodyBefore(s0, {}, k.v, Some(NewCR(k.a, 0)));
    s := WritesNew(r, s0, {}, 0, k.Op());
    ServedNew(s0.server, k.v, NewCR(k.a, 0));
    assert [None] + [Some(k.First())] == [None, Some(k.First())];
    s := Delivers(r, s, {}, k.OnA(), 1, {k.OnA()});
  }

  /** A failed read sends the handler to the next node. */
  lemma TurnsAway(r: QueueReached, k: Race, s: State) returns (t: State, c: Call)
    requires r(s, {k.OnA()}) && Inside(s, 0, Call(k.Op(), Poll(0), None, {}))
    requires Cur(s.server.vols, k.v) == Some(k.First())
    ensures c == Call(k.Op(), ProvWrite(1), Some(k.First()), {})
    ensures r(t, {k.OnA()}) && Inside(t, 0, c) && t.server == s.server && t.nodes == s.nodes
  {
    c := Call(k.Op(), ProvGet(1), None, {});
    t := CreateMoves(r, s, {k.OnA()}, 0, Call(k.Op(), Poll(0), None, {}), true, false, c);
    t, c := Reads(r, t, {k.OnA()}, 0, c, 1);
  }

  /** It writes the volume for node B while A's key is queued. */
  lemma WrittenForB(r: QueueReached, k: Race, s: State, c: Call) returns (t: State)
    requires r(s, {k.OnA()}) && Inside(s, 0, c) && c == Call(k.Op(), ProvWrite(1), Some(k.First()), {})
    requires Hist(s.server.vols, k.v) == [None, Some(k.First())] && s.server.clock == 1
    ensures r(t, {k.OnA()}) && t.nodes == s.nodes && t.server.clock == 2
    ensures Hist(t.server.vols, k.v) == [None, Some(k.First()), Some(k.Second())]
  {
    var step := Advance(0, false, false);
    ServedUpdate(s.server, k.v, k.First().(spec := k.b));
    assert RequestOf(s, step) == Update(KVolume, k.v, k.First().(spec := k.b));
    QuietQueue(s, {k.OnA()}, step);
    t := Apply(s, step);
    assert [None, Some(k.First())] + [Some(k.Second())] == [None, Some(k.First()), Some(k.Second())];
  }

  /** A's worker takes up the second version, which node B owns, and makes it. */
  lemma MadeOnA(r: QueueReached, k: Race, s: State) returns (t: State)
    requires k.Valid() && r(s, {k.OnA()}) && Stand(s.nodes, k, 1, Idle, k.disk)
    requires Hist(s.server.vols, k.v) == [None, Some(k.First()), Some(k.Second())]
    ensures r(t, {}) && t.server == s.server
    ensures Stand(t.nodes, k, 2, Commit(2, k.Second(), MarkReady), WithVolume(k.disk, k.b, k.v))
  {
    t := Delivers(r, s, {k.OnA()}, k.OnA(), 2, {k.OnA()});
    t := Starts(r, t, {k.OnA()}, k.OnA(), k.Second());
    assert {k.OnA()} - {k.OnA()} == {};
    CreateEffect(k.disk, k.v, k.Second(), 2);
    t := Acts(r, t, {}, k.OnA(), NO_FAULTS, Effect(WithVolume(k.disk, k.b, k.v), Commit(2, k.Second(), MarkReady)));
  }

  lemma MarkedOnA(r: QueueReached, k: Race, s: State) returns (t: State)
    requires k.Valid() && r(s, {}) && Cur(s.server.vols, k.v) == Some(k.Second()) && s.server.clock == 2
    requires Stand(s.nodes, k, 2, Commit(2, k.Second(), MarkReady), WithVolume(k.disk, k.b, k.v))
    ensures r(t, {}) && Live(t.server, k.v) && Cur(t.server.vols, k.v).value.spec == k.b
    ensures Stand(t.nodes, k, 2, Idle, WithVolume(k.disk, k.b, k.v))
  {
    var written := Written(k.Second(), k.a.ownerNodeID, MarkReady);
    assert WriteOf(s, k.OnA()) == Update(KVolume, k.v, written);
    ServedUpdate(s.server, k.v, written);
    SameOwner(s, {}, k.v, k.Second(), written.(version := s.server.clock));
    t := Finishes(r, s, {}, k.OnA());
  }

  /**
   * Without draining, any volume planned for two nodes can end up Ready in the wrong place: node A's
   * key is still queued when the handler gives the volume to node B, and A's worker then provisions
   * B's volume on A.
   */
  lemma UndrainedRace(k: Race) returns (s: State)
    requires k.Valid()
    ensures Initial(k.Start()) && Queued(k.Start(), s, {}) && Live(s.server, k.v)
    ensures Cur(s.server.vols, k.v).value.spec == k.b
    ensures Vol(k.b.poolName, k.v) !in DiskOf(s.nodes, k.b.ownerNodeID)
    ensures Vol(k.b.poolName, k.v) in DiskOf(s.nodes, k.a.ownerNodeID)
  {
    var r := FromQueued(k.Start());
    var c;
    s := QueuedOnA(r, k);
    s, c := TurnsAway(r, k, s);
    s := WrittenForB(r, k, s, c);
    s := MadeOnA(r, k, s);
    s := MarkedOnA(r, k, s);
  }
}
