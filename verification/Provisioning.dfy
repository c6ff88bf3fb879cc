/**
 * The loop of CreateZFSVolume that tries the nodes the scheduler picked, one after the other.
 * Every attempt updates the same volume object.
 */
module Provisioning {
  import opened Base
  import opened Resource

  /** What ProvisionVolume returns: no error, an error, or an error because time ran out. */
  datatype Result = Provisioned | Refused | TimedOut

  /** One node: its id, the pool a poolpattern resolves to on it, and how provisioning goes. */
  datatype Node = Node(name: string, id: Option<string>, pool: Option<string>, result: Result)

  /** The pool parameter of the storage class; `pattern` when a poolpattern is given instead. */
  datatype PoolParam = PoolParam(pool: string, pattern: bool)

  /** The ZFSVolume object all attempts share. */
  class VolumeObject {
    var owner: string
    var pool: string
    var phase: Phase

    constructor ()
      ensures owner == "" && pool == "" && phase == Pending
    {
      owner, pool, phase := "", "", Pending;
    }
  }

  /** The pool to use on a node; None when the lookup fails, finds none, or there is no name to use. */
  function PoolOn(p: PoolParam, node: Node): Option<string> {
    if p.pattern then (if node.pool == Some("") then None else node.pool)
    else if p.pool == "" then None else Some(p.pool)
  }

  /** The node gets as far as an attempt to provision on it. */
  predicate Tried(p: PoolParam, node: Node) { node.id.Some? && PoolOn(p, node).Some? }

  predicate Stops(p: PoolParam, node: Node) { Tried(p, node) && node.result != Refused }

  /** The node that ends the loop, if one does: the first to succeed or time out. */
  function Winner(p: PoolParam, nodes: seq<Node>): (r: Option<nat>)
    ensures r.Some? ==>
              r.value < |nodes| && Stops(p, nodes[r.value]) && forall i :: 0 <= i < r.value ==> !Stops(p, nodes[i])
    ensures r.None? ==> forall i :: 0 <= i < |nodes| ==> !Stops(p, nodes[i])
  {
    if nodes == [] then None
    else if Stops(p, nodes[0]) then Some(0)
    else
      var rest := Winner(p, nodes[1..]);
      if rest.None? then None else Some(rest.value + 1)
  }

  predicate Wins(p: PoolParam, nodes: seq<Node>) {
    Winner(p, nodes).Some? && nodes[Winner(p, nodes).value].result == Provisioned
  }

  /** The owner and pool of every attempt a list of nodes leads to. */
  function Handed(p: PoolParam, nodes: seq<Node>): seq<(string, string)> {
    if nodes == [] then []
    else
      var last := nodes[|nodes| - 1];
      Handed(p, nodes[..|nodes| - 1]) + (if Tried(p, last) then [(last.id.value, PoolOn(p, last).value)] else [])
  }

  datatype Error = NoNodeID | PoolLookupFailed | NoMatchingPool | MissingPoolName | NotProvisioned

  /** Node id, pool and object for one attempt; an error means this node is skipped. */
  method Prepare(p: PoolParam, node: Node, volObj: VolumeObject) returns (err: Option<Error>)
    modifies volObj
    ensures err.None? <==> Tried(p, node)
    ensures err.None? ==>
              (Some(volObj.owner), Some(volObj.pool)) == (node.id, PoolOn(p, node)) && volObj.phase == Pending
    // a poolname is used as it is, whatever the node resolves a pattern to
    ensures !p.pattern ==> (err.None? <==> node.id.Some? && p.pool != "") && (err.None? ==> volObj.pool == p.pool)
    // a poolpattern is resolved against the node
    ensures p.pattern ==>
              && (err.None? <==> node.id.Some? && node.pool.Some? && node.pool.value != "")
              && (err.None? ==> Some(volObj.pool) == node.pool)
  {
    if node.id.None? { return Some(NoNodeID); }
    var volPool := p.pool;
    if p.pattern {
      if node.pool.None? { return Some(PoolLookupFailed); }
      volPool := node.pool.value;
      if volPool == "" { return Some(NoMatchingPool); }
    }
    volObj.owner := node.id.value;
    volObj.phase := Pending;
    if volPool == "" { return Some(MissingPoolName); }
    volObj.pool := volPool;
    return None;
  }

  /**
   * The loop. `tried` records what ProvisionVolume was handed, attempt by attempt. On success the
   * shared object is the one returned and holds the winner's id and pool, whatever earlier attempts
   * left in it; otherwise there is an error to report and the resource is deleted.
   */
  method TryNodes(p: PoolParam, nodes: seq<Node>, volObj: VolumeObject)
    returns (vol: VolumeObject?, err: Option<Error>, deleted: bool, ghost tried: seq<(string, string)>,
             ghost seen: nat)
    requires nodes != []
    modifies volObj
    ensures vol != null <==> Wins(p, nodes)
    ensures vol != null ==>
      var node := nodes[Winner(p, nodes).value];
      && vol == volObj && err.None? && !deleted
      && (Some(vol.owner), Some(vol.pool)) == (node.id, PoolOn(p, node)) && vol.phase == Pending
    ensures vol == null ==> err.Some? && deleted
    ensures tried == Handed(p, if Winner(p, nodes).Some? then nodes[..Winner(p, nodes).value + 1] else nodes)
    // nodes are seen in order; each but the last seen is skipped or refused, and the last decides
    ensures 0 < seen <= |nodes| && tried == Handed(p, nodes[..seen])
    ensures forall i :: 0 <= i < seen - 1 && Tried(p, nodes[i]) ==> nodes[i].result == Refused
    ensures seen < |nodes| ==> Tried(p, nodes[seen - 1]) && nodes[seen - 1].result in {Provisioned, TimedOut}
    ensures vol != null <==> Tried(p, nodes[seen - 1]) && nodes[seen - 1].result == Provisioned
    ensures vol != null ==> tried != [] && tried[|tried| - 1] == (vol.owner, vol.pool)
  {
    vol, err, deleted, tried, seen := null, None, false, [], 0;
    var i := 0;
    while i < |nodes|
      invariant 0 <= i <= |nodes|
      invariant forall j :: 0 <= j < i ==> !Stops(p, nodes[j])
      invariant i > 0 ==> err.Some?
      invariant tried == Handed(p, nodes[..i])
    {
      HandedNext(p, nodes, i);
      err := Prepare(p, nodes[i], volObj);
      if err.None? {
        tried := tried + [(volObj.owner, volObj.pool)];
        if nodes[i].result == Provisioned {
          OnlyWinner(p, nodes, i);
          return volObj, None, false, tried, i + 1;
        }
        err := Some(NotProvisioned);
        if nodes[i].result == TimedOut {
          OnlyWinner(p, nodes, i);
          return null, err, true, tried, i + 1;
        }
      }
      i := i + 1;
    }
    assert nodes[..i] == nodes;
    deleted, seen := err.Some?, i;
  }

  /**
   * What is handed over, in the nodes' own fields: one pair for each node with an id and a pool, in
   * order, the pool being the storage class's own or the one its pattern finds on that node.
   */
  lemma {:induction false} HandedIs(p: PoolParam, nodes: seq<Node>, i: nat)
    requires i < |nodes| && nodes[i].id.Some?
    ensures !p.pattern && p.pool != "" ==> (nodes[i].id.value, p.pool) in Handed(p, nodes)
    ensures p.pattern && nodes[i].pool.Some? && nodes[i].pool.value != "" ==>
              (nodes[i].id.value, nodes[i].pool.value) in Handed(p, nodes)
  {
    var init := nodes[..|nodes| - 1];
    if i < |init| {
      HandedIs(p, init, i);
      assert init[i] == nodes[i];
    }
  }

  lemma {:induction false} HandedOnly(p: PoolParam, nodes: seq<Node>, x: (string, string))
    requires x in Handed(p, nodes)
    ensures exists i :: 0 <= i < |nodes| && nodes[i].id == Some(x.0) && x.1 != ""
                        && (if p.pattern then nodes[i].pool == Some(x.1) else p.pool == x.1)
  {
    var init, last := nodes[..|nodes| - 1], |nodes| - 1;
    if x in Handed(p, init) {
      HandedOnly(p, init, x);
      var i :| 0 <= i < |init| && init[i].id == Some(x.0) && x.1 != ""
               && (if p.pattern then init[i].pool == Some(x.1) else p.pool == x.1);
      assert nodes[i] == init[i];
    } else {
      assert nodes[last].id == Some(x.0);
    }
  }

  lemma HandedNext(p: PoolParam, nodes: seq<Node>, i: nat)
    requires i < |nodes|
    ensures Handed(p, nodes[..i + 1])
         == Handed(p, nodes[..i])
            + (if Tried(p, nodes[i]) then [(nodes[i].id.value, PoolOn(p, nodes[i]).value)] else [])
  {
    assert nodes[..i + 1][..i] == nodes[..i];
  }

  lemma OnlyWinner(p: PoolParam, nodes: seq<Node>, i: nat)
    requires i < |nodes| && Stops(p, nodes[i]) && forall j :: 0 <= j < i ==> !Stops(p, nodes[j])
    ensures Winner(p, nodes) == Some(i)
  {
  }
}
