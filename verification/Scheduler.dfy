/**
 * Choosing a node and a pool. The node filter, the pool choice, the weight maps and the reported
 * capacity are separate loops in the source; here they are shown to agree. A pool pattern is any
 * predicate on pool names, and lib-csi's scheduler any list of node names.
 */
module Scheduler {
  import opened Base
  import opened Totals

  const MAX_INT64: int := 0x7fff_ffff_ffff_ffff

  datatype Pool = Pool(name: string, free: int, used: int)
  datatype OwnerRef = OwnerRef(kind: string, name: string)
  datatype Node = Node(name: string, owners: seq<OwnerRef>, pools: seq<Pool>)
  datatype Volume = Volume(owner: string, pool: string)
  type Pattern = string -> bool

  /** What ZFS guarantees of the pools an agent reports. */
  ghost predicate Reported(pools: seq<Pool>) {
    forall i :: 0 <= i < |pools| ==> pools[i].name != "" && 0 <= pools[i].free <= MAX_INT64
  }

  ghost predicate UniqueNames(pools: seq<Pool>) {
    forall i, j :: 0 <= i < j < |pools| ==> pools[i].name != pools[j].name
  }

  /** k8sNodeName: the Node that owns the resource, else the resource's own name. */
  method K8sNodeName(node: Node) returns (name: string)
    ensures name == NodeName(node)
    // the first owner reference of kind Node, or none of them is
    ensures || ((forall i :: 0 <= i < |node.owners| ==> node.owners[i].kind != "Node") && name == node.name)
            || (exists i :: && 0 <= i < |node.owners| && node.owners[i] == OwnerRef("Node", name)
                            && forall j :: 0 <= j < i ==> node.owners[j].kind != "Node")
  {
    for i := 0 to |node.owners|
      invariant NodeName(node) == NodeName(node.(owners := node.owners[i..]))
      invariant forall j :: 0 <= j < i ==> node.owners[j].kind != "Node"
    {
      if node.owners[i].kind == "Node" { return node.owners[i].name; }
    }
    return node.name;
  }

  function NodeName(node: Node): string
    decreases |node.owners|
  {
    if node.owners == [] then node.name
    else if node.owners[0].kind == "Node" then node.owners[0].name
    else NodeName(node.(owners := node.owners[1..]))
  }

  /** Different ZFSNodes belong to different nodes. */
  ghost predicate DistinctNodes(nodes: seq<Node>) {
    forall k, j :: 0 <= k < j < |nodes| ==> NodeName(nodes[k]) != NodeName(nodes[j])
  }

  /** poolRoot: the text before the first slash. */
  function PoolRoot(poolname: string): (root: string)
    ensures '/' !in root && (root == poolname || root + "/" <= poolname)
  {
    if poolname == "" || poolname[0] == '/' then "" else [poolname[0]] + PoolRoot(poolname[1..])
  }

  // ---- the roomiest pool ----------------------------------------------------------------------

  /** The loop of maxFreePool over a prefix. */
  function MaxFree(pools: seq<Pool>, matches: Pattern): (string, int) {
    if pools == [] then ("", 0)
    else
      var best, pool := MaxFree(pools[..|pools| - 1], matches), pools[|pools| - 1];
      if matches(pool.name) && (best.0 == "" || pool.free > best.1) then (pool.name, pool.free) else best
  }

  method MaxFreePool(pools: seq<Pool>, matches: Pattern) returns (selected: string, maxFree: int)
    ensures (selected, maxFree) == MaxFree(pools, matches)
  {
    selected, maxFree := "", 0;
    for i := 0 to |pools|
      invariant (selected, maxFree) == MaxFree(pools[..i], matches)
    {
      assert pools[..i + 1][..i] == pools[..i];
      var pool := pools[i];
      if matches(pool.name) && (selected == "" || pool.free > maxFree) {
        selected, maxFree := pool.name, pool.free;
      }
    }
    assert pools[..|pools|] == pools;
  }

  /** Pool `i` is the first of the roomiest matching pools. */
  ghost predicate Roomiest(pools: seq<Pool>, matches: Pattern, i: int) {
    && 0 <= i < |pools| && matches(pools[i].name)
    && (forall j :: 0 <= j < |pools| && matches(pools[j].name) ==> pools[j].free <= pools[i].free)
    && (forall j :: 0 <= j < i && matches(pools[j].name) ==> pools[j].free < pools[i].free)
  }

  ghost predicate NoMatch(pools: seq<Pool>, matches: Pattern) {
    forall i :: 0 <= i < |pools| ==> !matches(pools[i].name)
  }

  /** maxFreePool finds the first of the roomiest matching pools, or nothing when none matches. */
  lemma {:induction false} MaxFreeIsRoomiest(pools: seq<Pool>, matches: Pattern) returns (i: int)
    requires Reported(pools)
    ensures i == -1 || 0 <= i < |pools|
    ensures i == -1 ==> NoMatch(pools, matches) && MaxFree(pools, matches) == ("", 0)
    ensures i >= 0 ==> Roomiest(pools, matches, i) && MaxFree(pools, matches) == (pools[i].name, pools[i].free)
  {
    i := -1;
    if pools != [] {
      var init, n := pools[..|pools| - 1], |pools| - 1;
      i := MaxFreeIsRoomiest(init, matches);
      assert forall j :: 0 <= j < n ==> init[j] == pools[j];
      if matches(pools[n].name) && (i == -1 || pools[n].free > pools[i].free) { i := n; }
    }
  }

  // ---- the pool for a node --------------------------------------------------------------------

  predicate Qualifies(pool: Pool, matches: Pattern, minFree: int) {
    matches(pool.name) && !(minFree > 0 && pool.free <= minFree)
  }

  /** The loop of poolForNode over a prefix: the choice so far and its weight. */
  function Pick(pools: seq<Pool>, matches: Pattern, minFree: int, weights: map<string, int>): (string, int) {
    if pools == [] then ("", 0)
    else
      var best, pool := Pick(pools[..|pools| - 1], matches, minFree, weights), pools[|pools| - 1];
      if Qualifies(pool, matches, minFree) && (best.0 == "" || ValueOf(weights, pool.name) < best.1)
      then (pool.name, ValueOf(weights, pool.name)) else best
  }

  method PoolForNode(pools: seq<Pool>, matches: Pattern, minFree: int, weights: map<string, int>)
    returns (selected: string)
    ensures selected == Pick(pools, matches, minFree, weights).0
  {
    selected := "";
    var selWeight := 0;
    for i := 0 to |pools|
      invariant (selected, selWeight) == Pick(pools[..i], matches, minFree, weights)
    {
      assert pools[..i + 1][..i] == pools[..i];
      var pool := pools[i];
      if matches(pool.name) && !(minFree > 0 && pool.free <= minFree) {
        var weight := if pool.name in weights then weights[pool.name] else 0;
        if selected == "" || weight < selWeight {
          selected, selWeight := pool.name, weight;
        }
      }
    }
    assert pools[..|pools|] == pools;
  }

  /** Pool `i` is the first of the lightest qualifying pools. */
  ghost predicate Lightest(pools: seq<Pool>, matches: Pattern, minFree: int, weights: map<string, int>, i: int) {
    && 0 <= i < |pools| && Qualifies(pools[i], matches, minFree)
    && (forall j :: 0 <= j < |pools| && Qualifies(pools[j], matches, minFree) ==>
          ValueOf(weights, pools[i].name) <= ValueOf(weights, pools[j].name))
    && (forall j :: 0 <= j < i && Qualifies(pools[j], matches, minFree) ==>
          ValueOf(weights, pools[i].name) < ValueOf(weights, pools[j].name))
  }

  ghost predicate NoneQualifies(pools: seq<Pool>, matches: Pattern, minFree: int) {
    forall i :: 0 <= i < |pools| ==> !Qualifies(pools[i], matches, minFree)
  }

  /** poolForNode finds the first of the lightest qualifying pools, or nothing. */
  lemma {:induction false} PickIsLightest(pools: seq<Pool>, matches: Pattern, minFree: int, weights: map<string, int>)
    returns (i: int)
    requires Reported(pools)
    ensures i == -1 || 0 <= i < |pools|
    ensures i == -1 ==> NoneQualifies(pools, matches, minFree) && Pick(pools, matches, minFree, weights) == ("", 0)
    ensures i >= 0 ==> Lightest(pools, matches, minFree, weights, i)
                       && Pick(pools, matches, minFree, weights) == (pools[i].name, ValueOf(weights, pools[i].name))
  {
    i := -1;
    if pools != [] {
      var init, n := pools[..|pools| - 1], |pools| - 1;
      i := PickIsLightest(init, matches, minFree, weights);
      assert forall j :: 0 <= j < n ==> init[j] == pools[j];
      if Qualifies(pools[n], matches, minFree)
         && (i == -1 || ValueOf(weights, pools[n].name) < ValueOf(weights, pools[i].name)) { i := n; }
    }
  }

  // ---- the fit filter and the pool choice agree ----------------------------------------------------

  /** What suitableNodes asks of one node. */
  predicate Fits(node: Node, matches: Pattern, size: int) {
    MaxFree(node.pools, matches).0 != "" && MaxFree(node.pools, matches).1 > size
  }

  /** A node fits a size exactly when poolForNode, asked for that much room, returns a pool. */
  lemma FitIffPick(node: Node, matches: Pattern, size: int, weights: map<string, int>)
    requires Reported(node.pools) && size > 0
    ensures Fits(node, matches, size) <==> Pick(node.pools, matches, size, weights).0 != ""
  {
    var pools := node.pools;
    var i := MaxFreeIsRoomiest(pools, matches);
    var k := PickIsLightest(pools, matches, size, weights);
    if i >= 0 && k == -1 { assert !Qualifies(pools[i], matches, size); }
    if k >= 0 { assert matches(pools[k].name) && pools[k].free > size; }
  }

  /** The names suitableNodes keeps. */
  function Suitable(nodes: seq<Node>, matches: Pattern, size: int): set<string> {
    set i | 0 <= i < |nodes| && Fits(nodes[i], matches, size) :: NodeName(nodes[i])
  }

  method SuitableNodes(nodes: seq<Node>, matches: Pattern, size: int) returns (suitable: set<string>, matched: bool)
    ensures suitable == Suitable(nodes, matches, size)
    ensures matched <==> exists i :: 0 <= i < |nodes| && MaxFree(nodes[i].pools, matches).0 != ""
  {
    suitable, matched := {}, false;
    for i := 0 to |nodes|
      invariant suitable == Suitable(nodes[..i], matches, size)
      invariant matched <==> exists j :: 0 <= j < i && MaxFree(nodes[j].pools, matches).0 != ""
    {
      SuitableOne(nodes, i, matches, size);
      var pool, free := MaxFreePool(nodes[i].pools, matches);
      if pool != "" {
        matched := true;
        if free > size {
          var name := K8sNodeName(nodes[i]);
          suitable := suitable + {name};
        }
      }
    }
    assert nodes[..|nodes|] == nodes;
  }

  lemma SuitableOne(nodes: seq<Node>, i: nat, matches: Pattern, size: int)
    requires i < |nodes|
    ensures Suitable(nodes[..i + 1], matches, size)
         == Suitable(nodes[..i], matches, size) + (if Fits(nodes[i], matches, size) then {NodeName(nodes[i])} else {})
  {
    var a, b := nodes[..i + 1], nodes[..i];
    assert forall j :: 0 <= j < i ==> a[j] == b[j] == nodes[j];
    assert a[i] == nodes[i];
    forall name | name in Suitable(b, matches, size) ensures name in Suitable(a, matches, size) {
      var j :| 0 <= j < |b| && Fits(b[j], matches, size) && NodeName(b[j]) == name;
      assert Fits(a[j], matches, size) && NodeName(a[j]) == name;
    }
    if Fits(nodes[i], matches, size) { assert NodeName(a[i]) in Suitable(a, matches, size); }
  }

  /** filterKeep as a function: what is kept, in order. */
  function Kept(names: seq<string>, keep: set<string>): seq<string> {
    if names == [] then []
    else Kept(names[..|names| - 1], keep)
         + (if names[|names| - 1] in keep then [names[|names| - 1]] else [])
  }

  method FilterKeep(names: seq<string>, keep: set<string>)
    returns (filtered: seq<string>, ghost from: seq<nat>)
    ensures filtered == Kept(names, keep)
    ensures forall n :: n in filtered <==> n in names && n in keep
    // in the order they were in, each occurrence kept
    ensures |from| == |filtered| && (forall i :: 0 <= i < |from| ==> from[i] < |names| && filtered[i] == names[from[i]])
    ensures forall i, j :: 0 <= i < j < |from| ==> from[i] < from[j]
    ensures forall k :: 0 <= k < |names| && names[k] in keep ==> k in from
  {
    filtered, from := [], [];
    for i := 0 to |names|
      invariant filtered == Kept(names[..i], keep)
      invariant |from| == |filtered| && forall k :: 0 <= k < |from| ==> from[k] < i && filtered[k] == names[from[k]]
      invariant forall k, j :: 0 <= k < j < |from| ==> from[k] < from[j]
      invariant forall k :: 0 <= k < i && names[k] in keep ==> k in from
    {
      assert names[..i + 1][..i] == names[..i];
      if names[i] in keep { filtered, from := filtered + [names[i]], from + [i]; }
    }
    assert names[..|names|] == names;
    forall n ensures n in filtered <==> n in names && n in keep { KeptMembers(names, keep, n); }
  }

  /**
   * The filter composed with the pool choice: for a reserving volume, the nodes the scheduler
   * proposed are kept exactly when they resolve to a pool with room, whatever the weights, as
   * long as the pools are the same and different ZFSNodes belong to different nodes. So a node
   * that was filtered never runs into the branch without a pool.
   */
  lemma FilteredNodesResolve(nodes: seq<Node>, proposed: seq<string>, i: nat, matches: Pattern, size: int,
                             weights: map<string, int>)
    requires size > 0 && forall k :: 0 <= k < |nodes| ==> Reported(nodes[k].pools)
    requires DistinctNodes(nodes) && i < |nodes|
    ensures NodeName(nodes[i]) in Kept(proposed, Suitable(nodes, matches, size))
            <==> NodeName(nodes[i]) in proposed && Pick(nodes[i].pools, matches, size, weights).0 != ""
  {
    KeptMembers(proposed, Suitable(nodes, matches, size), NodeName(nodes[i]));
    FitIffPick(nodes[i], matches, size, weights);
    if NodeName(nodes[i]) in Suitable(nodes, matches, size) {
      var j :| 0 <= j < |nodes| && Fits(nodes[j], matches, size) && NodeName(nodes[j]) == NodeName(nodes[i]);
    }
  }

  lemma {:induction false} KeptMembers(names: seq<string>, keep: set<string>, n: string)
    ensures n in Kept(names, keep) <==> n in names && n in keep
  {
    if names != [] { KeptMembers(names[..|names| - 1], keep, n); }
  }

  // ---- reported capacity ------------------------------------------------------------------------------

  /** GetNodeID and the informer cache; a node without an id is looked up under its own name. */
  datatype Lookup = Lookup(nodeID: string -> Option<string>, cache: string -> Option<Node>) {
    function Find(name: string): Option<Node> {
      cache(if nodeID(name).Some? then nodeID(name).value else name)
    }
  }

  /** The cache has the node under its mapped id, or under its own name if it has no id. */
  predicate Found(lookup: Lookup, name: string, node: Node) {
    match lookup.nodeID(name)
    case Some(id) => lookup.cache(id) == Some(node)
    case None => lookup.cache(name) == Some(node)
  }

  /** The largest free capacity of a roomiest matching pool, over the nodes the cache knows. */
  function Capacity(names: seq<string>, lookup: Lookup, matches: Pattern): int {
    if names == [] then 0
    else
      var best, node := Capacity(names[..|names| - 1], lookup, matches), lookup.Find(names[|names| - 1]);
      if node.Some? && best < MaxFree(node.value.pools, matches).1 then MaxFree(node.value.pools, matches).1 else best
  }

  /** The loop of GetCapacity over the nodes of a topology segment. */
  method GetCapacity(names: seq<string>, lookup: Lookup, matches: Pattern) returns (available: int)
    ensures available == Capacity(names, lookup, matches)
    // no less than any node's roomiest matching pool, and no more than one of them
    ensures forall i, node :: 0 <= i < |names| && Found(lookup, names[i], node) ==>
              MaxFree(node.pools, matches).1 <= available
    ensures available == 0
            || exists i, node :: && 0 <= i < |names| && Found(lookup, names[i], node)
                                 && MaxFree(node.pools, matches).1 == available
  {
    available := 0;
    for i := 0 to |names|
      invariant available == Capacity(names[..i], lookup, matches)
    {
      assert names[..i + 1][..i] == names[..i];
      var mapped := lookup.nodeID(names[i]);
      var id := if mapped.Some? then mapped.value else names[i];
      var node := lookup.cache(id);
      if node.Some? {
        var _, free := MaxFreePool(node.value.pools, matches);
        if available < free { available := free; }
      }
    }
    assert names[..|names|] == names;
    CapacityIsMost(names, lookup, matches);
  }

  lemma {:induction false} CapacityIsMost(names: seq<string>, lookup: Lookup, matches: Pattern)
    ensures forall i, node :: 0 <= i < |names| && Found(lookup, names[i], node) ==>
              MaxFree(node.pools, matches).1 <= Capacity(names, lookup, matches)
    ensures Capacity(names, lookup, matches) == 0
            || exists i, node :: && 0 <= i < |names| && Found(lookup, names[i], node)
                                 && MaxFree(node.pools, matches).1 == Capacity(names, lookup, matches)
  {
    if names != [] {
      var init, last := names[..|names| - 1], names[|names| - 1];
      CapacityIsMost(init, lookup, matches);
      forall i, node | 0 <= i < |names| && Found(lookup, names[i], node)
        ensures MaxFree(node.pools, matches).1 <= Capacity(names, lookup, matches)
      {
        if i < |init| { assert Found(lookup, init[i], node); } else { assert lookup.Find(last) == Some(node); }
      }
      if Capacity(names, lookup, matches) == Capacity(init, lookup, matches) {
        if Capacity(init, lookup, matches) != 0 {
          var i, node :| && 0 <= i < |init| && Found(lookup, init[i], node)
                         && MaxFree(node.pools, matches).1 == Capacity(init, lookup, matches);
          assert Found(lookup, names[i], node);
        }
      } else {
        assert Found(lookup, names[|names| - 1], lookup.Find(last).value);
      }
    }
  }

  ghost predicate FitsOne(names: seq<string>, lookup: Lookup, matches: Pattern, size: int) {
    exists i :: 0 <= i < |names| && lookup.Find(names[i]).Some? && Fits(lookup.Find(names[i]).value, matches, size)
  }

  lemma {:induction false} CapacityIffFitsOne(names: seq<string>, lookup: Lookup, matches: Pattern, size: int)
    requires size >= 0
    requires forall i :: 0 <= i < |names| && lookup.Find(names[i]).Some? ==> Reported(lookup.Find(names[i]).value.pools)
    ensures Capacity(names, lookup, matches) > size <==> FitsOne(names, lookup, matches, size)
  {
    if names != [] {
      var init, last := names[..|names| - 1], names[|names| - 1];
      CapacityIffFitsOne(init, lookup, matches, size);
      if lookup.Find(last).Some? {
        var k := MaxFreeIsRoomiest(lookup.Find(last).value.pools, matches);
      }
      if FitsOne(init, lookup, matches, size) {
        var i :| 0 <= i < |init| && lookup.Find(init[i]).Some? && Fits(lookup.Find(init[i]).value, matches, size);
        assert lookup.Find(names[i]).Some? && Fits(lookup.Find(names[i]).value, matches, size);
      }
      if FitsOne(names, lookup, matches, size) {
        var i :| 0 <= i < |names| && lookup.Find(names[i]).Some? && Fits(lookup.Find(names[i]).value, matches, size);
        if i < |names| - 1 { assert init[i] == names[i]; }
      }
    }
  }

  /** The cache holds, for each node of the segment, the ZFSNode that is listed for it. */
  ghost predicate Agrees(names: seq<string>, lookup: Lookup, nodes: seq<Node>) {
    forall n :: n in names ==>
      if lookup.Find(n).Some?
      then exists i :: 0 <= i < |nodes| && nodes[i] == lookup.Find(n).value && NodeName(nodes[i]) == n
      else forall i :: 0 <= i < |nodes| ==> NodeName(nodes[i]) != n
  }

  lemma FitsIsSuitable(names: seq<string>, lookup: Lookup, nodes: seq<Node>, matches: Pattern, size: int, n: string)
    requires DistinctNodes(nodes) && Agrees(names, lookup, nodes) && n in names
    ensures n in Suitable(nodes, matches, size) <==> lookup.Find(n).Some? && Fits(lookup.Find(n).value, matches, size)
  {
    if lookup.Find(n).Some? {
      var i :| 0 <= i < |nodes| && nodes[i] == lookup.Find(n).value && NodeName(nodes[i]) == n;
      if n in Suitable(nodes, matches, size) {
        var j :| 0 <= j < |nodes| && Fits(nodes[j], matches, size) && NodeName(nodes[j]) == n;
        assert i == j;
      }
    }
  }

  /** The reported capacity exceeds a size exactly when some node of the segment is suitable for it. */
  lemma CapacityIffSuitable(names: seq<string>, lookup: Lookup, nodes: seq<Node>, matches: Pattern, size: int)
    requires size >= 0 && DistinctNodes(nodes) && Agrees(names, lookup, nodes)
    requires forall k :: 0 <= k < |nodes| ==> Reported(nodes[k].pools)
    ensures Capacity(names, lookup, matches) > size <==> exists n :: n in names && n in Suitable(nodes, matches, size)
  {
    forall i | 0 <= i < |names| && lookup.Find(names[i]).Some? ensures Reported(lookup.Find(names[i]).value.pools) {
      assert names[i] in names;
    }
    CapacityIffFitsOne(names, lookup, matches, size);
    if FitsOne(names, lookup, matches, size) {
      var i :| 0 <= i < |names| && lookup.Find(names[i]).Some? && Fits(lookup.Find(names[i]).value, matches, size);
      FitsIsSuitable(names, lookup, nodes, matches, size, names[i]);
    }
    if n :| n in names && n in Suitable(nodes, matches, size) {
      FitsIsSuitable(names, lookup, nodes, matches, size, n);
      var i :| 0 <= i < |names| && names[i] == n;
      assert lookup.Find(names[i]).Some?;
    }
  }

  // ---- weights by free space ----------------------------------------------------------------------------

  /** poolWeightMap: the used capacity, or the inverted free one under SpaceWeighted. */
  function PoolWeight(space: bool, pool: Pool): int { if space then MAX_INT64 - pool.free else pool.used }

  function PoolWeights(space: bool, pools: seq<Pool>): map<string, int> {
    if pools == [] then map[]
    else var pool := pools[|pools| - 1];
         PoolWeights(space, pools[..|pools| - 1])[pool.name := PoolWeight(space, pool)]
  }

  method PoolWeightMap(space: bool, pools: seq<Pool>) returns (weights: map<string, int>)
    ensures weights == PoolWeights(space, pools)
    ensures UniqueNames(pools) ==> forall i :: 0 <= i < |pools| ==>
              && pools[i].name in weights
              && weights[pools[i].name] == if space then 0x7fff_ffff_ffff_ffff - pools[i].free else pools[i].used
  {
    weights := map[];
    for i := 0 to |pools|
      invariant weights == PoolWeights(space, pools[..i])
    {
      assert pools[..i + 1][..i] == pools[..i];
      var weight := pools[i].used;
      if space { weight := MAX_INT64 - pools[i].free; }
      weights := weights[pools[i].name := weight];
    }
    assert pools[..|pools|] == pools;
    if UniqueNames(pools) {
      forall i | 0 <= i < |pools|
        ensures pools[i].name in weights && weights[pools[i].name] == PoolWeight(space, pools[i])
      {
        WeightOf(space, pools, i);
      }
    }
  }

  lemma {:induction false} WeightOf(space: bool, pools: seq<Pool>, i: nat)
    requires UniqueNames(pools) && i < |pools|
    ensures pools[i].name in PoolWeights(space, pools)
    ensures ValueOf(PoolWeights(space, pools), pools[i].name) == PoolWeight(space, pools[i])
  {
    if i < |pools| - 1 {
      var init := pools[..|pools| - 1];
      WeightOf(space, init, i);
      assert init[i] == pools[i];
    }
  }

  /**
   * Under SpaceWeighted, the pool choice is the roomiest pool whenever that pool passes the
   * minimum and nothing otherwise, with the same first-on-tie rule.
   */
  lemma SpaceWeightedPicksRoomiest(pools: seq<Pool>, matches: Pattern, minFree: int)
    requires Reported(pools) && UniqueNames(pools)
    ensures var (roomiest, free) := MaxFree(pools, matches);
            Pick(pools, matches, minFree, PoolWeights(true, pools)).0
            == if roomiest != "" && (minFree <= 0 || free > minFree) then roomiest else ""
  {
    var weights := PoolWeights(true, pools);
    var i := MaxFreeIsRoomiest(pools, matches);
    var k := PickIsLightest(pools, matches, minFree, weights);
    if i >= 0 && k >= 0 {
      WeightOf(true, pools, i);
      WeightOf(true, pools, k);
      assert pools[k].free <= pools[i].free;
      if Qualifies(pools[i], matches, minFree) {
        assert ValueOf(weights, pools[k].name) <= ValueOf(weights, pools[i].name);
      }
    }
  }

  /** spaceWeightedMap over a prefix of the nodes. */
  function SpaceWeights(nodes: seq<Node>, matches: Pattern): map<string, int> {
    if nodes == [] then map[]
    else
      var init, node := SpaceWeights(nodes[..|nodes| - 1], matches), nodes[|nodes| - 1];
      if MaxFree(node.pools, matches).0 == "" then init
      else init[NodeName(node) := MAX_INT64 - MaxFree(node.pools, matches).1]
  }

  method SpaceWeightedMap(nodes: seq<Node>, matches: Pattern) returns (weights: map<string, int>)
    ensures weights == SpaceWeights(nodes, matches)
  {
    weights := map[];
    for i := 0 to |nodes|
      invariant weights == SpaceWeights(nodes[..i], matches)
    {
      assert nodes[..i + 1][..i] == nodes[..i];
      var pool, free := MaxFreePool(nodes[i].pools, matches);
      if pool != "" {
        var name := K8sNodeName(nodes[i]);
        weights := weights[name := MAX_INT64 - free];
      }
    }
    assert nodes[..|nodes|] == nodes;
  }

  lemma {:induction false} SpaceWeightOf(nodes: seq<Node>, matches: Pattern, i: nat)
    requires DistinctNodes(nodes) && i < |nodes|
    ensures var (pool, free) := MaxFree(nodes[i].pools, matches);
            && (NodeName(nodes[i]) in SpaceWeights(nodes, matches) <==> pool != "")
            && (pool != "" ==> SpaceWeights(nodes, matches)[NodeName(nodes[i])] == MAX_INT64 - free)
  {
    var init, last := nodes[..|nodes| - 1], nodes[|nodes| - 1];
    if i < |nodes| - 1 {
      SpaceWeightOf(init, matches, i);
      assert init[i] == nodes[i];
    } else {
      NotWeighed(init, matches, NodeName(last));
    }
  }

  lemma {:induction false} NotWeighed(nodes: seq<Node>, matches: Pattern, name: string)
    requires forall k :: 0 <= k < |nodes| ==> NodeName(nodes[k]) != name
    ensures name !in SpaceWeights(nodes, matches)
  {
    if nodes != [] {
      assert NodeName(nodes[|nodes| - 1]) != name;
      NotWeighed(nodes[..|nodes| - 1], matches, name);
    }
  }

  /**
   * A node has a weight exactly when one of its pools matches; the weights stay within an int64,
   * and the lighter of two nodes is the one whose roomiest pool has more room.
   */
  lemma SpaceWeightsOrderByRoom(nodes: seq<Node>, matches: Pattern, a: nat, b: nat)
    requires DistinctNodes(nodes) && a < |nodes| && b < |nodes|
    requires Reported(nodes[a].pools) && Reported(nodes[b].pools)
    requires !NoMatch(nodes[a].pools, matches) && !NoMatch(nodes[b].pools, matches)
    ensures var w, x, y := SpaceWeights(nodes, matches), NodeName(nodes[a]), NodeName(nodes[b]);
            && x in w && y in w && 0 <= w[x] <= MAX_INT64
            && (w[x] < w[y] <==> MaxFree(nodes[a].pools, matches).1 > MaxFree(nodes[b].pools, matches).1)
  {
    SpaceWeightOf(nodes, matches, a);
    SpaceWeightOf(nodes, matches, b);
    var i := MaxFreeIsRoomiest(nodes[a].pools, matches);
    var k := MaxFreeIsRoomiest(nodes[b].pools, matches);
  }

  // ---- weights by use: nothing is lost and nothing counted twice ----------------------------------------------

  /** The node id to node name translation volumeWeightedMap builds first. */
  function Translation(nodes: seq<Node>): map<string, string> {
    if nodes == [] then map[]
    else Translation(nodes[..|nodes| - 1])[nodes[|nodes| - 1].name := NodeName(nodes[|nodes| - 1])]
  }

  function HostOf(translation: map<string, string>, id: string): string {
    if id in translation then translation[id] else id
  }

  function VolumeWeights(vols: seq<Volume>, translation: map<string, string>, matches: Pattern): map<string, int> {
    if vols == [] then map[]
    else
      var init, zv := VolumeWeights(vols[..|vols| - 1], translation, matches), vols[|vols| - 1];
      var host := HostOf(translation, zv.owner);
      if matches(PoolRoot(zv.pool)) then init[host := ValueOf(init, host) + 1] else init
  }

  /** Its first loop, from node ids to names. */
  method NodeNames(nodes: seq<Node>) returns (nodename: map<string, string>)
    ensures nodename == Translation(nodes)
  {
    nodename := map[];
    for i := 0 to |nodes|
      invariant nodename == Translation(nodes[..i])
    {
      assert nodes[..i + 1][..i] == nodes[..i];
      var name := K8sNodeName(nodes[i]);
      nodename := nodename[nodes[i].name := name];
    }
    assert nodes[..|nodes|] == nodes;
  }

  method VolumeWeightedMap(vols: seq<Volume>, nodes: seq<Node>, matches: Pattern) returns (weights: map<string, int>)
    ensures weights == VolumeWeights(vols, Translation(nodes), matches)
  {
    var nodename := NodeNames(nodes);
    weights := map[];
    for i := 0 to |vols|
      invariant weights == VolumeWeights(vols[..i], nodename, matches)
    {
      assert vols[..i + 1][..i] == vols[..i];
      var zv := vols[i];
      if matches(PoolRoot(zv.pool)) {
        var node := if zv.owner in nodename then nodename[zv.owner] else zv.owner;
        weights := weights[node := (if node in weights then weights[node] else 0) + 1];
      }
    }
    assert vols[..|vols|] == vols;
  }

  /** Each ZFSNode's id stands for its node's name. */
  lemma {:induction false} TranslationIs(nodes: seq<Node>, i: nat)
    requires DistinctIds(nodes) && i < |nodes|
    ensures nodes[i].name in Translation(nodes) && Translation(nodes)[nodes[i].name] == NodeName(nodes[i])
  {
    var init := nodes[..|nodes| - 1];
    if i < |init| {
      TranslationIs(init, i);
      assert init[i] == nodes[i];
    }
  }

  lemma {:induction false} TranslationOnly(nodes: seq<Node>, id: string)
    requires id in Translation(nodes)
    ensures exists i :: 0 <= i < |nodes| && nodes[i].name == id
  {
    var init, last := nodes[..|nodes| - 1], |nodes| - 1;
    if nodes[last].name != id {
      TranslationOnly(init, id);
      var i :| 0 <= i < |init| && init[i].name == id;
      assert nodes[i] == init[i];
    }
  }

  ghost predicate DistinctIds(nodes: seq<Node>) {
    forall k, j :: 0 <= k < j < |nodes| ==> nodes[k].name != nodes[j].name
  }

  /** How many of the volumes a node owns lie in a matching pool. */
  function OwnedIn(vols: seq<Volume>, id: string, matches: Pattern): nat {
    if vols == [] then 0
    else (if vols[0].owner == id && matches(PoolRoot(vols[0].pool)) then 1 else 0) + OwnedIn(vols[1..], id, matches)
  }

  lemma {:induction false} OwnedSnoc(vols: seq<Volume>, zv: Volume, id: string, matches: Pattern)
    ensures OwnedIn(vols + [zv], id, matches)
         == OwnedIn(vols, id, matches) + (if zv.owner == id && matches(PoolRoot(zv.pool)) then 1 else 0)
  {
    if vols == [] {
      assert vols + [zv] == [zv] && [zv][1..] == [];
    } else {
      assert (vols + [zv])[1..] == vols[1..] + [zv];
      OwnedSnoc(vols[1..], zv, id, matches);
    }
  }

  /** Only the node's own volumes count for it. */
  lemma HostIsOwner(nodes: seq<Node>, i: nat, owner: string)
    requires DistinctNodes(nodes) && DistinctIds(nodes) && i < |nodes|
    requires owner == NodeName(nodes[i]) ==> exists k :: 0 <= k < |nodes| && nodes[k].name == owner
    ensures HostOf(Translation(nodes), owner) == NodeName(nodes[i]) <==> owner == nodes[i].name
  {
    TranslationIs(nodes, i);
    if owner in Translation(nodes) {
      TranslationOnly(nodes, owner);
      var k :| 0 <= k < |nodes| && nodes[k].name == owner;
      TranslationIs(nodes, k);
    } else if k :| 0 <= k < |nodes| && nodes[k].name == owner {
      TranslationIs(nodes, k);
    }
  }

  /**
   * A node's weight is the number of its own volumes in matching pools, as long as no volume of an
   * unknown owner has the node's name for an owner.
   */
  lemma {:induction false} VolumeWeightIsCount(vols: seq<Volume>, nodes: seq<Node>, matches: Pattern, i: nat)
    requires DistinctNodes(nodes) && DistinctIds(nodes) && i < |nodes|
    requires forall v :: v in vols && v.owner == NodeName(nodes[i]) ==>
               exists k :: 0 <= k < |nodes| && nodes[k].name == v.owner
    ensures ValueOf(VolumeWeights(vols, Translation(nodes), matches), NodeName(nodes[i]))
         == OwnedIn(vols, nodes[i].name, matches)
  {
    if vols != [] {
      var init, zv := vols[..|vols| - 1], vols[|vols| - 1];
      assert vols == init + [zv];
      VolumeWeightIsCount(init, nodes, matches, i);
      OwnedSnoc(init, zv, nodes[i].name, matches);
      HostIsOwner(nodes, i, zv.owner);
    }
  }

  /** How many volumes lie in a matching pool. */
  function Count(vols: seq<Volume>, matches: Pattern): nat {
    if vols == [] then 0
    else Count(vols[..|vols| - 1], matches) + (if matches(PoolRoot(vols[|vols| - 1].pool)) then 1 else 0)
  }

  /** The node counts add up to the volumes in matching pools. */
  lemma {:induction false} VolumeWeightsConserve(vols: seq<Volume>, translation: map<string, string>, matches: Pattern)
    ensures Total(VolumeWeights(vols, translation, matches)) == Count(vols, matches)
  {
    if vols != [] {
      var init, zv := vols[..|vols| - 1], vols[|vols| - 1];
      VolumeWeightsConserve(init, translation, matches);
      var m, host := VolumeWeights(init, translation, matches), HostOf(translation, zv.owner);
      TotalUpdate(m, host, ValueOf(m, host) + 1);
    }
  }

  /** poolVolumeMap over a prefix: the volumes of one node, per pool root. */
  function PoolVolumes(vols: seq<Volume>, id: string): map<string, int> {
    if vols == [] then map[]
    else
      var init, zv := PoolVolumes(vols[..|vols| - 1], id), vols[|vols| - 1];
      if zv.owner == id then init[PoolRoot(zv.pool) := ValueOf(init, PoolRoot(zv.pool)) + 1] else init
  }

  method PoolVolumeMap(vols: seq<Volume>, id: string) returns (counts: map<string, int>)
    ensures counts == PoolVolumes(vols, id)
  {
    counts := map[];
    for i := 0 to |vols|
      invariant counts == PoolVolumes(vols[..i], id)
    {
      assert vols[..i + 1][..i] == vols[..i];
      if vols[i].owner == id {
        var root := PoolRoot(vols[i].pool);
        counts := counts[root := (if root in counts then counts[root] else 0) + 1];
      }
    }
    assert vols[..|vols|] == vols;
  }

  /** Per pool root, the number of the node's volumes there. */
  lemma {:induction false} PoolVolumeIsCount(vols: seq<Volume>, id: string, root: string)
    ensures ValueOf(PoolVolumes(vols, id), root) == OwnedIn(vols, id, (r: string) => r == root)
  {
    if vols != [] {
      var init, zv := vols[..|vols| - 1], vols[|vols| - 1];
      assert vols == init + [zv];
      PoolVolumeIsCount(init, id, root);
      OwnedSnoc(init, zv, id, (r: string) => r == root);
    }
  }

  /**
   * A node's volume weight is the sum of its per-pool counts over the matching roots, as long as
   * no other volume's owner translates to the same node name.
   */
  lemma {:induction false} NodeCountIsPoolSum(vols: seq<Volume>, translation: map<string, string>, matches: Pattern,
                                              id: string)
    requires forall i :: 0 <= i < |vols| && HostOf(translation, vols[i].owner) == HostOf(translation, id) ==>
              vols[i].owner == id
    ensures ValueOf(VolumeWeights(vols, translation, matches), HostOf(translation, id))
         == Total(Select(PoolVolumes(vols, id), matches))
  {
    if vols == [] {
      assert Select(map[], matches) == map[];
    } else {
      var init, zv := vols[..|vols| - 1], vols[|vols| - 1];
      assert forall i :: 0 <= i < |init| ==> init[i] == vols[i];
      NodeCountIsPoolSum(init, translation, matches, id);
      var m, root := PoolVolumes(init, id), PoolRoot(zv.pool);
      if zv.owner == id { SelectUpdate(m, matches, root, ValueOf(m, root) + 1); }
      else { assert HostOf(translation, vols[|vols| - 1].owner) != HostOf(translation, id); }
    }
  }

  // ---- used capacity ---------------------------------------------------------------------------------------------

  /** The inner loop of capacityWeightedMap: one node's matching pools added to its entry. */
  function AddUsed(weights: map<string, int>, name: string, pools: seq<Pool>, matches: Pattern): map<string, int> {
    if pools == [] then weights
    else
      var init, pool := AddUsed(weights, name, pools[..|pools| - 1], matches), pools[|pools| - 1];
      if matches(pool.name) then init[name := Wrap(ValueOf(init, name) + pool.used)] else init
  }

  function CapacityWeights(nodes: seq<Node>, matches: Pattern): map<string, int> {
    if nodes == [] then map[]
    else AddUsed(CapacityWeights(nodes[..|nodes| - 1], matches), NodeName(nodes[|nodes| - 1]),
        nodes[|nodes| - 1].pools, matches)
  }

  /** Its inner loop. */
  method AddPools(before: map<string, int>, name: string, pools: seq<Pool>, matches: Pattern)
    returns (weights: map<string, int>)
    ensures weights == AddUsed(before, name, pools, matches)
  {
    weights := before;
    for j := 0 to |pools|
      invariant weights == AddUsed(before, name, pools[..j], matches)
    {
      assert pools[..j + 1][..j] == pools[..j];
      if matches(pools[j].name) {
        weights := weights[name := Wrap((if name in weights then weights[name] else 0) + pools[j].used)];
      }
    }
    assert pools[..|pools|] == pools;
  }

  method CapacityWeightedMap(nodes: seq<Node>, matches: Pattern) returns (weights: map<string, int>)
    ensures weights == CapacityWeights(nodes, matches)
  {
    weights := map[];
    for i := 0 to |nodes|
      invariant weights == CapacityWeights(nodes[..i], matches)
    {
      assert nodes[..i + 1][..i] == nodes[..i];
      var name := K8sNodeName(nodes[i]);
      weights := AddPools(weights, name, nodes[i].pools, matches);
    }
    assert nodes[..|nodes|] == nodes;
  }

  ghost function UsedSum(pools: seq<Pool>, matches: Pattern): int { Total(Select(PoolWeights(false, pools), matches)) }

  lemma NoPools(matches: Pattern)
    ensures UsedSum([], matches) == 0
  {
    assert Select(map[], matches) == map[];
  }

  /** One more matching pool adds its use. */
  lemma OnePool(pools: seq<Pool>, matches: Pattern)
    requires pools != [] && UniqueNames(pools)
    ensures var init, pool := pools[..|pools| - 1], pools[|pools| - 1];
            UsedSum(pools, matches) == UsedSum(init, matches) + (if matches(pool.name) then pool.used else 0)
  {
    var init, pool := pools[..|pools| - 1], pools[|pools| - 1];
    Unnamed(init, pool.name);
    SelectUpdate(PoolWeights(false, init), matches, pool.name, pool.used);
  }

  lemma WrapOnce(accumulated: int, before: int, sum: int, used: int)
    requires accumulated == Wrap(before + sum)
    ensures Wrap(accumulated + used) == Wrap(before + (sum + used))
  {
    WrapSum(before + sum, used);
    assert before + sum + used == before + (sum + used);
  }

  /** What the inner loop does to the node's own entry. */
  function Accumulated(before: int, pools: seq<Pool>, matches: Pattern): int {
    if pools == [] then before
    else
      var init, pool := Accumulated(before, pools[..|pools| - 1], matches), pools[|pools| - 1];
      if matches(pool.name) then Wrap(init + pool.used) else init
  }

  lemma {:induction false} AccumulatedIsSum(before: int, pools: seq<Pool>, matches: Pattern)
    requires UniqueNames(pools) && Wrap(before) == before
    ensures Accumulated(before, pools, matches) == Wrap(before + UsedSum(pools, matches))
  {
    if pools == [] {
      NoPools(matches);
    } else {
      var init, pool := pools[..|pools| - 1], pools[|pools| - 1];
      AccumulatedIsSum(before, init, matches);
      OnePool(pools, matches);
      if matches(pool.name) {
        WrapOnce(Accumulated(before, init, matches), before, UsedSum(init, matches), pool.used);
      }
    }
  }

  lemma {:induction false} AddUsedIs(weights: map<string, int>, name: string, pools: seq<Pool>, matches: Pattern)
    ensures var r := AddUsed(weights, name, pools, matches);
            && ValueOf(r, name) == Accumulated(ValueOf(weights, name), pools, matches)
            && (name in r <==> name in weights || !NoMatch(pools, matches))
  {
    if pools != [] {
      var init, pool := pools[..|pools| - 1], pools[|pools| - 1];
      AddUsedIs(weights, name, init, matches);
      assert NoMatch(pools, matches) <==> NoMatch(init, matches) && !matches(pool.name) by {
        assert forall i :: 0 <= i < |init| ==> init[i] == pools[i];
      }
    }
  }

  lemma {:induction false} Unnamed(pools: seq<Pool>, name: string)
    requires forall i :: 0 <= i < |pools| ==> pools[i].name != name
    ensures name !in PoolWeights(false, pools)
  {
    if pools != [] {
      assert pools[|pools| - 1].name != name;
      Unnamed(pools[..|pools| - 1], name);
    }
  }

  lemma {:induction false} Untouched(nodes: seq<Node>, matches: Pattern, name: string)
    requires forall k :: 0 <= k < |nodes| ==> NodeName(nodes[k]) != name
    ensures name !in CapacityWeights(nodes, matches)
  {
    if nodes != [] {
      var init, last := nodes[..|nodes| - 1], nodes[|nodes| - 1];
      assert NodeName(nodes[|nodes| - 1]) != name;
      Untouched(init, matches, name);
      Elsewhere(CapacityWeights(init, matches), NodeName(last), last.pools, matches, name);
    }
  }

  /**
   * A node's capacity weight is the 64-bit sum of its pool weights over the matching pools, which is
   * the sum itself as long as that fits; and it has an entry, be it zero, exactly when a pool matches.
   */
  lemma {:induction false} CapacityWeightIsPoolSum(nodes: seq<Node>, matches: Pattern, i: nat)
    requires DistinctNodes(nodes) && i < |nodes| && forall k :: 0 <= k < |nodes| ==> UniqueNames(nodes[k].pools)
    ensures var weight, sum := ValueOf(CapacityWeights(nodes, matches), NodeName(nodes[i])),
        UsedSum(nodes[i].pools, matches);
            weight == Wrap(sum) && (weight == sum <==> Int64(sum))
    ensures NodeName(nodes[i]) in CapacityWeights(nodes, matches) <==> !NoMatch(nodes[i].pools, matches)
  {
    var init, last := nodes[..|nodes| - 1], nodes[|nodes| - 1];
    assert UniqueNames(nodes[|nodes| - 1].pools);
    WrapIsInt64(UsedSum(nodes[i].pools, matches));
    WrapIsInt64(0);
    if i < |nodes| - 1 {
      assert init[i] == nodes[i];
      CapacityWeightIsPoolSum(init, matches, i);
      Elsewhere(CapacityWeights(init, matches), NodeName(last), last.pools, matches, NodeName(nodes[i]));
    } else {
      Untouched(init, matches, NodeName(last));
      AddUsedIs(CapacityWeights(init, matches), NodeName(last), last.pools, matches);
      AccumulatedIsSum(0, last.pools, matches);
    }
  }

  lemma {:induction false} Elsewhere(weights: map<string, int>, name: string, pools: seq<Pool>, matches: Pattern,
                                     k: string)
    requires k != name
    ensures (k in AddUsed(weights, name, pools, matches) <==> k in weights)
    ensures ValueOf(AddUsed(weights, name, pools, matches), k) == ValueOf(weights, k)
  {
    if pools != [] { Elsewhere(weights, name, pools[..|pools| - 1], matches, k); }
  }
}
