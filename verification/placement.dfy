/** The storage nodes an engine knows, and which of them get the shards of an object. */
module NodePlacement {
  import opened Names
  import opened Metadata
  import opened Order
  import Multipart

  datatype Node = Node(id: string, address: string)

  /** Both kinds of node trim their names when they are made. */
  predicate Tidy(n: Node) {
    Trim(n.id) == n.id
  }

  datatype Planner = NoPlanner | Single(node: Node) | RoundRobin(local: string, nodes: seq<Node>)

  function Ids(ns: seq<Node>): seq<string> {
    seq(|ns|, i requires 0 <= i < |ns| => ns[i].id)
  }

  function PlannerFor(local: string, ns: seq<Node>): Planner {
    if |ns| == 0 then NoPlanner else if |ns| == 1 then Single(ns[0]) else RoundRobin(local, ns)
  }

  /** The registered nodes that are not drained, sorted by name. */
  predicate ActiveList(nodes: map<string, Node>, drained: set<string>, ns: seq<Node>) {
    && NamesSorted(Ids(ns))
    && (forall i | 0 <= i < |ns| :: ns[i].id in nodes && ns[i].id !in drained && ns[i] == nodes[ns[i].id])
    && (forall id <- nodes :: id !in drained ==> id in Ids(ns))
  }

  // --- plans ---

  function NodeAt(ns: seq<Node>, i: nat): Node
    requires ns != []
  {
    ns[i % |ns|]
  }

  /** Shard after shard to node after node. */
  function RoundRobinPlan(local: string, ns: seq<Node>, count: nat): seq<Placement>
    requires ns != []
  {
    seq(count, i requires 0 <= i < count => var n := NodeAt(ns, i); Placement(i, Trim(n.id), Trim(n.address), n.id != "" && Trim(n.id) == local))
  }

  function SinglePlan(n: Node, count: nat): seq<Placement> {
    seq(count, i requires 0 <= i < count => Placement(i, n.id, n.address, true))
  }

  function Holders(plan: seq<Placement>): seq<string> {
    seq(|plan|, i requires 0 <= i < |plan| => plan[i].nodeId)
  }

  /** How many shards of a plan a node holds. */
  function Load(plan: seq<Placement>, id: string): nat {
    multiset(Holders(plan))[id]
  }

  /** The names a round-robin plan goes through. */
  function Cycle(ids: seq<string>, count: nat): seq<string>
    requires ids != []
  {
    seq(count, i requires 0 <= i < count => ids[i % |ids|])
  }

  lemma {:induction false} SortedOnce(ids: seq<string>, id: string)
    requires NamesSorted(ids)
    ensures multiset(ids)[id] == if id in ids then 1 else 0
  {
    if ids != [] {
      var rest := ids[1..];
      assert ids == [ids[0]] + rest;
      SortedOnce(rest, id);
      if id == ids[0] && id in rest {
        var j :| 0 <= j < |rest| && rest[j] == id;
        assert Less(ids[0], ids[j + 1]);
        LessTotal(id, id);
      }
    }
  }

  lemma StepBack(i: nat, n: nat)
    requires n >= 1
    ensures (i + n) % n == i % n && (i + n) / n == i / n + 1
  {
    assert i == n * (i / n) + i % n;
    assert n * (i / n + 1) == n * (i / n) + n;
    DivModUnique(i + n, n, i / n + 1, i % n);
  }

  lemma {:induction false} MulGap(n: nat, a: nat, b: nat)
    requires a < b
    ensures n * a + n <= n * b
    decreases b
  {
    var c := b - 1;
    assert n * b == n * c + n;
    if a < c {
      MulGap(n, a, c);
    }
  }

  lemma DivModUnique(x: nat, n: nat, q: nat, r: nat)
    requires n >= 1 && r < n && x == n * q + r
    ensures x / n == q && x % n == r
  {
    var q', r' := x / n, x % n;
    DivModIs(x, n);
    if q < q' {
      MulGap(n, q, q');
    } else if q' < q {
      MulGap(n, q', q);
    }
  }

  lemma DivModIs(x: nat, n: nat)
    requires n >= 1
    ensures x == n * (x / n) + x % n && x % n < n
  {
  }

  lemma CycleStart(ids: seq<string>, count: nat, i: nat)
    requires ids != [] && i < count && i < |ids|
    ensures Cycle(ids, count)[i] == ids[i]
  {
    DivModUnique(i, |ids|, 0, i);
  }

  lemma CycleRepeats(ids: seq<string>, count: nat, i: nat)
    requires ids != [] && |ids| + i < count
    ensures Cycle(ids, count)[|ids| + i] == Cycle(ids, count - |ids|)[i]
  {
    StepBack(i, |ids|);
  }

  lemma CycleShort(ids: seq<string>, count: nat)
    requires ids != [] && count <= |ids|
    ensures Cycle(ids, count) == ids[..count]
  {
    var c := Cycle(ids, count);
    forall i | 0 <= i < count
      ensures c[i] == ids[i]
    {
      CycleStart(ids, count, i);
    }
  }

  /** Once around gives every name once. */
  lemma CycleOnce(ids: seq<string>, count: nat)
    requires ids != [] && count >= |ids|
    ensures Cycle(ids, count) == ids + Cycle(ids, count - |ids|)
  {
    var n, c, d := |ids|, Cycle(ids, count), Cycle(ids, count - |ids|);
    var e := ids + d;
    forall i | 0 <= i < count
      ensures c[i] == e[i]
    {
      if i < n {
        CycleStart(ids, count, i);
      } else {
        CycleRepeats(ids, count, i - n);
      }
    }
  }

  /** A node's share of a round-robin plan: the quotient, and one more for the first few. */
  lemma {:induction false} CycleShare(ids: seq<string>, count: nat, j: nat)
    requires NamesSorted(ids) && j < |ids|
    ensures multiset(Cycle(ids, count))[ids[j]] == count / |ids| + (if j < count % |ids| then 1 else 0)
    decreases count
  {
    var n := |ids|;
    SortedOnce(ids, ids[j]);
    if count < n {
      CycleShort(ids, count);
      DivModUnique(count, n, 0, count);
      PrefixOnce(ids, count, j);
    } else {
      CycleOnce(ids, count);
      CycleShare(ids, count - n, j);
      StepBack(count - n, n);
    }
  }

  lemma {:induction false} PrefixOnce(ids: seq<string>, count: nat, j: nat)
    requires NamesSorted(ids) && j < |ids| && count <= |ids|
    ensures multiset(ids[..count])[ids[j]] == if j < count then 1 else 0
  {
    var p := ids[..count];
    SortedOnce(p, ids[j]);
    if j < count {
      assert p[j] == ids[j];
    } else if ids[j] in p {
      var i :| 0 <= i < count && p[i] == ids[j];
      assert Less(ids[i], ids[j]);
      LessTotal(ids[j], ids[j]);
    }
  }

  /** With at least (k + m) / m nodes no node's share is more than m. */
  lemma ShareBound(s: nat, m: nat, n: nat)
    requires n >= 1 && s <= n * m
    ensures s / n + (if s % n > 0 then 1 else 0) <= m
  {
    DivModIs(s, n);
    if s / n > m {
      MulGap(n, m, s / n);
    }
  }

  /** A plan names only active nodes, in index order, and spreads the shards evenly over them. */
  predicate Even(plan: seq<Placement>, active: set<string>) {
    && (forall i | 0 <= i < |plan| :: plan[i].index == i && plan[i].nodeId in active && plan[i].nodeId != "")
    && active != {}
    && forall id <- active :: |plan| / |active| <= Load(plan, id) <= |plan| / |active| + (if |plan| % |active| > 0 then 1 else 0)
  }

  lemma {:induction false} IdsDistinct(ns: seq<Node>, active: set<string>)
    requires NamesSorted(Ids(ns)) && forall id :: id in Ids(ns) <==> id in active
    ensures |ns| == |active|
  {
    if ns == [] {
      assert forall id :: id !in active;
    } else {
      var ids := Ids(ns);
      assert ids[0] in ids;
      var rest := ns[1..];
      assert Ids(rest) == ids[1..];
      assert ids == [ids[0]] + Ids(rest);
      LessTotal(ids[0], ids[0]);
      forall id
        ensures id in Ids(rest) <==> id in active - {ids[0]}
      {
        if id in Ids(rest) {
          var j :| 0 <= j < |Ids(rest)| && Ids(rest)[j] == id;
          assert Less(ids[0], ids[j + 1]);
        }
      }
      IdsDistinct(rest, active - {ids[0]});
    }
  }

  lemma {:induction false} RoundRobinEven(local: string, ns: seq<Node>, count: nat, active: set<string>)
    requires ns != [] && NamesSorted(Ids(ns)) && (forall id :: id in Ids(ns) <==> id in active)
    requires forall n <- ns :: Trim(n.id) == n.id != ""
    ensures Even(RoundRobinPlan(local, ns, count), active)
  {
    var plan, ids := RoundRobinPlan(local, ns, count), Ids(ns);
    IdsDistinct(ns, active);
    forall i | 0 <= i < count
      ensures plan[i].nodeId == ids[i % |ids|] && plan[i].nodeId in active && plan[i].nodeId != ""
    {
      var n := NodeAt(ns, i);
      assert n in ns && Trim(n.id) == n.id;
      assert ids[i % |ids|] in ids;
    }
    assert Holders(plan) == Cycle(ids, count);
    assert ids[0] in ids;
    forall id | id in active
      ensures count / |active| <= Load(plan, id) <= count / |active| + (if count % |active| > 0 then 1 else 0)
    {
      var j :| 0 <= j < |ids| && ids[j] == id;
      CycleShare(ids, count, j);
    }
  }

  lemma {:induction false} SingleEven(n: Node, count: nat)
    requires n.id != ""
    ensures Even(SinglePlan(n, count), {n.id})
  {
    var plan := SinglePlan(n, count);
    SingleLoad(n, count);
    DivModUnique(count, 1, count, 0);
  }

  lemma {:induction false} SingleLoad(n: Node, count: nat)
    ensures Load(SinglePlan(n, count), n.id) == count
  {
    if count > 0 {
      SingleLoad(n, count - 1);
      assert Holders(SinglePlan(n, count)) == Holders(SinglePlan(n, count - 1)) + [n.id];
    }
  }

  /** The nodes of some names, without the drained ones. */
  function Kept(nodes: map<string, Node>, drained: set<string>, names: seq<string>): seq<Node> {
    if names == [] then []
    else
      var name := names[|names| - 1];
      Kept(nodes, drained, names[..|names| - 1]) + (if name in nodes && name !in drained then [nodes[name]] else [])
  }

  lemma {:induction false} KeptOnly(nodes: map<string, Node>, drained: set<string>, names: seq<string>)
    requires forall id <- nodes :: nodes[id].id == id
    ensures forall n <- Kept(nodes, drained, names) :: n.id in names && n.id in nodes && n.id !in drained && n == nodes[n.id]
  {
    if names != [] {
      var k := |names| - 1;
      KeptOnly(nodes, drained, names[..k]);
      assert names == names[..k] + [names[k]];
    }
  }

  lemma {:induction false} KeptSorted(nodes: map<string, Node>, drained: set<string>, names: seq<string>)
    requires NamesSorted(names) && forall id <- nodes :: nodes[id].id == id
    ensures NamesSorted(Ids(Kept(nodes, drained, names)))
  {
    if names != [] {
      var k := |names| - 1;
      var name, before := names[k], Kept(nodes, drained, names[..k]);
      KeptSorted(nodes, drained, names[..k]);
      KeptOnly(nodes, drained, names[..k]);
      if name in nodes && name !in drained {
        assert Kept(nodes, drained, names) == before + [nodes[name]];
        assert Ids(before + [nodes[name]]) == Ids(before) + [name];
        forall j | 0 <= j < |before|
          ensures Less(Ids(before)[j], name)
        {
          assert before[j] in before;
          var x :| 0 <= x < k && names[..k][x] == before[j].id;
          assert names[x] == before[j].id;
        }
      } else {
        assert Kept(nodes, drained, names) == before;
      }
    }
  }

  lemma {:induction false} KeptAll(nodes: map<string, Node>, drained: set<string>, names: seq<string>, id: string)
    requires id in names && id in nodes && id !in drained && nodes[id].id == id
    ensures id in Ids(Kept(nodes, drained, names))
  {
    var k := |names| - 1;
    var name, before, all := names[k], Kept(nodes, drained, names[..k]), Kept(nodes, drained, names);
    if name == id {
      assert Ids(all)[|before|] == id;
    } else {
      assert names == names[..k] + [name];
      KeptAll(nodes, drained, names[..k], id);
      var j :| 0 <= j < |before| && Ids(before)[j] == id;
      assert Ids(all)[j] == id;
    }
  }

  lemma {:induction false} KeptIsActive(nodes: map<string, Node>, drained: set<string>, names: seq<string>)
    requires NamesSorted(names) && (forall id :: id in names <==> id in nodes) && forall id <- nodes :: nodes[id].id == id
    ensures ActiveList(nodes, drained, Kept(nodes, drained, names))
  {
    KeptSorted(nodes, drained, names);
    KeptOnly(nodes, drained, names);
    var ns := Kept(nodes, drained, names);
    assert forall i | 0 <= i < |ns| :: ns[i] in ns;
    forall id <- nodes | id !in drained
      ensures id in Ids(ns)
    {
      KeptAll(nodes, drained, names, id);
    }
  }

  // --- the registry ---

  datatype Answer = Done | Refused

  function RaftId(replica: nat): string {
    "raft-" + Multipart.Itoa(replica)
  }

  class Registry {
    var local: string
    var nodes: map<string, Node>
    var drained: set<string>
    var planner: Planner

    /** Drained nodes are registered, the local node is registered, nodes are filed under their own
        names, and the planner is the one for the active nodes. */
    ghost predicate Valid()
      reads this
    {
      && drained <= nodes.Keys && local in nodes
      && (forall id <- nodes :: nodes[id].id == id && Trim(id) == id != "")
      && exists ns: seq<Node> :: ActiveList(nodes, drained, ns) && planner == PlannerFor(local, ns)
    }

    ghost function Active(): set<string>
      reads this
    {
      nodes.Keys - drained
    }

    /** ConfigureLocalNode: start over with the local node alone. */
    constructor (id: string, address: string)
      ensures Valid() && drained == {} && local == (if Trim(id) == "" then "local" else Trim(id)) && nodes.Keys == {local}
    {
      var name := if Trim(id) == "" then "local" else Trim(id);
      local := name;
      nodes := map[name := Node(name, if Trim(address) == "" then "local" else Trim(address))];
      drained := {};
      planner := NoPlanner;
      new;
      TrimFixes(id);
      TrimFixes(Trim(id));
      assert Trimmed("local");
      TrimFixes("local");
      Reconfigure();
    }

    /** storageNodesLocked: every registered node, sorted by name. */
    method SortedNames() returns (names: seq<string>)
      ensures NamesSorted(names) && forall id :: id in names <==> id in nodes
    {
      names := [];
      var rest := nodes.Keys;
      while rest != {}
        invariant rest <= nodes.Keys && NamesSorted(names)
        invariant forall id :: id in names <==> id in nodes && id !in rest
        decreases |rest|
      {
        var id :| id in rest;
        InsertNameSorted(names, id);
        names := InsertName(names, id);
        rest := rest - {id};
      }
    }

    /** placementNodesLocked: of those, the ones that are not drained. */
    method PlacementNodes() returns (active: seq<Node>)
      requires forall id <- nodes :: nodes[id].id == id
      ensures ActiveList(nodes, drained, active)
    {
      var names := SortedNames();
      active := [];
      for i := 0 to |names|
        invariant active == Kept(nodes, drained, names[..i])
      {
        assert names[..i + 1][..i] == names[..i];
        assert names[i] in names;
        if names[i] !in drained {
          active := active + [nodes[names[i]]];
        }
      }
      assert names[..|names|] == names;
      KeptIsActive(nodes, drained, names);
    }

    method Reconfigure()
      requires drained <= nodes.Keys && local in nodes && forall id <- nodes :: nodes[id].id == id && Trim(id) == id != ""
      modifies this`planner
      ensures Valid()
    {
      var active := PlacementNodes();
      match |active| {
        case 0 => planner := NoPlanner;
        case 1 => planner := Single(active[0]);
        case _ => planner := RoundRobin(local, active);
      }
      assert planner == PlannerFor(local, active);
    }

    method Register(node: Node) returns (r: Answer)
      requires Valid() && Tidy(node)
      modifies this`nodes, this`drained, this`planner
      ensures Valid()
      ensures r == (if node.id == "" then Refused else Done)
      ensures nodes == (if r.Done? then old(nodes)[node.id := node] else old(nodes))
      ensures drained == (if r.Done? then old(drained) - {node.id} else old(drained))
    {
      if node.id == "" {
        return Refused;
      }
      nodes := nodes[node.id := node];
      drained := drained - {node.id};
      Reconfigure();
      return Done;
    }

    method Unregister(name: string) returns (r: Answer)
      requires Valid()
      modifies this`nodes, this`drained, this`planner
      ensures Valid()
      ensures r.Done? <==> Trim(name) != "" && Trim(name) != local && Trim(name) in old(nodes)
      ensures nodes == (if r.Done? then old(nodes) - {Trim(name)} else old(nodes))
      ensures drained == (if r.Done? then old(drained) - {Trim(name)} else old(drained))
    {
      var id := Trim(name);
      if id == "" || id == local || id !in nodes {
        return Refused;
      }
      nodes := nodes - {id};
      drained := drained - {id};
      Reconfigure();
      return Done;
    }

    method Drain(name: string) returns (r: Answer)
      requires Valid()
      modifies this`drained, this`planner
      ensures Valid()
      ensures r.Done? <==> Trim(name) in nodes
      ensures drained == (if r.Done? then old(drained) + {Trim(name)} else old(drained))
    {
      var id := Trim(name);
      if id == "" || id !in nodes {
        return Refused;
      }
      drained := drained + {id};
      Reconfigure();
      return Done;
    }

    method Resume(name: string) returns (r: Answer)
      requires Valid()
      modifies this`drained, this`planner
      ensures Valid()
      ensures r.Done? <==> Trim(name) in nodes
      ensures drained == (if r.Done? then old(drained) - {Trim(name)} else old(drained))
    {
      var id := Trim(name);
      if id == "" || id !in nodes {
        return Refused;
      }
      drained := drained - {id};
      Reconfigure();
      return Done;
    }

    /** SyncStorageNodesFromRaft: the nodes become the members of the Raft group, drained ones that
        are still members stay drained; a bad member refuses the whole sync and changes nothing. */
    method SyncFromRaft(localReplica: nat, members: map<nat, string>, accepts: string -> bool) returns (r: Answer)
      requires Valid()
      modifies this
      ensures Valid()
      ensures r.Done? <==> localReplica != 0 && Acceptable(members, members.Keys, accepts)
      ensures r.Done? ==>
        && local == RaftId(localReplica) && local in nodes
        && RemoteNodes(nodes - {local}, localReplica, members, members.Keys)
        && (localReplica in members ==> nodes[local] == MemberNode(localReplica, members[localReplica]))
        && drained == old(drained) * nodes.Keys
      ensures r.Refused? ==> local == old(local) && nodes == old(nodes) && drained == old(drained) && planner == old(planner)
    {
      if localReplica == 0 {
        return Refused;
      }
      var name := RaftId(localReplica);
      var known := if name in nodes then Trim(nodes[name].address) else "";
      var ok, next, localAddress := MembersToNodes(localReplica, members, accepts);
      if !ok {
        return Refused;
      }
      var address := if localAddress != "" then localAddress else if known != "" then known else "local";
      StartOver(localReplica, address, next, members);
      return Done;
    }

    /** The local node alone, then the remote ones, then the drained ones that are still there. */
    method StartOver(localReplica: nat, address: string, next: map<string, Node>, ghost members: map<nat, string>)
      requires Valid() && RemoteNodes(next, localReplica, members, members.Keys)
      modifies this
      ensures Valid() && local == RaftId(localReplica)
      ensures local in nodes && nodes[local] == Node(local, address) && nodes - {local} == next
      ensures drained == old(drained) * nodes.Keys
    {
      RaftIdTidy(localReplica);
      LocalNotRemote(next, localReplica, members);
      var wasDrained := drained;
      local := RaftId(localReplica);
      nodes := map[local := Node(local, address)] + next;
      assert nodes - {local} == next;
      drained := wasDrained * nodes.Keys;
      Reconfigure();
    }

    /** PlanShardPlacement: every plan is even over the active nodes; with none, or no shards to
        place, there is no plan. */
    method Plan(count: nat) returns (ok: bool, plan: seq<Placement>)
      requires Valid()
      ensures ok <==> count >= 1 && Active() != {}
      ensures ok ==> |plan| == count && Even(plan, Active())
    {
      ghost var ns: seq<Node> :| ActiveList(nodes, drained, ns) && planner == PlannerFor(local, ns);
      ActiveIds(nodes, drained, ns);
      if planner.NoPlanner? || count < 1 {
        assert planner.NoPlanner? ==> Ids(ns) == [];
        return false, [];
      }
      assert ns[0].id in Ids(ns) by { assert Ids(ns)[0] == ns[0].id; }
      if planner.Single? {
        plan := SinglePlan(planner.node, count);
        SingleEven(planner.node, count);
        assert Ids(ns) == [ns[0].id];
        assert Active() == {ns[0].id};
      } else {
        plan := RoundRobinPlan(planner.local, planner.nodes, count);
        RoundRobinEven(planner.local, planner.nodes, count, Active());
      }
      ok := true;
    }

    /** With enough active nodes, losing any one of them loses no more shards than the code can do
        without. */
    method PlanSurvivesOneLoss(k: nat, m: nat) returns (ok: bool, plan: seq<Placement>)
      requires Valid() && k >= 1 && |Active()| * m >= k + m
      ensures ok && |plan| == k + m && forall id :: Load(plan, id) <= m
    {
      assert |Active()| >= 1;
      ok, plan := Plan(k + m);
      EvenBound(plan, Active(), m);
    }
  }

  lemma {:induction false} EvenBound(plan: seq<Placement>, active: set<string>, m: nat)
    requires Even(plan, active) && |plan| <= |active| * m
    ensures forall id :: Load(plan, id) <= m
  {
    ShareBound(|plan|, m, |active|);
    forall id
      ensures Load(plan, id) <= m
    {
      if id !in active {
        assert id !in Holders(plan);
      }
    }
  }

  function RaftIds(members: set<nat>): set<string> {
    set m | m in members :: RaftId(m)
  }

  predicate Acceptable(members: map<nat, string>, which: set<nat>, accepts: string -> bool) {
    forall m <- which :: m in members && MemberOk(m, members[m], accepts)
  }

  predicate AllNamed(nodes: map<string, Node>) {
    forall id <- nodes :: nodes[id].id == id && Trim(id) == id != ""
  }

  function MemberNode(m: nat, target: string): Node {
    Node(RaftId(m), Trim(target))
  }

  /** A remote node for every member but the local one, and no other node. */
  predicate RemoteNodes(nodes: map<string, Node>, localReplica: nat, members: map<nat, string>, which: set<nat>)
    requires which <= members.Keys
  {
    && (forall m <- which :: m != localReplica ==> RaftId(m) in nodes && nodes[RaftId(m)] == MemberNode(m, members[m]))
    && nodes.Keys == RaftIds(which - {localReplica})
    && AllNamed(nodes)
  }

  lemma {:induction false} ItoaInjective(a: nat, b: nat)
    requires Multipart.Itoa(a) == Multipart.Itoa(b)
    ensures a == b
  {
    var s, t := Multipart.Itoa(a), Multipart.Itoa(b);
    assert s[|s| - 1] == t[|t| - 1] && s[..|s| - 1] == t[..|t| - 1];
    if a >= 10 && b >= 10 {
      assert s[..|s| - 1] == Multipart.Itoa(a / 10) && t[..|t| - 1] == Multipart.Itoa(b / 10);
      ItoaInjective(a / 10, b / 10);
    } else if a >= 10 {
      assert s[..|s| - 1] == Multipart.Itoa(a / 10);
      ItoaEnds(a / 10);
    } else if b >= 10 {
      assert t[..|t| - 1] == Multipart.Itoa(b / 10);
      ItoaEnds(b / 10);
    }
  }

  lemma RaftIdInjective(a: nat, b: nat)
    requires RaftId(a) == RaftId(b)
    ensures a == b
  {
    assert RaftId(a)[5..] == Multipart.Itoa(a) && RaftId(b)[5..] == Multipart.Itoa(b);
    ItoaInjective(a, b);
  }

  lemma RemoteAdd(nodes: map<string, Node>, localReplica: nat, members: map<nat, string>, which: set<nat>, m: nat)
    requires which <= members.Keys && m in members && m !in which && m != localReplica
    requires RemoteNodes(nodes, localReplica, members, which)
    ensures RemoteNodes(nodes[RaftId(m) := MemberNode(m, members[m])], localReplica, members, which + {m})
  {
    var id, all := RaftId(m), which + {m} - {localReplica};
    var next := nodes[id := MemberNode(m, members[m])];
    RaftIdTidy(m);
    forall x | x in which && x != localReplica
      ensures RaftId(x) in next && next[RaftId(x)] == MemberNode(x, members[x])
    {
      if RaftId(x) == id {
        RaftIdInjective(x, m);
      }
    }
    assert all == which - {localReplica} + {m};
    forall name
      ensures name in RaftIds(all) <==> name in RaftIds(which - {localReplica}) || name == id
    {
      assert m in all;
    }
  }

  lemma LocalNotRemote(nodes: map<string, Node>, localReplica: nat, members: map<nat, string>)
    requires RemoteNodes(nodes, localReplica, members, members.Keys)
    ensures RaftId(localReplica) !in nodes
  {
    if RaftId(localReplica) in nodes {
      var x :| x in members.Keys - {localReplica} && RaftId(x) == RaftId(localReplica);
      RaftIdInjective(x, localReplica);
    }
  }

  lemma RemoteSkip(nodes: map<string, Node>, localReplica: nat, members: map<nat, string>, which: set<nat>, node: Node)
    requires which <= members.Keys && localReplica in members
    requires RemoteNodes(nodes, localReplica, members, which)
    ensures RemoteNodes(nodes[RaftId(localReplica) := node] - {RaftId(localReplica)}, localReplica, members, which + {localReplica})
  {
    var id := RaftId(localReplica);
    if id in nodes {
      var x :| x in which - {localReplica} && RaftId(x) == id;
      RaftIdInjective(x, localReplica);
    }
    assert nodes[id := node] - {id} == nodes;
    assert which + {localReplica} - {localReplica} == which - {localReplica};
  }

  predicate MemberOk(m: nat, target: string, accepts: string -> bool) {
    m != 0 && Trim(target) != "" && accepts(Trim(target))
  }

  /** One turn of the loop: a node for the member, taken away again if it is the local one. */
  function WithMember(nodes: map<string, Node>, localReplica: nat, m: nat, target: string): map<string, Node> {
    var next := nodes[RaftId(m) := MemberNode(m, target)];
    if m == localReplica then next - {RaftId(m)} else next
  }

  lemma RemoteStep(nodes: map<string, Node>, localReplica: nat, members: map<nat, string>, which: set<nat>, m: nat)
    requires which <= members.Keys && m in members && m !in which
    requires RemoteNodes(nodes, localReplica, members, which)
    ensures RemoteNodes(WithMember(nodes, localReplica, m, members[m]), localReplica, members, which + {m})
  {
    if m == localReplica {
      RemoteSkip(nodes, localReplica, members, which, MemberNode(m, members[m]));
    } else {
      RemoteAdd(nodes, localReplica, members, which, m);
    }
  }

  lemma AcceptableGrows(members: map<nat, string>, which: set<nat>, m: nat, accepts: string -> bool)
    requires Acceptable(members, which, accepts) && m in members && MemberOk(m, members[m], accepts)
    ensures Acceptable(members, which + {m}, accepts)
  {
  }

  function AddressIn(localReplica: nat, members: map<nat, string>, which: set<nat>): string
    requires which <= members.Keys
  {
    if localReplica in which then Trim(members[localReplica]) else ""
  }

  /** syncRaftStorageNodes: the remote nodes, and the local member's address. */
  method MembersToNodes(localReplica: nat, members: map<nat, string>, accepts: string -> bool) returns (ok: bool, next: map<string, Node>, address: string)
    ensures ok <==> Acceptable(members, members.Keys, accepts)
    ensures ok ==> RemoteNodes(next, localReplica, members, members.Keys)
    ensures ok ==> address == AddressIn(localReplica, members, members.Keys)
  {
    next, address := map[], "";
    var rest := members.Keys;
    ghost var done: set<nat> := {};
    while rest != {}
      invariant rest <= members.Keys && done == members.Keys - rest && Acceptable(members, done, accepts)
      invariant RemoteNodes(next, localReplica, members, done)
      invariant address == AddressIn(localReplica, members, done)
      decreases |rest|
    {
      var m :| m in rest;
      if !MemberOk(m, members[m], accepts) {
        return false, map[], "";
      }
      AcceptableGrows(members, done, m, accepts);
      RemoteStep(next, localReplica, members, done, m);
      next := WithMember(next, localReplica, m, members[m]);
      if m == localReplica {
        address := Trim(members[m]);
      }
      rest := rest - {m};
      done := done + {m};
    }
    assert done == members.Keys;
    ok := true;
  }

  lemma {:induction false} ActiveIds(nodes: map<string, Node>, drained: set<string>, ns: seq<Node>)
    requires ActiveList(nodes, drained, ns) && (forall id <- nodes :: nodes[id].id == id && Trim(id) == id != "")
    ensures forall id :: id in Ids(ns) <==> id in nodes.Keys - drained
    ensures forall n <- ns :: Trim(n.id) == n.id != ""
  {
    forall id | id in Ids(ns)
      ensures id in nodes.Keys - drained
    {
      var j :| 0 <= j < |ns| && Ids(ns)[j] == id;
    }
  }

  lemma {:induction false} RaftIdTidy(m: nat)
    ensures Trim(RaftId(m)) == RaftId(m) != ""
  {
    ItoaEnds(m);
    var s := RaftId(m);
    assert s[0] == 'r' && s[|s| - 1] == Multipart.Itoa(m)[|Multipart.Itoa(m)| - 1];
    TrimFixes(s);
  }

  lemma ItoaEnds(n: nat)
    ensures var s := Multipart.Itoa(n); s != "" && !IsSpace(s[|s| - 1])
  {
  }
}
