/** Moving the shards of one object off a node, step by step. */
module Rebalance {
  import opened Names
  import opened Metadata
  import opened Protocol
  import opened Repair

  /** Every shard the layout names is where it says and has the right bytes. */
  predicate WholeAt(s: Setup, nodes: Nodes, layout: Layout, w: seq<Bytes>) {
    |w| == Total(s) && forall i | 0 <= i < Total(s) :: ReadShard(s, nodes, layout, i) == Got(w[i])
  }

  /** Two layouts of one blob: they may only differ in where the shards are. */
  predicate OneBlob(a: Layout, b: Layout) {
    a.hash == b.hash && a.extent.dir == b.extent.dir && a.extent.checksums == b.extent.checksums
  }

  function Moved(layout: Layout, ps: seq<Placement>): Layout {
    layout.(extent := layout.extent.(placements := ps))
  }

  function PutOn(nodes: Nodes, node: string, id: ShardId, data: Bytes): Nodes
    requires node in nodes
  {
    nodes[node := nodes[node][id := data]]
  }

  function DropFrom(nodes: Nodes, node: string, id: ShardId): Nodes
    requires node in nodes
  {
    nodes[node := nodes[node] - {id}]
  }

  /** Another right copy of a shard, on whatever node, disturbs no layout of the blob. */
  lemma {:induction false} CopyKeepsWhole(s: Setup, nodes: Nodes, source: Layout, layout: Layout, w: seq<Bytes>, i: nat, node: string)
    requires WholeAt(s, nodes, source, w) && WholeAt(s, nodes, layout, w) && OneBlob(source, layout) && i < Total(s) && node in nodes
    ensures WholeAt(s, PutOn(nodes, node, IdOf(source, i), w[i]), layout, w)
  {
    var after := PutOn(nodes, node, IdOf(source, i), w[i]);
    forall j | 0 <= j < Total(s)
      ensures ReadShard(s, after, layout, j) == Got(w[j])
    {
      assert ReadShard(s, nodes, layout, j) == Got(w[j]);
    }
  }

  /** A layout may then name the copy instead. */
  lemma {:induction false} RenameKeepsWhole(s: Setup, nodes: Nodes, layout: Layout, w: seq<Bytes>, i: nat, p: Placement)
    requires WholeAt(s, nodes, layout, w) && i < Total(s) && i < |layout.extent.placements|
    requires Trim(p.nodeId) != "" && Trim(p.nodeId) in nodes && IdOf(layout, i) in nodes[Trim(p.nodeId)] && nodes[Trim(p.nodeId)][IdOf(layout, i)] == w[i]
    ensures WholeAt(s, nodes, Moved(layout, layout.extent.placements[i := p]), w)
  {
    var after := Moved(layout, layout.extent.placements[i := p]);
    forall j | 0 <= j < Total(s)
      ensures ReadShard(s, nodes, after, j) == Got(w[j])
    {
      assert ReadShard(s, nodes, layout, j) == Got(w[j]);
      assert ReadShard(s, nodes, layout, i) == Got(w[i]);
    }
  }

  /** One shard copied and renamed: the layouts in force stay whole, and so does the one in the making. */
  lemma {:induction false} MoveStep(s: Setup, nodes: Nodes, cached: Layout, stored: Layout, ps: seq<Placement>, w: seq<Bytes>, i: nat, p: Placement)
    requires WholeAt(s, nodes, cached, w) && WholeAt(s, nodes, stored, w) && WholeAt(s, nodes, Moved(cached, ps), w) && OneBlob(cached, stored)
    requires i < Total(s) && i < |ps| && Trim(p.nodeId) == p.nodeId != "" && p.nodeId in nodes
    ensures var after := PutOn(nodes, p.nodeId, IdOf(cached, i), w[i]);
      WholeAt(s, after, cached, w) && WholeAt(s, after, stored, w) && WholeAt(s, after, Moved(cached, ps[i := p]), w)
  {
    CopyKeepsWhole(s, nodes, cached, cached, w, i, p.nodeId);
    CopyKeepsWhole(s, nodes, cached, stored, w, i, p.nodeId);
    CopyKeepsWhole(s, nodes, cached, Moved(cached, ps), w, i, p.nodeId);
    RenameKeepsWhole(s, PutOn(nodes, p.nodeId, IdOf(cached, i), w[i]), Moved(cached, ps), w, i, p);
  }

  /** Dropping a copy that the layout does not name disturbs nothing. */
  lemma {:induction false} DropKeepsWhole(s: Setup, nodes: Nodes, layout: Layout, w: seq<Bytes>, i: nat, node: string)
    requires WholeAt(s, nodes, layout, w) && node in nodes && Home(s, layout, i) != node
    ensures WholeAt(s, DropFrom(nodes, node, IdOf(layout, i)), layout, w)
  {
    var after := DropFrom(nodes, node, IdOf(layout, i));
    forall j | 0 <= j < Total(s)
      ensures ReadShard(s, after, layout, j) == Got(w[j])
    {
      assert ReadShard(s, nodes, layout, j) == Got(w[j]);
    }
  }

  /** The nodes a shard may move to: active, registered, and not the one being emptied. */
  predicate Candidates(nodes: Nodes, from: string, candidates: seq<string>) {
    forall c <- candidates :: c in nodes && c != from && c != "" && Trim(c) == c
  }

  /** What may go wrong on the way: a write, the layout's own write, a deletion. */
  datatype Faults = Faults(copy: nat -> bool, persist: bool, remove: nat -> bool)

  function Target(s: Setup, candidates: seq<string>, i: nat): Placement
    requires candidates != []
  {
    var id := candidates[i % |candidates|];
    Placement(i, id, s.addressOf(id), id == s.local)
  }

  /** The placements with every shard of one node sent elsewhere, up to an index. */
  function Sent(s: Setup, ps: seq<Placement>, from: string, candidates: seq<string>, n: nat): (r: seq<Placement>)
    requires n <= |ps| && (candidates == [] ==> forall i | 0 <= i < n :: ps[i].nodeId != from)
    ensures |r| == |ps|
  {
    seq(|ps|, i requires 0 <= i < |ps| => if i < n && ps[i].nodeId == from then Target(s, candidates, i) else ps[i])
  }

  datatype Point = Point(nodes: Nodes, cached: Layout, stored: Layout)

  /** Whichever layout a reader goes by, the cached or the stored one, it finds every shard. */
  predicate InForce(s: Setup, p: Point, w: seq<Bytes>) {
    WholeAt(s, p.nodes, p.cached, w) && WholeAt(s, p.nodes, p.stored, w)
  }

  datatype Outcome = Rebalanced(moved: seq<nat>) | NoSource | NoTarget | MoveFailed | PersistFailed

  class Rebalancer {
    var nodes: Nodes
    var cached: Layout
    var stored: Layout
    /** Every state a reader could have seen. */
    ghost var trace: seq<Point>

    ghost predicate Safe(s: Setup, w: seq<Bytes>)
      reads this
    {
      && InForce(s, Point(nodes, cached, stored), w) && OneBlob(cached, stored)
      && forall p <- trace :: InForce(s, p, w)
    }

    constructor (nodes: Nodes, layout: Layout)
      ensures this.nodes == nodes && cached == stored == layout && trace == []
    {
      this.nodes, cached, stored, trace := nodes, layout, layout, [];
    }

    /** rebalanceLayoutPlacements: copy every shard of the node to its target. */
    method MoveShards(s: Setup, from: string, candidates: seq<string>, faults: Faults, ghost w: seq<Bytes>)
        returns (failure: Outcome, placements: seq<Placement>, moved: seq<nat>)
      requires Safe(s, w) && Candidates(nodes, from, candidates) && |cached.extent.placements| <= Total(s)
      modifies this`nodes, this`trace
      ensures Safe(s, w) && nodes.Keys == old(nodes).Keys
      ensures failure.Rebalanced? || failure.NoTarget? || failure.MoveFailed?
      ensures failure.NoTarget? ==> candidates == [] && exists p <- cached.extent.placements :: p.nodeId == from
      ensures failure.MoveFailed? ==> exists i | 0 <= i < |cached.extent.placements| :: cached.extent.placements[i].nodeId == from && !faults.copy(i)
      ensures failure.Rebalanced? ==>
        && (candidates == [] ==> forall p <- cached.extent.placements :: p.nodeId != from)
        && placements == Sent(s, cached.extent.placements, from, candidates, |cached.extent.placements|)
        && (forall i :: i in moved <==> 0 <= i < |placements| && cached.extent.placements[i].nodeId == from)
        && WholeAt(s, nodes, Moved(cached, placements), w)
    {
      var ps := cached.extent.placements;
      placements, moved := ps, [];
      assert Moved(cached, placements) == cached;
      for index := 0 to |ps|
        invariant Safe(s, w) && nodes.Keys == old(nodes).Keys
        invariant candidates == [] ==> forall i | 0 <= i < index :: ps[i].nodeId != from
        invariant placements == Sent(s, ps, from, candidates, index)
        invariant forall i :: i in moved <==> 0 <= i < index && ps[i].nodeId == from
        invariant WholeAt(s, nodes, Moved(cached, placements), w)
      {
        if placements[index].nodeId == from {
          assert ps[index] in ps && ps[index].nodeId == from;
          if candidates == [] {
            return NoTarget, [], [];
          }
          var target := Target(s, candidates, index);
          assert target.nodeId in candidates;
          var copied := MoveShard(s, index, target, faults, placements, w);
          if !copied {
            return MoveFailed, [], [];
          }
          moved := moved + [index];
          placements := placements[index := target];
        }
      }
      failure := Rebalanced(moved);
    }

    /** moveShard: read a shard and write it to its target. */
    method MoveShard(s: Setup, index: nat, target: Placement, faults: Faults, ghost ps: seq<Placement>, ghost w: seq<Bytes>) returns (ok: bool)
      requires Safe(s, w) && index < |ps| && index < Total(s) && WholeAt(s, nodes, Moved(cached, ps), w)
      requires target.nodeId in nodes && target.nodeId != "" && Trim(target.nodeId) == target.nodeId
      modifies this`nodes, this`trace
      ensures Safe(s, w) && nodes.Keys == old(nodes).Keys && WholeAt(s, nodes, Moved(cached, ps), w)
      ensures ok <==> faults.copy(index)
      ensures ok ==> WholeAt(s, nodes, Moved(cached, ps[index := target]), w)
    {
      var read := ReadShard(s, nodes, cached, index);
      if !read.Got? || !faults.copy(index) {
        return false;
      }
      MoveStep(s, nodes, cached, stored, ps, w, index, target);
      nodes := PutOn(nodes, target.nodeId, IdOf(cached, index), read.data);
      assert InForce(s, Point(nodes, cached, stored), w);
      trace := trace + [Point(nodes, cached, stored)];
      ok := true;
    }

    /** cleanupMovedShards: drop the old copies; what cannot be dropped is only reported. */
    method Cleanup(s: Setup, from: string, moved: seq<nat>, faults: Faults, ghost w: seq<Bytes>) returns (errors: nat)
      requires Safe(s, w) && from in nodes
      requires forall i <- moved :: Home(s, cached, i) != from && Home(s, stored, i) != from
      modifies this`nodes, this`trace
      ensures Safe(s, w) && nodes.Keys == old(nodes).Keys
      ensures errors == 0 ==> forall i <- moved :: IdOf(cached, i) !in nodes[from]
    {
      errors := 0;
      for k := 0 to |moved|
        invariant Safe(s, w) && nodes.Keys == old(nodes).Keys
        invariant errors == 0 ==> forall j | 0 <= j < k :: IdOf(cached, moved[j]) !in nodes[from]
      {
        assert moved[k] in moved;
        if faults.remove(moved[k]) {
          DropKeepsWhole(s, nodes, cached, w, moved[k], from);
          DropKeepsWhole(s, nodes, stored, w, moved[k], from);
          nodes := DropFrom(nodes, from, IdOf(cached, moved[k]));
          trace := trace + [Point(nodes, cached, stored)];
        } else {
          errors := errors + 1;
        }
      }
    }

    /** RebalanceObjectFromNode: at every moment both layouts in force name right copies; on success
        no placement names the node, the others are as they were, and the old copies are gone; a
        failure before the switch leaves both layouts as they were. */
    method RebalanceFrom(s: Setup, from: string, candidates: seq<string>, faults: Faults, ghost w: seq<Bytes>) returns (r: Outcome, errors: nat)
      requires Safe(s, w) && Candidates(nodes, from, candidates) && Trim(from) == from
      requires cached == stored && |cached.extent.placements| <= Total(s)
      modifies this
      ensures Safe(s, w)
      ensures r.NoSource? || r.NoTarget? || r.MoveFailed? ==> cached == old(cached) && stored == old(stored)
      ensures r.NoSource? <==> from == ""
      ensures r.NoTarget? ==> candidates == [] && exists p <- cached.extent.placements :: p.nodeId == from
      ensures r.MoveFailed? ==> exists i | 0 <= i < |cached.extent.placements| :: cached.extent.placements[i].nodeId == from && !faults.copy(i)
      ensures r.PersistFailed? ==> !faults.persist && stored == old(stored)
      ensures r.Rebalanced? ==>
        && cached == stored && |cached.extent.placements| == |old(cached).extent.placements|
        && (forall i | 0 <= i < |cached.extent.placements| ::
              if old(cached).extent.placements[i].nodeId == from then i in r.moved && cached.extent.placements[i].nodeId != from
              else cached.extent.placements[i] == old(cached).extent.placements[i])
        && (errors == 0 ==> forall i <- r.moved :: from in nodes && IdOf(cached, i) !in nodes[from])
    {
      errors := 0;
      if from == "" {
        return NoSource, 0;
      }
      var failure, placements, moved := MoveShards(s, from, candidates, faults, w);
      if !failure.Rebalanced? {
        return failure, 0;
      }
      ghost var before := cached;
      if moved == [] {
        NothingMoved(cached, moved, from);
        return Rebalanced([]), 0;
      }
      assert moved[0] in moved;
      SourceAnswers(s, nodes, cached, w, moved[0], from);
      cached := Moved(cached, placements);
      trace := trace + [Point(nodes, cached, stored)];
      if !faults.persist {
        return PersistFailed, 0;
      }
      stored := cached;
      trace := trace + [Point(nodes, cached, stored)];
      forall i | i in moved
        ensures Home(s, cached, i) != from
      {
        TargetElsewhere(s, before.extent.placements, from, candidates, i);
      }
      errors := Cleanup(s, from, moved, faults, w);
      r := Rebalanced(moved);
    }
  }

  lemma NothingMoved(layout: Layout, moved: seq<nat>, from: string)
    requires moved == [] && forall i :: i in moved <==> 0 <= i < |layout.extent.placements| && layout.extent.placements[i].nodeId == from
    ensures forall i | 0 <= i < |layout.extent.placements| :: layout.extent.placements[i].nodeId != from
  {
    forall i | 0 <= i < |layout.extent.placements|
      ensures layout.extent.placements[i].nodeId != from
    {
      assert i !in moved;
    }
  }

  lemma SourceAnswers(s: Setup, nodes: Nodes, layout: Layout, w: seq<Bytes>, i: nat, from: string)
    requires WholeAt(s, nodes, layout, w) && i < |layout.extent.placements| <= Total(s) && layout.extent.placements[i].nodeId == from
    requires Trim(from) == from != ""
    ensures from in nodes
  {
    assert ReadShard(s, nodes, layout, i) == Got(w[i]);
  }

  lemma TargetElsewhere(s: Setup, ps: seq<Placement>, from: string, candidates: seq<string>, i: nat)
    requires i < |ps| && ps[i].nodeId == from && candidates != [] && forall c <- candidates :: c != from && c != "" && Trim(c) == c
    ensures var p := Sent(s, ps, from, candidates, |ps|)[i]; Trim(p.nodeId) != from && Trim(p.nodeId) != ""
  {
    assert candidates[i % |candidates|] in candidates;
  }
}
