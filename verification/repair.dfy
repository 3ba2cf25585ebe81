/** Shards on nodes: reading them with their checksums, health, and repair. */
module Repair {
  import opened Names
  import opened Protocol
  import opened Erasure

  datatype ShardId = ShardId(dir: string, hash: string, index: nat)

  /** What each registered node stores. */
  type Nodes = map<string, map<ShardId, Bytes>>

  /** What reading a shard gives: its bytes, os.ErrNotExist, ErrShardCorrupted, or another error. */
  datatype Read = Got(data: Bytes) | Absent | Corrupted | Failed

  /** The parts of the engine that do not change while it repairs. */
  datatype Setup = Setup(local: string, addressOf: string -> string, code: Code, digest: Bytes -> string)

  function Total(s: Setup): nat {
    s.code.k + s.code.m
  }

  /** shardPlacement and storageNode: the node named by the layout, else the local one. */
  function Home(s: Setup, layout: Layout, i: nat): string {
    var ps := layout.extent.placements;
    if i < |ps| && Trim(ps[i].nodeId) != "" then Trim(ps[i].nodeId) else s.local
  }

  function IdOf(layout: Layout, i: nat): ShardId {
    ShardId(layout.extent.dir, layout.hash, i)
  }

  /** verifyShardChecksum: an index without a checksum passes. */
  predicate ChecksumOk(s: Setup, layout: Layout, i: nat, data: Bytes) {
    var cs := layout.extent.checksums;
    i < |cs| && Trim(cs[i]) != "" ==> s.digest(data) == Trim(cs[i])
  }

  function ReadShard(s: Setup, nodes: Nodes, layout: Layout, i: nat): Read {
    var home := Home(s, layout, i);
    if home !in nodes then Failed
    else if IdOf(layout, i) !in nodes[home] then Absent
    else
      var data := nodes[home][IdOf(layout, i)];
      if ChecksumOk(s, layout, i, data) then Got(data) else Corrupted
  }

  function WriteShard(s: Setup, nodes: Nodes, layout: Layout, i: nat, data: Bytes): Nodes
    requires Home(s, layout, i) in nodes
  {
    var home := Home(s, layout, i);
    nodes[home := nodes[home][IdOf(layout, i) := data]]
  }

  // --- counting ---

  /** Which of the first n shards can be read. */
  function Readable(s: Setup, nodes: Nodes, layout: Layout, n: nat): seq<bool> {
    seq(n, i requires 0 <= i < n => ReadShard(s, nodes, layout, i).Got?)
  }

  function Trues(b: seq<bool>): nat {
    if b == [] then 0 else Trues(b[..|b| - 1]) + (if b[|b| - 1] then 1 else 0)
  }

  predicate InRange(indexes: seq<nat>, n: nat) {
    forall k | 0 <= k < |indexes| :: indexes[k] < n
  }

  /** The indexes that cannot be read, in ascending order. */
  function Falses(b: seq<bool>): (r: seq<nat>)
    ensures InRange(r, |b|)
  {
    if b == [] then [] else Falses(b[..|b| - 1]) + (if b[|b| - 1] then [] else [|b| - 1])
  }

  lemma {:induction false} FalsesAre(b: seq<bool>)
    ensures forall i | 0 <= i < |b| :: (i in Falses(b) <==> !b[i])
    ensures forall i, j | 0 <= i < j < |Falses(b)| :: Falses(b)[i] < Falses(b)[j]
    ensures |Falses(b)| + Trues(b) == |b|
  {
    if b != [] {
      var c := b[..|b| - 1];
      FalsesAre(c);
      forall i | 0 <= i < |b|
        ensures i in Falses(b) <==> !b[i]
      {
        assert i < |c| ==> b[i] == c[i];
        if i == |b| - 1 {
          assert i !in Falses(c);
        }
      }
    }
  }

  datatype Health = Health(total: nat, available: nat, missing: nat, corrupted: nat, recoverable: bool)

  /** healthFromLayout: an unreadable shard is corrupted or, for any other reason, missing. */
  method HealthOf(s: Setup, nodes: Nodes, layout: Layout) returns (h: Health)
    ensures h.total == Total(s) == h.available + h.missing + h.corrupted
    ensures h.available == Trues(Readable(s, nodes, layout, Total(s)))
    ensures h.recoverable <==> h.available >= s.code.k
    ensures h.corrupted > 0 <==> AnyCorrupted(s, nodes, layout, Total(s))
  {
    var available, missing, corrupted := 0, 0, 0;
    for i := 0 to Total(s)
      invariant available + missing + corrupted == i
      invariant available == Trues(Readable(s, nodes, layout, i))
      invariant corrupted > 0 <==> AnyCorrupted(s, nodes, layout, i)
    {
      ReadableGrows(s, nodes, layout, i);
      AnyGrows(s, nodes, layout, i);
      match ReadShard(s, nodes, layout, i) {
        case Corrupted => corrupted := corrupted + 1;
        case Absent => missing := missing + 1;
        case Failed => missing := missing + 1;
        case Got(_) => available := available + 1;
      }
    }
    h := Health(Total(s), available, missing, corrupted, available >= s.code.k);
  }

  predicate AnyCorrupted(s: Setup, nodes: Nodes, layout: Layout, n: nat) {
    exists i | 0 <= i < n :: ReadShard(s, nodes, layout, i).Corrupted?
  }

  lemma AnyGrows(s: Setup, nodes: Nodes, layout: Layout, n: nat)
    ensures AnyCorrupted(s, nodes, layout, n + 1) <==> AnyCorrupted(s, nodes, layout, n) || ReadShard(s, nodes, layout, n).Corrupted?
  {
  }

  lemma {:induction false} ReadableGrows(s: Setup, nodes: Nodes, layout: Layout, i: nat)
    ensures Readable(s, nodes, layout, i + 1) == Readable(s, nodes, layout, i) + [ReadShard(s, nodes, layout, i).Got?]
    ensures Trues(Readable(s, nodes, layout, i + 1)) == Trues(Readable(s, nodes, layout, i)) + (if ReadShard(s, nodes, layout, i).Got? then 1 else 0)
    ensures Falses(Readable(s, nodes, layout, i + 1)) == Falses(Readable(s, nodes, layout, i)) + (if ReadShard(s, nodes, layout, i).Got? then [] else [i])
  {
    var b := Readable(s, nodes, layout, i + 1);
    assert b[..i] == Readable(s, nodes, layout, i);
  }

  /** What the readable shards amount to for the code: the others are empty. */
  function Survivors(s: Setup, nodes: Nodes, layout: Layout, n: nat): seq<Bytes> {
    seq(n, i requires 0 <= i < n => var r := ReadShard(s, nodes, layout, i); if r.Got? then r.data else [])
  }

  lemma SurvivorsGrow(s: Setup, nodes: Nodes, layout: Layout, i: nat)
    ensures Survivors(s, nodes, layout, i + 1) == Survivors(s, nodes, layout, i) + [if ReadShard(s, nodes, layout, i).Got? then ReadShard(s, nodes, layout, i).data else []]
  {
  }

  /** Every node a layout names is registered and answers. */
  predicate AllAnswer(s: Setup, nodes: Nodes, layout: Layout) {
    forall i | 0 <= i < Total(s) :: Home(s, layout, i) in nodes
  }

  /** readRepairShards: any error other than a missing or corrupted shard ends the repair. */
  method ReadRepairShards(s: Setup, nodes: Nodes, layout: Layout) returns (ok: bool, shards: seq<Bytes>, missing: seq<nat>)
    ensures ok <==> AllAnswer(s, nodes, layout)
    ensures ok ==> shards == Survivors(s, nodes, layout, Total(s)) && missing == Falses(Readable(s, nodes, layout, Total(s)))
  {
    shards, missing := [], [];
    for i := 0 to Total(s)
      invariant shards == Survivors(s, nodes, layout, i)
      invariant missing == Falses(Readable(s, nodes, layout, i))
      invariant forall j | 0 <= j < i :: Home(s, layout, j) in nodes
    {
      ReadableGrows(s, nodes, layout, i);
      SurvivorsGrow(s, nodes, layout, i);
      var r := ReadShard(s, nodes, layout, i);
      match r {
        case Failed => return false, [], [];
        case Got(data) => shards := shards + [data];
        case _ =>
          missing := missing + [i];
          shards := shards + [[]];
      }
    }
    ok := true;
  }

  // --- the object a layout stands for ---

  ghost predicate CollisionFree(digest: Bytes -> string) {
    forall a: Bytes, b: Bytes :: digest(a) == digest(b) ==> a == b
  }

  /** The layout describes the shards of this content: one checksum and one place for each. */
  predicate Describes(s: Setup, layout: Layout, data: Bytes)
    requires s.code.k >= 1
  {
    var w := Encoded(s.code, data);
    && data != [] && layout.extent.size == |data| && layout.hash == s.digest(data) && |w| == Total(s) == |layout.extent.checksums|
    && forall i | 0 <= i < Total(s) :: layout.extent.checksums[i] == s.digest(w[i]) && Trim(s.digest(w[i])) == s.digest(w[i]) != ""
  }

  ghost predicate Usable(s: Setup, layout: Layout, data: Bytes) {
    Sound(s.code) && CollisionFree(s.digest) && Describes(s, layout, data)
  }

  /** A shard that passes its checksum is the right one. */
  lemma {:induction false} GotIsRight(s: Setup, nodes: Nodes, layout: Layout, data: Bytes, i: nat)
    requires Usable(s, layout, data) && i < Total(s) && ReadShard(s, nodes, layout, i).Got?
    ensures ReadShard(s, nodes, layout, i).data == Encoded(s.code, data)[i]
  {
  }

  lemma {:induction false} SurvivorsErased(s: Setup, nodes: Nodes, layout: Layout, data: Bytes)
    requires Usable(s, layout, data)
    ensures Erased(Encoded(s.code, data), Survivors(s, nodes, layout, Total(s)))
    ensures Present(Survivors(s, nodes, layout, Total(s))) == Trues(Readable(s, nodes, layout, Total(s)))
  {
    EncodedIsCodeword(s.code, data);
    var e := Survivors(s, nodes, layout, Total(s));
    forall i | 0 <= i < Total(s)
      ensures e[i] != [] <==> ReadShard(s, nodes, layout, i).Got?
      ensures e[i] == Encoded(s.code, data)[i] || e[i] == []
    {
      if ReadShard(s, nodes, layout, i).Got? {
        GotIsRight(s, nodes, layout, data, i);
      }
    }
    PresentCounts(e, Readable(s, nodes, layout, Total(s)));
  }

  lemma {:induction false} PresentCounts(e: seq<Bytes>, b: seq<bool>)
    requires |e| == |b| && forall i | 0 <= i < |e| :: e[i] != [] <==> b[i]
    ensures Present(e) == Trues(b)
  {
    if e != [] {
      var n := |e| - 1;
      PresentCounts(e[..n], b[..n]);
      PresentSnoc(e[..n], e[n]);
      assert e == e[..n] + [e[n]];
    }
  }

  lemma {:induction false} PresentSnoc(e: seq<Bytes>, x: Bytes)
    ensures Present(e + [x]) == Present(e) + (if x != [] then 1 else 0)
  {
    if e == [] {
      assert [x][1..] == [];
    } else {
      assert (e + [x])[1..] == e[1..] + [x];
      PresentSnoc(e[1..], x);
    }
  }

  /** Writing one shard changes nothing else. */
  lemma {:induction false} WriteReads(s: Setup, nodes: Nodes, layout: Layout, i: nat, data: Bytes, j: nat)
    requires Home(s, layout, i) in nodes
    ensures var after := WriteShard(s, nodes, layout, i, data);
      && after.Keys == nodes.Keys
      && ReadShard(s, after, layout, j) == (if i == j then (if ChecksumOk(s, layout, i, data) then Got(data) else Corrupted) else ReadShard(s, nodes, layout, j))
  {
  }

  /** The shards that repair wrote, on top of what was there. */
  function Written(s: Setup, nodes: Nodes, layout: Layout, shards: seq<Bytes>, missing: seq<nat>): Nodes
    requires AllAnswer(s, nodes, layout) && |shards| == Total(s) && InRange(missing, Total(s))
    ensures AllAnswer(s, Written(s, nodes, layout, shards, missing), layout)
  {
    if missing == [] then nodes
    else
      var rest := missing[..|missing| - 1];
      var last := missing[|missing| - 1];
      WriteShard(s, Written(s, nodes, layout, shards, rest), layout, last, shards[last])
  }

  lemma {:induction false} WrittenReads(s: Setup, nodes: Nodes, layout: Layout, shards: seq<Bytes>, missing: seq<nat>, j: nat)
    requires AllAnswer(s, nodes, layout) && |shards| == Total(s) && j < Total(s) && InRange(missing, Total(s))
    requires forall i | 0 <= i < Total(s) :: ChecksumOk(s, layout, i, shards[i])
    ensures ReadShard(s, Written(s, nodes, layout, shards, missing), layout, j) == if j in missing then Got(shards[j]) else ReadShard(s, nodes, layout, j)
  {
    if missing != [] {
      var rest, last := missing[..|missing| - 1], missing[|missing| - 1];
      assert missing == rest + [last];
      WrittenReads(s, nodes, layout, shards, rest, j);
      WriteReads(s, Written(s, nodes, layout, shards, rest), layout, last, shards[last], j);
    }
  }

  /** Nothing outside the shards repaired is touched. */
  lemma {:induction false} WrittenKeeps(s: Setup, nodes: Nodes, layout: Layout, shards: seq<Bytes>, missing: seq<nat>, node: string, id: ShardId)
    requires AllAnswer(s, nodes, layout) && |shards| == Total(s) && InRange(missing, Total(s))
    requires node in nodes && forall i <- missing :: Home(s, layout, i) != node || IdOf(layout, i) != id
    ensures var after := Written(s, nodes, layout, shards, missing);
      node in after && (id in after[node] <==> id in nodes[node]) && (id in nodes[node] ==> after[node][id] == nodes[node][id])
  {
    if missing != [] {
      var rest, last := missing[..|missing| - 1], missing[|missing| - 1];
      assert missing == rest + [last];
      WrittenKeeps(s, nodes, layout, shards, rest, node, id);
    }
  }

  datatype Outcome = Repaired(before: Health, after: Health, indexes: seq<nat>) | RecoveryFailed | ReadFailed

  class Cluster {
    var nodes: Nodes

    /** writeRepairedShards. */
    method WriteRepaired(s: Setup, layout: Layout, shards: seq<Bytes>, missing: seq<nat>) returns (ok: bool)
      requires AllAnswer(s, nodes, layout) && |shards| == Total(s) && InRange(missing, Total(s)) && forall i <- missing :: shards[i] != []
      modifies this
      ensures ok && nodes == Written(s, old(nodes), layout, shards, missing)
    {
      for k := 0 to |missing|
        invariant InRange(missing[..k], Total(s))
        invariant nodes == Written(s, old(nodes), layout, shards, missing[..k])
      {
        var index := missing[k];
        assert index in missing;
        if |shards[index]| == 0 && layout.extent.size > 0 {
          return false;
        }
        nodes := WriteShard(s, nodes, layout, index, shards[index]);
        assert missing[..k + 1] == missing[..k] + [index];
        assert missing[..k + 1][..k] == missing[..k];
      }
      assert missing[..|missing|] == missing;
      ok := true;
    }

    /** RepairObject: with at least k good shards and every node answering, exactly the bad ones are
        written, and afterwards every shard is there and right; otherwise nothing is written. */
    method RepairObject(s: Setup, layout: Layout, ghost data: Bytes) returns (r: Outcome)
      requires Usable(s, layout, data)
      modifies this
      ensures !old(AllAnswer(s, nodes, layout)) ==> !r.Repaired? && nodes == old(nodes)
      ensures old(AllAnswer(s, nodes, layout)) ==> var bad := Falses(old(Readable(s, nodes, layout, Total(s))));
        if |bad| <= s.code.m then
          && r.Repaired? && r.indexes == bad && r.after.available == Total(s)
          && nodes == Written(s, old(nodes), layout, Encoded(s.code, data), bad)
          && forall i | 0 <= i < Total(s) :: ReadShard(s, nodes, layout, i) == Got(Encoded(s.code, data)[i])
        else r == RecoveryFailed && nodes == old(nodes)
    {
      ghost var b := Readable(s, nodes, layout, Total(s));
      ghost var w := Encoded(s.code, data);
      FalsesAre(b);
      SurvivorsErased(s, nodes, layout, data);
      EncodedIsCodeword(s.code, data);
      var before := HealthOf(s, nodes, layout);
      if before.missing == 0 && before.corrupted == 0 {
        AllAnswered(s, nodes, layout);
        RepairedReads(s, nodes, layout, data);
        return Repaired(before, before, []);
      }
      if !before.recoverable {
        return RecoveryFailed;
      }
      var ok, shards, missing := ReadRepairShards(s, nodes, layout);
      if !ok {
        return ReadFailed;
      }
      var rebuilt := s.code.reconstruct(shards);
      assert rebuilt == Rebuilt(w);
      RepairedReads(s, nodes, layout, data);
      ghost var start := nodes;
      var wrote := WriteRepaired(s, layout, rebuilt.shards, missing);
      var after := HealthOf(s, nodes, layout);
      AllReadable(s, nodes, layout, w);
      r := Repaired(before, after, missing);
    }
  }

  lemma {:induction false} AllAnswered(s: Setup, nodes: Nodes, layout: Layout)
    requires Trues(Readable(s, nodes, layout, Total(s))) == Total(s)
    ensures AllAnswer(s, nodes, layout)
  {
    var b := Readable(s, nodes, layout, Total(s));
    FalsesAre(b);
    forall i | 0 <= i < Total(s)
      ensures Home(s, layout, i) in nodes
    {
      assert i !in Falses(b);
      assert b[i];
    }
  }

  /** With every bad index rewritten, every shard reads right. */
  lemma {:induction false} RepairedReads(s: Setup, nodes: Nodes, layout: Layout, data: Bytes)
    requires Usable(s, layout, data) && AllAnswer(s, nodes, layout)
    ensures var bad := Falses(Readable(s, nodes, layout, Total(s))); var w := Encoded(s.code, data);
      && (forall i <- bad :: w[i] != [])
      && forall j | 0 <= j < Total(s) :: ReadShard(s, Written(s, nodes, layout, w, bad), layout, j) == Got(w[j])
  {
    var b := Readable(s, nodes, layout, Total(s));
    var bad, w := Falses(b), Encoded(s.code, data);
    FalsesAre(b);
    EncodedIsCodeword(s.code, data);
    forall j | 0 <= j < Total(s)
      ensures ReadShard(s, Written(s, nodes, layout, w, bad), layout, j) == Got(w[j])
    {
      WrittenReads(s, nodes, layout, w, bad, j);
      if b[j] {
        GotIsRight(s, nodes, layout, data, j);
      }
    }
  }

  lemma {:induction false} AllReadable(s: Setup, nodes: Nodes, layout: Layout, w: seq<Bytes>)
    requires |w| == Total(s) && forall j | 0 <= j < Total(s) :: ReadShard(s, nodes, layout, j) == Got(w[j])
    ensures Trues(Readable(s, nodes, layout, Total(s))) == Total(s) && Falses(Readable(s, nodes, layout, Total(s))) == []
  {
    NoFalses(Readable(s, nodes, layout, Total(s)));
  }

  lemma {:induction false} NoFalses(b: seq<bool>)
    requires forall i | 0 <= i < |b| :: b[i]
    ensures Falses(b) == [] && Trues(b) == |b|
  {
    if b != [] { NoFalses(b[..|b| - 1]); }
  }

  /** A second repair finds nothing to do, and the object reads back whole. */
  method RepairTwice(c: Cluster, s: Setup, layout: Layout, ghost data: Bytes) returns (again: seq<nat>, content: Decoded)
    requires Usable(s, layout, data) && AllAnswer(s, c.nodes, layout) && |Falses(Readable(s, c.nodes, layout, Total(s)))| <= s.code.m
    modifies c
    ensures again == [] && content == Ok(data)
  {
    var first := c.RepairObject(s, layout, data);
    AllReadable(s, c.nodes, layout, Encoded(s.code, data));
    var second := c.RepairObject(s, layout, data);
    again := second.indexes;
    content := GetObject(s, c.nodes, layout, data);
  }

  /** GetObject: with at most m shards lost it returns exactly the object's bytes, else it fails. */
  method GetObject(s: Setup, nodes: Nodes, layout: Layout, ghost data: Bytes) returns (r: Decoded)
    requires Usable(s, layout, data)
    ensures r == if AllAnswer(s, nodes, layout) && |Falses(Readable(s, nodes, layout, Total(s)))| <= s.code.m then Ok(data) else Err
  {
    FalsesAre(Readable(s, nodes, layout, Total(s)));
    SurvivorsErased(s, nodes, layout, data);
    EncodedIsCodeword(s.code, data);
    EncodedJoins(s.code, data);
    var ok, shards, missing := ReadRepairShards(s, nodes, layout);
    if !ok || |shards| - |missing| < s.code.k {
      return Err;
    }
    SomePresent(shards);
    var decoded := Decode(s.code, shards, layout.extent.size);
    r := if decoded.Ok? && s.digest(decoded.data) == layout.hash then decoded else Err;
  }
}
