/** Whole requests, one at a time: the store as a map from locations to bytes, what a failed put
    leaves, and what survives a stop. */
module Requests {
  import opened Names
  import opened Metadata
  import opened Protocol
  import opened Conservation
  import opened Recovery
  import opened Crash
  import opened Healing
  import opened Solo

  // --- healthy stores and what they contain ---

  /** At rest, with a shard set for every reference and the right layout for every object. */
  ghost predicate Healthy(env: Env, w: World) {
    && AtRest(env, w) && LiveShards(env, w.meta.refs, w.shards) && TrimmedDirs(w)
    && forall l <- w.meta.objects :: Linked(w, l)
  }

  /** Store.GetObject: metadata, then layout, then shards, verified against both kinds of checksum. */
  function Get(env: Env, w: World, l: Loc): Option<Bytes> {
    if l !in w.meta.objects || l !in w.layouts then None
    else
      var y := w.layouts[l];
      var k := SetAt(y.extent.dir, y.hash);
      if k !in w.shards || w.shards[k].Partial? then None
      else
        var d := w.shards[k].data;
        if env.checksums(d) != y.extent.checksums || |d| != y.extent.size || env.digest(d) != y.hash then None else Some(d)
  }

  function Contents(env: Env, w: World): map<Loc, Bytes> {
    map l | l in w.meta.objects && Get(env, w, l).Some? :: Get(env, w, l).value
  }

  lemma {:induction false} LinkedReads(env: Env, w: World, l: Loc)
    requires l in w.meta.objects && Linked(w, l) && LiveShards(env, w.meta.refs, w.shards)
    ensures Get(env, w, l).Some? && env.digest(Get(env, w, l).value) == w.meta.objects[l].hash
  {
    var h := w.meta.objects[l].hash;
    assert Stored(env, w.shards, h, w.meta.refs[h].extent);
  }

  /** A new store is healthy and empty. */
  lemma {:induction false} NewIsHealthy(env: Env)
    ensures var w := World(EmptyMeta, map[], map[]); Healthy(env, w) && Contents(env, w) == map[]
  {
    var w := World(EmptyMeta, map[], map[]);
    forall h
      ensures Users(w.meta.objects, h) == {} && Count(w.meta.refs, h) == 0
    {
    }
  }

  /** In a healthy store every object can be read, and what is read has the object's hash. */
  lemma {:induction false} HealthyReads(env: Env, w: World, l: Loc)
    requires Healthy(env, w)
    ensures Get(env, w, l).Some? <==> l in w.meta.objects
    ensures l in w.meta.objects ==> env.digest(Get(env, w, l).value) == w.meta.objects[l].hash
  {
    if l in w.meta.objects {
      LinkedReads(env, w, l);
    }
  }

  lemma {:induction false} ReadsAs(env: Env, w: World, l: Loc, d: Bytes)
    requires CollisionFree(env) && Healthy(env, w) && l in w.meta.objects && env.digest(d) == w.meta.objects[l].hash
    ensures Get(env, w, l) == Some(d)
  {
    HealthyReads(env, w, l);
  }

  /** So the contents follow from the hashes in the metadata. */
  lemma {:induction false} ContentsByHash(env: Env, w: World, c: map<Loc, Bytes>)
    requires CollisionFree(env) && Healthy(env, w)
    requires Hashed(env, c, w.meta.objects)
    ensures Contents(env, w) == c
  {
    forall l | l in c
      ensures Get(env, w, l) == Some(c[l])
    {
      ReadsAs(env, w, l, c[l]);
    }
    ContentsAre(env, w, c);
  }

  lemma {:induction false} ContentsAre(env: Env, w: World, c: map<Loc, Bytes>)
    requires c.Keys == w.meta.objects.Keys && forall l <- c :: Get(env, w, l) == Some(c[l])
    ensures Contents(env, w) == c
  {
  }

  lemma {:induction false} ContentsHashes(env: Env, w: World)
    requires Healthy(env, w)
    ensures Hashed(env, Contents(env, w), w.meta.objects)
  {
    forall l
      ensures l in Contents(env, w) <==> l in w.meta.objects
      ensures l in w.meta.objects ==> env.digest(Contents(env, w)[l]) == w.meta.objects[l].hash
    {
      HealthyReads(env, w, l);
    }
  }

  // --- the invariant of a request that runs alone ---

  /** What the handler remembers of the object it found. */
  predicate Recalls(w0: World, l: Loc, t: Task) {
    t.existing == LoadExisting(w0, l) || ((t.pc == Load || t.pc == Done) && !t.failed && t.hold == Nothing)
  }

  lemma {:induction false} LoadRecalls(w0: World, w: World, l: Loc, t: Task, i: Input)
    requires t.pc == Load && t.req.loc == l && t.hold == Nothing && !t.failed
    requires w.meta.objects == w0.meta.objects && w.meta.refs == w0.meta.refs
    ensures Recalls(w0, l, StepLoad(w, t, i).1)
  {
  }

  lemma {:induction false} StepRemembers(env: Env, w: World, t: Task, i: Input)
    requires t.pc != Load
    ensures var t' := Step(env, w, t, i).1; t'.existing == t.existing && t'.pc != Load && (t.pc == Done ==> t' == t)
  {
  }

  lemma {:induction false} StepRecalls(env: Env, w0: World, w: World, l: Loc, t: Task, i: Input)
    requires Recalls(w0, l, t) && SoloMeta(w0.meta, w.meta, l, t) && LayoutAt(w0.layouts, w.layouts, l, t)
    ensures Recalls(w0, l, Step(env, w, t, i).1)
  {
    if t.pc == Load {
      LoadRecalls(w0, w, l, t, i);
    } else {
      StepRemembers(env, w, t, i);
    }
  }

  ghost predicate SoloInv(env: Env, w0: World, w: World, l: Loc, t: Task) {
    && Sane(env, System(w, map[l := t]))
    && SoloMeta(w0.meta, w.meta, l, t)
    && SoloShards(env, w, t) && TrimmedDirs(w)
    && LayoutAt(w0.layouts, w.layouts, l, t)
    && ShardsAt(w0.shards, w.shards, t) && Recalls(w0, l, t)
    && Cleared(w.meta, l, t)
  }

  lemma {:induction false} TaskFacts(env: Env, w: World, l: Loc, t: Task)
    requires Sane(env, System(w, map[l := t]))
    ensures TaskOk(w.meta.objects, l, t) && Fits(w, l, t) && SoundTask(env, t)
    ensures Owes(t).Some? ==> Owes(t).value in w.meta.refs
  {
    var s := System(w, map[l := t]);
    assert l in s.tasks && s.tasks[l] == t;
    if Owes(t).Some? {
      HeldRefExists(s, l, Owes(t).value);
    }
  }

  lemma {:induction false} SoloSane(env: Env, w: World, l: Loc, t: Task, i: Input, w': World, t': Task)
    requires Sane(env, System(w, map[l := t])) && Orderly(t, i) && Step(env, w, t, i) == (w', t')
    ensures Sane(env, System(w', map[l := t']))
  {
    NextSane(env, System(w, map[l := t]), Advance(l, i));
    NextAlone(env, w, l, t, i, w', t');
  }

  lemma {:induction false} NextAlone(env: Env, w: World, l: Loc, t: Task, i: Input, w': World, t': Task)
    requires Step(env, w, t, i) == (w', t')
    ensures Next(env, System(w, map[l := t]), Advance(l, i)) == System(w', map[l := t'])
  {
    var tasks := map[l := t];
    assert tasks[l := t'] == map[l := t'];
  }

  lemma {:induction false} SoloStep(env: Env, w0: World, w: World, l: Loc, t: Task, i: Input, w': World, t': Task)
    requires CollisionFree(env) && CountsOk(w0.meta.refs) && SoloInv(env, w0, w, l, t) && Orderly(t, i)
    requires Step(env, w, t, i) == (w', t')
    ensures SoloInv(env, w0, w', l, t')
  {
    TaskFacts(env, w, l, t);
    SoloSane(env, w, l, t, i, w', t');
    SoloStepParts(env, w0, w, l, t, i);
    StepRecalls(env, w0, w, l, t, i);
    StepCleared(env, w0, w, l, t, i);
    TaskFacts(env, w', l, t');
  }

  lemma {:induction false} SoloStepParts(env: Env, w0: World, w: World, l: Loc, t: Task, i: Input)
    requires CountsOk(w0.meta.refs) && Orderly(t, i) && (t.req.kind == Put ==> !Blank(t.req.hash))
    requires SoloMeta(w0.meta, w.meta, l, t) && SoloShards(env, w, t) && TrimmedDirs(w)
    requires LayoutAt(w0.layouts, w.layouts, l, t) && ShardsAt(w0.shards, w.shards, t)
    requires Fits(w, l, t) && SoundTask(env, t)
    ensures var (w', t') := Step(env, w, t, i);
      && MetaAt(w0.meta, w'.meta, t') && BlobAt(w0.meta, t') && SoloShards(env, w', t') && TrimmedDirs(w')
      && LayoutAt(w0.layouts, w'.layouts, l, t') && ShardsAt(w0.shards, w'.shards, t')
  {
    StepMetaAt(env, w0.meta, w, l, t, i);
    StepShards(env, w0.meta, w, t, i);
    StepTrimmed(env, w, t, i);
    StepLayoutAt(env, w, l, t, i, w0.layouts);
    StepShardsAt(env, w0.meta, w0.shards, w0.layouts, w, l, t, i);
  }

  lemma {:induction false} AloneKeeps(env: Env, w0: World, w: World, l: Loc, t: Task, inputs: seq<Input>, w': World, t': Task)
    requires CollisionFree(env) && CountsOk(w0.meta.refs) && SoloInv(env, w0, w, l, t)
    requires Alone(env, w, t, inputs, w', t')
    ensures SoloInv(env, w0, w', l, t')
    decreases |inputs|
  {
    if inputs != [] {
      var (w1, t1) := Step(env, w, t, inputs[0]);
      SoloStep(env, w0, w, l, t, inputs[0], w1, t1);
      AloneKeeps(env, w0, w1, l, t1, inputs[1..], w', t');
    }
  }

  /** A request about to start: a put of some data under a good key, or a delete. */
  ghost predicate Fresh(env: Env, l: Loc, t: Task) {
    (t == NewPut(env, l, t.req.data, t.req.contentType) && GoodKey(l.key)) || t == NewDelete(l)
  }

  lemma {:induction false} FreshSane(env: Env, w0: World, l: Loc, t: Task)
    requires AtRest(env, w0) && Fresh(env, l, t)
    ensures Sane(env, System(w0, map[l := t]))
  {
    AtRestSane(env, w0);
    var s0 := System(w0, map[]);
    StartKeeps(s0, l, t);
    StartSteady(s0, l, t);
    assert s0.tasks[l := t] == map[l := t];
  }

  lemma {:induction false} FreshParts(env: Env, w0: World, l: Loc, t: Task)
    requires Fresh(env, l, t)
    ensures SoloMeta(w0.meta, w0.meta, l, t) && OwnShards(env, w0.shards, t)
    ensures LayoutAt(w0.layouts, w0.layouts, l, t) && ShardsAt(w0.shards, w0.shards, t)
  {
  }

  lemma {:induction false} FreshStarts(env: Env, w0: World, l: Loc, t: Task)
    requires Healthy(env, w0) && Fresh(env, l, t)
    ensures SoloInv(env, w0, w0, l, t)
  {
    FreshSane(env, w0, l, t);
    FreshParts(env, w0, l, t);
  }

  // --- failed puts leave nothing staged ---

  predicate Cleared(m: Meta, l: Loc, t: Task) {
    t.pc == Done && t.failed ==> l !in m.staged && t.hold == Nothing
  }

  lemma {:induction false} IntoDone(env: Env, w: World, t: Task, i: Input)
    requires t.pc != RbBlob && t.pc != Done && !InRollback(t.pc)
    ensures var t' := Step(env, w, t, i).1; t'.pc == Done ==> t'.failed == t.failed
  {
  }

  lemma {:induction false} RollbackIntoDone(env: Env, w: World, t: Task, i: Input)
    requires InRollback(t.pc)
    ensures var (w', t') := Step(env, w, t, i);
      t'.pc == Done ==> t.pc == RbBlob && w'.meta == w.meta && t'.hold == t.hold
  {
  }

  lemma {:induction false} StepCleared(env: Env, w0: World, w: World, l: Loc, t: Task, i: Input)
    requires SoloMeta(w0.meta, w.meta, l, t) && LayoutAt(w0.layouts, w.layouts, l, t) && StagedFits(w.meta, l, t)
    requires Cleared(w.meta, l, t)
    ensures Cleared(Step(env, w, t, i).0.meta, l, Step(env, w, t, i).1)
  {
    if InRollback(t.pc) {
      RollbackIntoDone(env, w, t, i);
    } else if t.pc != Done {
      IntoDone(env, w, t, i);
    }
  }

  // --- finishing ---

  lemma {:induction false} RefsAtExtent(m0: Meta, t: Task, h: string)
    requires h in RefsAt(m0, t) && h in m0.refs
    ensures RefsAt(m0, t)[h].extent == m0.refs[h].extent
  {
  }

  lemma {:induction false} OtherLinked(env: Env, w0: World, w: World, l: Loc, t: Task, k: Loc)
    requires Healthy(env, w0) && SoloInv(env, w0, w, l, t) && k != l && k in w.meta.objects
    ensures Linked(w, k)
  {
    var s := System(w, map[l := t]);
    assert k in w0.meta.objects && w.meta.objects[k] == w0.meta.objects[k];
    assert Linked(w0, k);
    SameElsewhere(w0.layouts, w.layouts, l, k);
    HeldRefExists(s, k, w.meta.objects[k].hash);
    RefsAtExtent(w0.meta, t, w.meta.objects[k].hash);
  }

  lemma {:induction false} OwnRefSound(env: Env, w: World, l: Loc, t: Task)
    requires Sane(env, System(w, map[l := t])) && l in w.meta.objects
    ensures var h := w.meta.objects[l].hash; h in w.meta.refs && Trim(w.meta.refs[h].extent.dir) == w.meta.refs[h].extent.dir
  {
    var s := System(w, map[l := t]);
    HeldRefExists(s, l, w.meta.objects[l].hash);
    assert Sound(env, w.meta.objects[l].hash, w.meta.refs[w.meta.objects[l].hash].extent);
  }

  lemma {:induction false} OwnLinked(env: Env, w0: World, w: World, l: Loc, t: Task)
    requires Healthy(env, w0) && l in w.meta.objects && t.pc == Done
    requires SoloMeta(w0.meta, w.meta, l, t) && LayoutAt(w0.layouts, w.layouts, l, t) && Recalls(w0, l, t)
    requires var h := w.meta.objects[l].hash; h in w.meta.refs && Trim(w.meta.refs[h].extent.dir) == w.meta.refs[h].extent.dir
    ensures Linked(w, l)
  {
    if CommitDone(t) {
      NewLinked(w0.meta, w, l, t);
    } else {
      OldLinked(env, w0, w, l, t);
    }
  }

  lemma {:induction false} NewLinked(m0: Meta, w: World, l: Loc, t: Task)
    requires MetaAt(m0, w.meta, t) && BlobAt(m0, t) && CommitDone(t) && t.req.loc == l && l in w.meta.objects
    requires t.req.kind == Put && IsNew(w.layouts, l, t)
    requires t.req.hash in w.meta.refs && Trim(w.meta.refs[t.req.hash].extent.dir) == w.meta.refs[t.req.hash].extent.dir
    ensures Linked(w, l)
  {
    assert w.meta.refs[t.req.hash].extent == t.blob.extent;
  }

  lemma {:induction false} OldLinked(env: Env, w0: World, w: World, l: Loc, t: Task)
    requires Healthy(env, w0) && MetaAt(w0.meta, w.meta, t) && !CommitDone(t) && l in w.meta.objects
    requires t.pc == Done && LayoutAt(w0.layouts, w.layouts, l, t) && Recalls(w0, l, t)
    requires w.meta.objects[l].hash in w.meta.refs
    ensures Linked(w, l)
  {
    assert Linked(w0, l);
    RefsAtExtent(w0.meta, t, w.meta.objects[l].hash);
  }

  lemma {:induction false} AllLinked(env: Env, w0: World, w: World, l: Loc, t: Task)
    requires Healthy(env, w0) && SoloInv(env, w0, w, l, t) && t.pc == Done
    ensures forall k <- w.meta.objects :: Linked(w, k)
  {
    forall k | k in w.meta.objects
      ensures Linked(w, k)
    {
      if k == l {
        OwnRefSound(env, w, l, t);
        OwnLinked(env, w0, w, l, t);
      } else {
        OtherLinked(env, w0, w, l, t, k);
      }
    }
  }

  lemma {:induction false} SettledBalanced(env: Env, w: World, l: Loc, t: Task)
    requires Sane(env, System(w, map[l := t]))
    ensures Balanced(w.meta) <==> Owes(t) == None
  {
    OneTaskBalanced(System(w, map[l := t]), l, t);
  }

  lemma {:induction false} OneTaskBalanced(s: System, l: Loc, t: Task)
    requires Invariant(s) && s.tasks == map[l := t]
    ensures Balanced(s.world.meta) <==> Owes(t) == None
  {
    var m := s.world.meta;
    if Owes(t) == None {
      forall h
        ensures Count(m.refs, h) == |Users(m.objects, h)|
      {
        assert Owing(s.tasks, h) == {};
        assert Count(m.refs, h) == |Users(m.objects, h)| + |Owing(s.tasks, h)|;
      }
    } else {
      var h := Owes(t).value;
      assert l in Owing(s.tasks, h);
      assert Count(m.refs, h) == |Users(m.objects, h)| + |Owing(s.tasks, h)|;
    }
  }

  /** A finished request leaves a healthy store exactly when it left no staged entry and owes no
      reference. That is so after every success and after every completed rollback. */
  lemma {:induction false} FinishedHealthyIff(env: Env, w0: World, w: World, l: Loc, t: Task)
    requires Healthy(env, w0) && SoloInv(env, w0, w, l, t) && t.pc == Done
    ensures Healthy(env, w) <==> l !in w.meta.staged && Owes(t) == None
  {
    SettledBalanced(env, w, l, t);
    AllLinked(env, w0, w, l, t);
    if l !in w.meta.staged {
      assert w.meta.staged.Keys <= {l};
      assert w.meta.staged == map[];
    }
  }

  /** What a request does to the contents: everything at its commit point, before it nothing. */
  function Effect(c: map<Loc, Bytes>, l: Loc, t: Task): map<Loc, Bytes> {
    if !CommitDone(t) then c else if t.req.kind == Put then c[l := t.req.data] else c - {l}
  }

  /** These contents are the ones the metadata names. */
  predicate Hashed(env: Env, c: map<Loc, Bytes>, objects: map<Loc, ObjectMeta>) {
    c.Keys == objects.Keys && forall l <- c :: env.digest(c[l]) == objects[l].hash
  }

  lemma {:induction false} EffectHashes(env: Env, c: map<Loc, Bytes>, m0: Meta, m: Meta, l: Loc, t: Task)
    requires Hashed(env, c, m0.objects) && MetaAt(m0, m, t) && t.req.loc == l
    requires t.req.kind == Put ==> t.req.hash == env.digest(t.req.data)
    ensures Hashed(env, Effect(c, l, t), m.objects)
  {
    if CommitDone(t) && t.req.kind == Put {
      assert m.objects == m0.objects[l := CommittedMeta(t)];
    }
  }

  lemma {:induction false} FinishedContents(env: Env, w0: World, w: World, l: Loc, t: Task)
    requires CollisionFree(env) && Healthy(env, w0) && Healthy(env, w) && SoloInv(env, w0, w, l, t)
    ensures Contents(env, w) == Effect(Contents(env, w0), l, t)
  {
    TaskFacts(env, w, l, t);
    ContentsHashes(env, w0);
    EffectHashes(env, Contents(env, w0), w0.meta, w.meta, l, t);
    ContentsByHash(env, w, Effect(Contents(env, w0), l, t));
  }

  // --- buckets ---

  /** Health and contents do not depend on the buckets, as long as the metadata is valid. */
  lemma {:induction false} SameButBuckets(env: Env, w: World, w': World)
    requires Healthy(env, w) && w' == w.(meta := w.meta.(buckets := w'.meta.buckets)) && Valid(w'.meta)
    ensures Healthy(env, w')
  {
    BalancedAgain(w.meta, w'.meta);
    forall l | l in w'.meta.objects
      ensures Linked(w', l)
    {
      assert Linked(w, l);
    }
  }

  lemma {:induction false} SameContentsButBuckets(env: Env, w: World, w': World)
    requires w' == w.(meta := w.meta.(buckets := w'.meta.buckets))
    ensures Contents(env, w') == Contents(env, w)
  {
    assert forall l :: Get(env, w', l) == Get(env, w, l);
  }

  /** A bucket command that touches neither objects, staged entries nor references. */
  lemma {:induction false} BucketsOnly(env: Env, w: World, c: Command)
    requires Healthy(env, w) && (c.CreateBucket? || c.DeleteBucket?)
    requires c.DeleteBucket? ==> forall l <- w.meta.objects :: l.bucket != c.bucket
    ensures var w' := w.(meta := Apply(w.meta, c).0);
      Healthy(env, w') && Contents(env, w') == Contents(env, w)
  {
    var w' := w.(meta := Apply(w.meta, c).0);
    ApplyKeepsValid(w.meta, c);
    BucketCommandKeeps(w.meta, c);
    SameButBuckets(env, w, w');
    SameContentsButBuckets(env, w, w');
  }

  lemma {:induction false} BalancedAgain(m: Meta, m': Meta)
    requires Balanced(m) && m'.objects == m.objects && m'.refs == m.refs
    ensures Balanced(m')
  {
    forall h
      ensures Count(m'.refs, h) == |Users(m'.objects, h)|
    {
      assert Count(m.refs, h) == |Users(m.objects, h)|;
    }
  }

  lemma {:induction false} BucketCommandKeeps(m: Meta, c: Command)
    requires Valid(m) && m.staged == map[] && (c.CreateBucket? || c.DeleteBucket?)
    requires c.DeleteBucket? ==> forall l <- m.objects :: l.bucket != c.bucket
    ensures var m' := Apply(m, c).0; m'.objects == m.objects && m'.staged == m.staged && m'.refs == m.refs
  {
    if c.DeleteBucket? {
      forall l | l in m.objects
        ensures m.objects[l].loc.bucket != c.bucket
      {
        assert EntryOk(m.buckets, l, m.objects[l], Committed);
      }
      assert Outside(m.objects, c.bucket) == m.objects;
      assert Outside(m.staged, c.bucket) == m.staged;
    }
  }
}
