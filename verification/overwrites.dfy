/** Overwrites whose new shards look like the old ones: the stretch in which a stop leaves a layout
    that neither Recover nor Dedupe puts right. */
module Overwrites {
  import opened Names
  import opened Metadata
  import opened Protocol
  import opened Conservation
  import opened Recovery
  import opened Reconcile
  import opened Crash
  import opened Healing
  import opened Solo
  import opened Requests
  import opened Guarantees
  import Erasure

  // --- what the staged entry says while a put runs alone ---

  predicate Says(m: Meta, l: Loc, stage: Stage) {
    l in m.staged && m.staged[l].stage == stage
  }

  /** The entry says how far the put got; in a rollback it says where that began, and so which layout
      is there. */
  predicate EntryAt(m: Meta, y0: map<Loc, Layout>, y: map<Loc, Layout>, l: Loc, t: Task) {
    match t.pc
    case Check | Write | MarkPrepared => Says(m, l, MetadataStaged)
    case Link | MarkLinked => Says(m, l, BlobPrepared)
    case Retain | MarkRetained => Says(m, l, LayoutLinked)
    case Commit => Says(m, l, BlobRetained)
    case RbLayout =>
      || (Says(m, l, MetadataStaged) && y == y0) || (Says(m, l, BlobPrepared) && IsNew(y, l, t))
      || Says(m, l, LayoutLinked) || Says(m, l, BlobRetained)
    case _ => true
  }

  lemma {:induction false} MarkEntryAt(w: World, l: Loc, t: Task, i: Input, y0: map<Loc, Layout>)
    requires t.req.loc == l && LayoutAt(y0, w.layouts, l, t) && EntryAt(w.meta, y0, w.layouts, l, t)
    requires t.pc == StageMeta || t.pc == MarkPrepared || t.pc == MarkLinked || t.pc == MarkRetained
    ensures var (w', t') := StepMark(w, t, i); EntryAt(w'.meta, y0, w'.layouts, l, t')
  {
  }

  lemma {:induction false} RetainEntryAt(w: World, l: Loc, t: Task, i: Input, y0: map<Loc, Layout>)
    requires t.pc == Retain && EntryAt(w.meta, y0, w.layouts, l, t)
    ensures var (w', t') := StepRetain(w, t, i); EntryAt(w'.meta, y0, w'.layouts, l, t')
  {
  }

  lemma {:induction false} OtherEntryAt(env: Env, w: World, l: Loc, t: Task, i: Input, y0: map<Loc, Layout>)
    requires t.pc == Load || t.pc == Check || t.pc == Write || t.pc == Link || t.pc == Commit || t.pc == RbLayout
    requires EntryAt(w.meta, y0, w.layouts, l, t)
    ensures var (w', t') := Step(env, w, t, i); EntryAt(w'.meta, y0, w'.layouts, l, t')
  {
  }

  /** Steps behind which nothing is asked of the entry. */
  predicate Past(pc: Pc) {
    match pc
    case Check | Write | MarkPrepared | Link | MarkLinked | Retain | MarkRetained | Commit | RbLayout => false
    case _ => true
  }

  lemma {:induction false} LaterPast(env: Env, w: World, t: Task, i: Input)
    requires Past(t.pc) && t.pc != Load && t.pc != StageMeta
    ensures Past(Step(env, w, t, i).1.pc)
  {
    match t.pc
    case Unstage | PrepareFailed | RbUnstage => UnstageEffect(w, t, i);
    case _ =>
  }

  lemma {:induction false} StepEntryAt(env: Env, w: World, l: Loc, t: Task, i: Input, y0: map<Loc, Layout>)
    requires t.req.loc == l && LayoutAt(y0, w.layouts, l, t) && EntryAt(w.meta, y0, w.layouts, l, t)
    ensures var (w', t') := Step(env, w, t, i); EntryAt(w'.meta, y0, w'.layouts, l, t')
  {
    match t.pc
    case StageMeta | MarkPrepared | MarkLinked | MarkRetained => MarkEntryAt(w, l, t, i, y0);
    case Load | Check | Write | Link | Commit | RbLayout => OtherEntryAt(env, w, l, t, i, y0);
    case Retain => RetainEntryAt(w, l, t, i, y0);
    case _ => LaterPast(env, w, t, i);
  }

  lemma {:induction false} AloneEntryAt(env: Env, w0: World, w: World, l: Loc, t: Task, inputs: seq<Input>, w': World, t': Task)
    requires CollisionFree(env) && CountsOk(w0.meta.refs) && SoloInv(env, w0, w, l, t)
    requires EntryAt(w.meta, w0.layouts, w.layouts, l, t) && Alone(env, w, t, inputs, w', t')
    ensures SoloInv(env, w0, w', l, t') && EntryAt(w'.meta, w0.layouts, w'.layouts, l, t')
    decreases |inputs|
  {
    if inputs != [] {
      var (w1, t1) := Step(env, w, t, inputs[0]);
      StepEntryAt(env, w, l, t, inputs[0], w0.layouts);
      SoloStep(env, w0, w, l, t, inputs[0], w1, t1);
      AloneEntryAt(env, w0, w1, l, t1, inputs[1..], w', t');
    }
  }

  // --- when a stop misleads ---

  /** What Dedupe compares is the same. */
  predicate LooksLike(a: Extent, b: Extent) {
    a.dir == b.dir && a.placements == b.placements && a.checksums == b.checksums && a.shardSizes == b.shardSizes
  }

  /** The put has linked a layout that no entry tells of: it has not recorded that yet, or it failed to
      and has not taken the layout back. */
  predicate Unrecorded(m: Meta, t: Task) {
    t.pc == MarkLinked || (t.pc == RbLayout && Says(m, t.req.loc, BlobPrepared))
  }

  /** And it is overwriting other content with shards that look the same. */
  predicate Overlooked(m: Meta, t: Task) {
    && Unrecorded(m, t) && t.existing.Some? && t.existing.value.ref.Some? && t.existing.value.meta.hash != t.req.hash
    && LooksLike(t.blob.extent, t.existing.value.ref.value.extent)
  }

  /** Everywhere else the layout names the object's content, is gone, or an entry tells of it. */
  lemma {:induction false} ElsewhereNamed(env: Env, w0: World, w: World, l: Loc, t: Task)
    requires Healthy(env, w0) && SoloInv(env, w0, w, l, t) && EntryAt(w.meta, w0.layouts, w.layouts, l, t)
    requires l in w.meta.objects && l in w.layouts && !Unrecorded(w.meta, t)
    ensures w.layouts[l].hash == w.meta.objects[l].hash || (l in w.meta.staged && Relinks(w.meta, l))
  {
    TaskFacts(env, w, l, t);
    if l in w0.meta.objects {
      assert Linked(w0, l);
    }
  }

  /** The directory of the put's blob needs no trimming. */
  lemma {:induction false} BlobTrimmed(env: Env, w0: World, w: World, l: Loc, t: Task)
    requires SoundRefs(env, w0.meta.refs) && SoloInv(env, w0, w, l, t) && Unrecorded(w.meta, t)
    ensures Trim(t.blob.extent.dir) == t.blob.extent.dir
  {
    TaskFacts(env, w, l, t);
    if !t.blob.created {
      assert Sound(env, t.req.hash, w0.meta.refs[t.req.hash].extent);
    }
  }

  lemma {:induction false} UnrecordedLayout(env: Env, w0: World, w: World, l: Loc, t: Task)
    requires Healthy(env, w0) && SoloInv(env, w0, w, l, t) && EntryAt(w.meta, w0.layouts, w.layouts, l, t)
    requires Unrecorded(w.meta, t)
    ensures Says(w.meta, l, BlobPrepared) && l in w.layouts
    ensures w.layouts[l].hash == t.req.hash && w.layouts[l].extent == t.blob.extent
  {
    TaskFacts(env, w, l, t);
    BlobTrimmed(env, w0, w, l, t);
  }

  /** The object under the put is the one it found, with the reference it found. */
  lemma {:induction false} UnderneathKnown(env: Env, w0: World, w: World, l: Loc, t: Task)
    requires Healthy(env, w0) && SoloInv(env, w0, w, l, t) && Unrecorded(w.meta, t)
    ensures l in w.meta.objects <==> t.existing.Some?
    ensures t.existing.Some? ==>
      var h := w.meta.objects[l].hash; var x := t.existing.value;
      && h == x.meta.hash && h in w.meta.refs && x.ref.Some? && x.ref.value.extent == w.meta.refs[h].extent
  {
    TaskFacts(env, w, l, t);
    if t.existing.Some? {
      OwnRefSound(env, w, l, t);
      FoundReference(env, w0, w.meta, l, t);
    }
  }

  lemma {:induction false} FoundReference(env: Env, w0: World, m: Meta, l: Loc, t: Task)
    requires Healthy(env, w0) && MetaAt(w0.meta, m, t) && TaskOk(m.objects, l, t) && Recalls(w0, l, t)
    requires Unrecorded(m, t) && t.existing.Some? && t.existing.value.meta.hash in m.refs
    ensures l in m.objects && m.objects[l] == t.existing.value.meta
    ensures t.existing.value.ref.Some? && t.existing.value.ref.value.extent == m.refs[t.existing.value.meta.hash].extent
  {
    assert t.existing == LoadExisting(w0, l);
    assert Linked(w0, l);
    RefsAtExtent(w0.meta, t, m.objects[l].hash);
  }

  lemma {:induction false} UnrecordedMisleads(w: World, l: Loc, t: Task)
    requires Unrecorded(w.meta, t) && t.req.loc == l && Says(w.meta, l, BlobPrepared)
    requires l in w.layouts && w.layouts[l].hash == t.req.hash && w.layouts[l].extent == t.blob.extent
    requires l in w.meta.objects <==> t.existing.Some?
    requires t.existing.Some? ==>
      var h := w.meta.objects[l].hash; var x := t.existing.value;
      && h == x.meta.hash && h in w.meta.refs && x.ref.Some? && x.ref.value.extent == w.meta.refs[h].extent
    ensures Misled(w, l) <==> Overlooked(w.meta, t)
  {
  }

  lemma {:induction false} SoloMisledIff(env: Env, w0: World, w: World, l: Loc, t: Task)
    requires Healthy(env, w0) && SoloInv(env, w0, w, l, t) && EntryAt(w.meta, w0.layouts, w.layouts, l, t)
    requires t.req.loc == l
    ensures Misled(w, l) <==> Overlooked(w.meta, t)
  {
    if Unrecorded(w.meta, t) {
      UnrecordedLayout(env, w0, w, l, t);
      UnderneathKnown(env, w0, w, l, t);
      UnrecordedMisleads(w, l, t);
    } else if l in w.meta.objects && l in w.layouts {
      ElsewhereNamed(env, w0, w, l, t);
    }
  }

  /** A stop misleads exactly while a put over other content has linked its layout unrecorded and what
      Dedupe compares does not tell the two apart. */
  lemma {:induction false} MisledIff(env: Env, w0: World, l: Loc, t0: Task, inputs: seq<Input>, w: World, t: Task)
    requires CollisionFree(env) && Healthy(env, w0) && Fresh(env, l, t0) && Alone(env, w0, t0, inputs, w, t)
    ensures Misled(w, l) <==> Overlooked(w.meta, t)
  {
    FreshStarts(env, w0, l, t0);
    AloneEntryAt(env, w0, w0, l, t0, inputs, w, t);
    AloneRequest(env, w0, t0, inputs, w, t);
    SoloMisledIff(env, w0, w, l, t);
  }

  // --- a run that misleads ---

  /** A put of content without a reference, up to its linked layout. */
  function Halfway(env: Env, w0: World, l: Loc, data: Bytes, ct: string, plan: seq<Placement>): (World, Task) {
    var t0 := NewPut(env, l, data, ct);
    var e := NewExtent(env, t0, plan);
    var t := t0.(pc := MarkLinked, existing := LoadExisting(w0, l), blob := Blob(e, false, true), linkedAt := 1);
    (World(w0.meta.(staged := w0.meta.staged[l := StagedMeta(t0, BlobPrepared, 1)]), w0.layouts[l := NewLayout(t)],
           w0.shards[OwnKey(t0) := Whole(data)]), t)
  }

  predicate Startable(m: Meta, l: Loc, h: string) {
    !InvalidLoc(l) && l.bucket in m.buckets && !Blank(h) && h !in m.refs && GoodKey(l.key)
  }

  lemma {:induction false} ReachesWrite(env: Env, w0: World, l: Loc, t0: Task, i: Input) returns (w: World, t: Task)
    requires Startable(w0.meta, l, t0.req.hash) && t0.pc == Load && t0.req.kind == Put && t0.req.loc == l && i == Input(Success, 1, i.plan)
    ensures Alone(env, w0, t0, [i, i, i], w, t)
    ensures w == w0.(meta := w0.meta.(staged := w0.meta.staged[l := StagedMeta(t0, MetadataStaged, 1)]))
    ensures t == t0.(pc := Write, existing := LoadExisting(w0, l))
  {
    var (w1, t1) := Step(env, w0, t0, i);
    var (w2, t2) := Step(env, w1, t1, i);
    w, t := Step(env, w2, t2, i).0, Step(env, w2, t2, i).1;
    assert Alone(env, w0, t0, [], w0, t0);
    AloneThen(env, w0, t0, [], w0, t0, i);
    AloneThen(env, w0, t0, [i], w1, t1, i);
    AloneThen(env, w0, t0, [i, i], w2, t2, i);
    assert [i] + [i] == [i, i] && [i, i] + [i] == [i, i, i] && [] + [i] == [i];
  }

  lemma {:induction false} WriteToLink(env: Env, w: World, t: Task, i: Input)
    requires t.pc == Write && Startable(w.meta, t.req.loc, t.req.hash) && i == Input(Success, 1, i.plan)
    ensures var e := NewExtent(env, t, i.plan);
      var (w1, t1) := Step(env, w, t, i); var (w2, t2) := Step(env, w1, t1, i); var (w3, t3) := Step(env, w2, t2, i);
      && Orderly(t1, i) && Orderly(t2, i)
      && t3 == t.(pc := MarkLinked, blob := Blob(e, false, true), linkedAt := 1)
      && w3 == World(w.meta.(staged := w.meta.staged[t.req.loc := StagedMeta(t, BlobPrepared, 1)]),
                     w.layouts[t.req.loc := NewLayout(t3)], w.shards[OwnKey(t) := Whole(t.req.data)])
  {
  }

  lemma {:induction false} ReachesHalfway(env: Env, w0: World, l: Loc, data: Bytes, ct: string, plan: seq<Placement>) returns (inputs: seq<Input>)
    requires Startable(w0.meta, l, env.digest(data))
    ensures var (w, t) := Halfway(env, w0, l, data, ct, plan); Alone(env, w0, NewPut(env, l, data, ct), inputs, w, t)
  {
    var i, t0 := Input(Success, 1, plan), NewPut(env, l, data, ct);
    var w3, t3 := ReachesWrite(env, w0, l, t0, i);
    WriteToLink(env, w3, t3, i);
    var (w4, t4) := Step(env, w3, t3, i);
    var (w5, t5) := Step(env, w4, t4, i);
    var (w6, t6) := Step(env, w5, t5, i);
    inputs := [i, i, i] + [i] + [i] + [i];
    AloneThen(env, w0, t0, [i, i, i], w3, t3, i);
    AloneThen(env, w0, t0, [i, i, i] + [i], w4, t4, i);
    AloneThen(env, w0, t0, [i, i, i] + [i] + [i], w5, t5, i);
    var s0 := w0.meta.staged;
    assert s0[l := StagedMeta(t0, MetadataStaged, 1)][l := StagedMeta(t0, BlobPrepared, 1)] == s0[l := StagedMeta(t0, BlobPrepared, 1)];
  }

  /** The object's reference has the shards that this data would get from this plan. */
  predicate Shadows(env: Env, m: Meta, l: Loc, data: Bytes, plan: seq<Placement>)
    requires l in m.objects && m.objects[l].hash in m.refs
  {
    LooksLike(Extent(ShardDir(l.key), plan, env.checksums(data), env.shardSizes(data), |data|), m.refs[m.objects[l].hash].extent)
  }

  /** Recover forgets the entry, and that is all it does to metadata and layouts. */
  lemma {:induction false} Forgotten(env: Env, w0: World, l: Loc, data: Bytes, ct: string, plan: seq<Placement>, cutoff: nat, now: nat)
    requires w0.meta.staged == map[] && !InvalidLoc(l) && cutoff >= 1
    ensures var (w, t) := Halfway(env, w0, l, data, ct, plan);
      && AllDue(w.meta, [l], cutoff)
      && RecoverPending(w, [l], cutoff, now) == Some(w.(meta := w0.meta))
  {
    var (w, t) := Halfway(env, w0, l, data, ct, plan);
    assert [l][1..] == [] && [l][0] == l;
    assert w.meta.staged - {l} == map[];
    assert RecoverOne(w, l, now) == Some(w.(meta := w0.meta));
    assert RecoverPending(w.(meta := w0.meta), [], cutoff, now) == Some(w.(meta := w0.meta));
  }

  lemma {:induction false} NothingToFix(env: Env, w0: World, w: World, l: Loc)
    requires Healthy(env, w0) && w.meta == w0.meta && w.layouts - {l} == w0.layouts - {l}
    requires l in w.meta.objects && Agrees(w, l)
    ensures Terminal(w)
  {
    forall f
      ensures !FixEnabled(w, f)
    {
      if f.Relink? {
        if f.loc in w.meta.objects && f.loc != l {
          assert Linked(w0, f.loc);
          SameElsewhere(w0.layouts, w.layouts, l, f.loc);
        }
      } else {
        NoCountToFix(w0, f);
      }
    }
  }

  lemma {:induction false} NoCountToFix(w: World, f: Fix)
    requires Balanced(w.meta) && !f.Relink?
    ensures f.CreateRef? ==> f.hash in w.meta.refs || Users(w.meta.objects, f.hash) == {}
    ensures f.IncreaseRef? || f.DecreaseRef? ==> !FixEnabled(w, f)
  {
    assert Count(w.meta.refs, f.hash) == |Users(w.meta.objects, f.hash)|;
  }

  /** Overwrite an object with other content whose shards look like its own, and stop before the
      layout is recorded. Recover only forgets the entry, Dedupe has nothing to fix, and the
      committed object is gone: its layout names the set of a content that was never committed, and
      the sweep deletes that, unless it does not come to its folder; then it is that content which
      is read. */
  lemma {:induction false} OverwriteMisleads(env: Env, w0: World, l: Loc, data: Bytes, ct: string, plan: seq<Placement>, cutoff: nat, now: nat)
    returns (inputs: seq<Input>, w: World, t: Task)
    requires Healthy(env, w0) && l in w0.meta.objects && env.digest(data) !in w0.meta.refs && !Blank(env.digest(data))
    requires w0.meta.objects[l].hash in w0.meta.refs && Shadows(env, w0.meta, l, data, plan) && cutoff >= 1
    ensures Alone(env, w0, NewPut(env, l, data, ct), inputs, w, t) && Misled(w, l) && AllDue(w.meta, [l], cutoff)
    ensures Recover(w, [l], cutoff, now).Some?
    ensures var w1 := Recover(w, [l], cutoff, now).value;
      && w1.meta == w0.meta && Terminal(w1)
      && Get(env, w1, l) == if Listable(Folder(ShardDir(l.key))) then None else Some(data)
  {
    CanOverwrite(env, w0, l, data, plan);
    w, t := Halfway(env, w0, l, data, ct, plan).0, Halfway(env, w0, l, data, ct, plan).1;
    inputs := ReachesHalfway(env, w0, l, data, ct, plan);
    HalfwayMisled(env, w0, l, data, ct, plan);
    HalfwayRecovers(env, w0, l, data, ct, plan, cutoff, now);
    HalfwayTerminal(env, w0, l, data, ct, plan, Recover(w, [l], cutoff, now).value);
  }

  lemma {:induction false} HalfwayRecovers(env: Env, w0: World, l: Loc, data: Bytes, ct: string, plan: seq<Placement>, cutoff: nat, now: nat)
    requires Startable(w0.meta, l, env.digest(data)) && TrimmedDirs(w0) && w0.meta.staged == map[] && l in w0.meta.objects && cutoff >= 1
    ensures var w := Halfway(env, w0, l, data, ct, plan).0;
      && AllDue(w.meta, [l], cutoff) && Recover(w, [l], cutoff, now).Some?
      && var w1 := Recover(w, [l], cutoff, now).value;
         && w1.meta == w0.meta && w1.layouts == w.layouts
         && Get(env, w1, l) == if Listable(Folder(ShardDir(l.key))) then None else Some(data)
  {
    Forgotten(env, w0, l, data, ct, plan, cutoff, now);
    HalfwaySwept(env, w0, l, data, ct, plan);
  }

  lemma {:induction false} CanOverwrite(env: Env, w0: World, l: Loc, data: Bytes, plan: seq<Placement>)
    requires Healthy(env, w0) && l in w0.meta.objects && env.digest(data) !in w0.meta.refs && !Blank(env.digest(data))
    requires w0.meta.objects[l].hash in w0.meta.refs && Shadows(env, w0.meta, l, data, plan)
    ensures Startable(w0.meta, l, env.digest(data)) && TrimmedDirs(w0) && w0.meta.staged == map[]
  {
    var h := w0.meta.objects[l].hash;
    assert EntryOk(w0.meta.buckets, l, w0.meta.objects[l], Committed) && Sound(env, h, w0.meta.refs[h].extent);
  }

  lemma {:induction false} HalfwayMisled(env: Env, w0: World, l: Loc, data: Bytes, ct: string, plan: seq<Placement>)
    requires l in w0.meta.objects && env.digest(data) !in w0.meta.refs && GoodKey(l.key)
    requires w0.meta.objects[l].hash in w0.meta.refs && Shadows(env, w0.meta, l, data, plan)
    ensures var w := Halfway(env, w0, l, data, ct, plan).0; Misled(w, l) && Agrees(w.(meta := w0.meta), l)
  {
  }

  lemma {:induction false} HalfwayTerminal(env: Env, w0: World, l: Loc, data: Bytes, ct: string, plan: seq<Placement>, w1: World)
    requires Healthy(env, w0) && l in w0.meta.objects && w1.meta == w0.meta && Agrees(w1, l)
    requires w1.layouts == Halfway(env, w0, l, data, ct, plan).0.layouts
    ensures Terminal(w1)
  {
    assert w1.layouts - {l} == w0.layouts - {l};
    NothingToFix(env, w0, w1, l);
  }

  lemma {:induction false} HalfwaySwept(env: Env, w0: World, l: Loc, data: Bytes, ct: string, plan: seq<Placement>)
    requires TrimmedDirs(w0) && w0.meta.staged == map[] && env.digest(data) !in w0.meta.refs && !Blank(env.digest(data))
    requires l in w0.meta.objects && GoodKey(l.key)
    ensures var w := Halfway(env, w0, l, data, ct, plan).0.(meta := w0.meta);
      && CleanupOrphans(w).Some?
      && var w1 := CleanupOrphans(w).value;
         && w1 == w.(shards := w1.shards)
         && Get(env, w1, l) == if Listable(Folder(ShardDir(l.key))) then None else Some(data)
  {
    var w := Halfway(env, w0, l, data, ct, plan).0.(meta := w0.meta);
    GoodKeyFolder(l.key);
    CleanupExact(w, SetAt(ShardDir(l.key), env.digest(data)));
  }

  // --- with the store's coder ---

  function Digests(digest: Bytes -> string, shards: seq<Bytes>): seq<string> {
    seq(|shards|, i requires 0 <= i < |shards| => digest(shards[i]))
  }

  function Sizes(shards: seq<Bytes>): seq<nat> {
    seq(|shards|, i requires 0 <= i < |shards| => |shards[i]|)
  }

  /** Checksums and sizes are those of the shards the coder makes. */
  ghost predicate ByCoder(env: Env, c: Erasure.Code)
    requires c.k >= 1
  {
    forall d :: env.checksums(d) == Digests(env.digest, Erasure.Encoded(c, d)) && env.shardSizes(d) == Sizes(Erasure.Encoded(c, d))
  }

  lemma {:induction false} SameDigests(env: Env, a: seq<Bytes>, b: seq<Bytes>)
    requires CollisionFree(env)
    ensures Digests(env.digest, a) == Digests(env.digest, b) <==> a == b
  {
    if Digests(env.digest, a) == Digests(env.digest, b) {
      assert |a| == |Digests(env.digest, a)| == |b|;
      forall i | 0 <= i < |a|
        ensures a[i] == b[i]
      {
        assert env.digest(a[i]) == Digests(env.digest, a)[i] == Digests(env.digest, b)[i] == env.digest(b[i]);
      }
    }
  }

  /** Two contents have the same checksum list exactly when they fill shards of one size and the longer
      is the other with zeros behind it. */
  lemma {:induction false} ChecksumsIff(env: Env, c: Erasure.Code, a: Bytes, b: Bytes)
    requires CollisionFree(env) && c.k >= 1 && ByCoder(env, c) && |a| <= |b|
    ensures env.checksums(a) == env.checksums(b) <==>
      Erasure.ShardSize(|a|, c.k) == Erasure.ShardSize(|b|, c.k) && Erasure.Extends(a, b)
  {
    SameDigests(env, Erasure.Encoded(c, a), Erasure.Encoded(c, b));
    Erasure.SameShardsIff(c, a, b);
  }

  /** So a zero byte appended to an object whose length leaves room in its shards is such an overwrite,
      if the object's shards lie in its own key's directory and the planner chooses their nodes again. */
  lemma {:induction false} ZeroByteMisleads(env: Env, c: Erasure.Code, w0: World, l: Loc, data: Bytes, ct: string, cutoff: nat, now: nat)
    returns (inputs: seq<Input>, w: World, t: Task)
    requires CollisionFree(env) && c.k >= 1 && ByCoder(env, c) && Healthy(env, w0) && cutoff >= 1
    requires l in w0.meta.objects && w0.meta.objects[l].hash == env.digest(data) && |data| % c.k != 0
    requires env.digest(data) in w0.meta.refs && w0.meta.refs[env.digest(data)].extent.dir == ShardDir(l.key)
    requires env.digest(data + [0]) !in w0.meta.refs
    ensures Alone(env, w0, NewPut(env, l, data + [0], ct), inputs, w, t) && Misled(w, l) && AllDue(w.meta, [l], cutoff)
    ensures Recover(w, [l], cutoff, now).Some?
    ensures var w1 := Recover(w, [l], cutoff, now).value;
      && w1.meta == w0.meta && Terminal(w1)
      && Get(env, w0, l) == Some(data)
      && Get(env, w1, l) == if Listable(Folder(ShardDir(l.key))) then None else Some(data + [0])
  {
    ZeroByteShadows(env, c, w0, l, data);
    ReadsAs(env, w0, l, data);
    inputs, w, t := OverwriteMisleads(env, w0, l, data + [0], ct, w0.meta.refs[env.digest(data)].extent.placements, cutoff, now);
  }

  lemma {:induction false} ZeroByteShadows(env: Env, c: Erasure.Code, w0: World, l: Loc, data: Bytes)
    requires CollisionFree(env) && c.k >= 1 && ByCoder(env, c) && SoundRefs(env, w0.meta.refs) && |data| % c.k != 0
    requires l in w0.meta.objects && w0.meta.objects[l].hash == env.digest(data) && env.digest(data) in w0.meta.refs
    requires w0.meta.refs[env.digest(data)].extent.dir == ShardDir(l.key)
    ensures Shadows(env, w0.meta, l, data + [0], w0.meta.refs[env.digest(data)].extent.placements)
  {
    var e := w0.meta.refs[env.digest(data)].extent;
    assert Sound(env, env.digest(data), e);
    var d :| env.digest(d) == env.digest(data) && Describes(env, e, d);
    assert d == data;
    Erasure.ZeroByteUnseen(c, data);
  }

  /** A digest that does not collide goes together with every coder, so nothing above is idle. */
  lemma CoderAndDigest(c: Erasure.Code)
    requires c.k >= 1
    ensures CollisionFree(CoderEnv(c)) && ByCoder(CoderEnv(c), c)
  {
    NoCollision(CoderEnv(c));
    CodedBy(c);
  }

  lemma {:induction false} NoCollision(env: Env)
    requires env.digest == Spelled
    ensures CollisionFree(env)
  {
    forall a
      ensures !Blank(env.digest(a))
    {
      assert Spelled(a)[0] == 'x';
    }
    forall a, b | env.digest(a) == env.digest(b)
      ensures a == b
    {
      SpelledOnce(a, b);
    }
  }

  lemma {:induction false} CodedBy(c: Erasure.Code)
    requires c.k >= 1
    ensures ByCoder(CoderEnv(c), c)
  {
    forall d
      ensures CoderEnv(c).checksums(d) == Digests(CoderEnv(c).digest, Erasure.Encoded(c, d))
      ensures CoderEnv(c).shardSizes(d) == Sizes(Erasure.Encoded(c, d))
    {
      Coded(c, d);
    }
  }

  lemma Coded(c: Erasure.Code, d: Bytes)
    requires c.k >= 1
    ensures CoderEnv(c).checksums(d) == Digests(CoderEnv(c).digest, Erasure.Encoded(c, d))
    ensures CoderEnv(c).shardSizes(d) == Sizes(Erasure.Encoded(c, d))
  {
  }

  function CoderEnv(c: Erasure.Code): Env
    requires c.k >= 1
  {
    Env(Spelled, d => CodedSums(c, d), d => CodedSizes(c, d))
  }

  function CodedSums(c: Erasure.Code, d: Bytes): seq<string>
    requires c.k >= 1
  {
    Digests(Spelled, Erasure.Encoded(c, d))
  }

  function CodedSizes(c: Erasure.Code, d: Bytes): seq<nat>
    requires c.k >= 1
  {
    Sizes(Erasure.Encoded(c, d))
  }

  function Spelled(d: Bytes): string {
    ['x'] + seq(|d|, i requires 0 <= i < |d| => d[i] as int as char)
  }

  lemma SpelledOnce(a: Bytes, b: Bytes)
    requires Spelled(a) == Spelled(b)
    ensures a == b
  {
    assert |Spelled(a)| == |a| + 1 && |Spelled(b)| == |b| + 1;
    forall i | 0 <= i < |a|
      ensures a[i] == b[i]
    {
      assert Spelled(a)[i + 1] == Spelled(b)[i + 1];
    }
  }
}
