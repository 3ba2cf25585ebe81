/** Runs in which the store loses something, step by step from a healthy store. */
module Failures {
  import opened Names
  import opened Metadata
  import opened Protocol
  import opened Conservation
  import opened Recovery
  import opened Reconcile
  import opened Crash
  import opened Healing
  import opened Solo
  import opened Requests
  import opened Phases

  function Entry(t: Task, stage: Stage, now: nat): ObjectMeta {
    StagedMeta(t, stage, now)
  }

  /** A key for which a put of some data can start. */
  predicate Open(m: Meta, l: Loc, h: string) {
    l !in m.objects && l !in m.staged && !InvalidLoc(l) && l.bucket in m.buckets && !Blank(h)
  }

  // --- a reference given back twice ---

  /** A put of content that has a reference goes all the way to its commit, which fails; its rollback
      goes through except that the staged entry stays. */
  lemma {:induction false} StuckPut(env: Env, w: World, l: Loc, data: Bytes, ct: string) returns (w': World, t': Task)
    requires RefsOk(w.meta.refs) && Open(w.meta, l, env.digest(data)) && env.digest(data) in w.meta.refs
    ensures Goes(env, w, NewPut(env, l, data, ct), w', t') && t'.pc == Done && Owes(t') == None
    ensures w' == w.(layouts := w.layouts - {l}, meta := w.meta.(staged := w.meta.staged[l := Entry(NewPut(env, l, data, ct), BlobRetained, 1)]))
  {
    var t0, h := NewPut(env, l, data, ct), env.digest(data);
    var w1, t1 := RetainedPut(env, w, l, data, ct, 1);
    StuckRollback(env, w1, t1);
    w', t' := StuckWorld(w1, t1), Roll(t1).(pc := Done, hold := Nothing);
    GoesJoin(env, w, t0, w1, t1, w', t');
    BumpedBack(w.meta.refs, h);
    assert w.layouts[l := w1.layouts[l]] - {l} == w.layouts - {l};
  }

  function StuckWorld(w: World, t: Task): World
    requires t.req.hash in w.meta.refs
  {
    var h := t.req.hash;
    w.(layouts := w.layouts - {t.req.loc}, meta := w.meta.(refs := w.meta.refs[h := Bump(w.meta.refs[h], -1)]))
  }

  lemma {:induction false} StuckRollback(env: Env, w: World, t: Task)
    requires t.pc == Commit && t.existing == None && !t.blob.created && t.hold == Retained && CanPut(w.meta, t)
    requires t.req.loc in w.meta.staged && t.req.hash in w.meta.refs && w.meta.refs[t.req.hash].refCount >= 2
    ensures Goes(env, w, t, StuckWorld(w, t), Roll(t).(pc := Done, hold := Nothing))
  {
    var t1 := Roll(t);
    Fails(env, w, t);
    var w2, t2 := Phases.Unlinked(w, t1, true), t1.(pc := RbRef);
    Unlinks(env, w, t1, true);
    GoesJoin(env, w, t, w, t1, w2, t2);
    Returns(env, w2, t2);
    GoesJoin(env, w, t, w2, t2, StuckWorld(w, t), t1.(pc := Done, hold := Nothing));
  }

  lemma BumpedBack(refs: map<string, BlobRef>, h: string)
    requires h in refs
    ensures var up := refs[h := Bump(refs[h], 1)]; up[h := Bump(up[h], -1)] == refs
  {
  }

  /** A put of content that has a reference, up to its prepared blob. */
  lemma {:induction false} FoundBlob(env: Env, w: World, l: Loc, data: Bytes, ct: string, now: nat) returns (w': World, t': Task)
    requires !InvalidLoc(l) && l.bucket in w.meta.buckets && !Blank(env.digest(data)) && env.digest(data) in w.meta.refs
    ensures Goes(env, w, NewPut(env, l, data, ct), w', t')
    ensures var t0 := NewPut(env, l, data, ct);
      && t' == t0.(pc := MarkPrepared, existing := LoadExisting(w, l), blob := Blob(w.meta.refs[env.digest(data)].extent, true, false))
      && w' == w.(meta := w.meta.(staged := w.meta.staged[l := Entry(t0, MetadataStaged, now)]))
  {
    var t0 := NewPut(env, l, data, ct);
    var t1 := t0.(pc := Check, existing := LoadExisting(w, l));
    w' := Noted(w, t0, MetadataStaged, now);
    t' := t1.(pc := MarkPrepared, blob := Blob(w.meta.refs[env.digest(data)].extent, true, false));
    Stages(env, w, t0, now);
    Finds(env, w', t1, now);
    GoesJoin(env, w, t0, w', t1, w', t');
  }

  /** A put of content that has a reference, up to its linked layout. */
  lemma {:induction false} FoundPut(env: Env, w: World, l: Loc, data: Bytes, ct: string, now: nat) returns (w': World, t': Task)
    requires RefsOk(w.meta.refs) && Open(w.meta, l, env.digest(data)) && env.digest(data) in w.meta.refs
    ensures Goes(env, w, NewPut(env, l, data, ct), w', t')
    ensures var h := env.digest(data); var t0 := NewPut(env, l, data, ct);
      && t' == t0.(pc := Retain, blob := Blob(w.meta.refs[h].extent, true, false), linkedAt := now)
      && l in w'.layouts && w'.layouts == w.layouts[l := w'.layouts[l]] && w'.shards == w.shards
      && w'.meta == w.meta.(staged := w.meta.staged[l := Entry(t0, LayoutLinked, now)])
  {
    var t0 := NewPut(env, l, data, ct);
    var w1, t1 := FoundBlob(env, w, l, data, ct, now);
    w', t' := LinkedWorld(w1, t1, now), t1.(pc := Retain, linkedAt := now);
    Links(env, w1, t1, now);
    GoesJoin(env, w, t0, w1, t1, w', t');
    var e := Entry(t0, LayoutLinked, now);
    EntryReplaced(w.meta.staged, l, Entry(t0, MetadataStaged, now), e, e);
  }

  /** And on to its commit. */
  lemma {:induction false} RetainedPut(env: Env, w: World, l: Loc, data: Bytes, ct: string, now: nat) returns (w': World, t': Task)
    requires RefsOk(w.meta.refs) && Open(w.meta, l, env.digest(data)) && env.digest(data) in w.meta.refs
    ensures Goes(env, w, NewPut(env, l, data, ct), w', t')
    ensures var h := env.digest(data); var t0 := NewPut(env, l, data, ct);
      && t' == t0.(pc := Commit, blob := Blob(w.meta.refs[h].extent, true, false), linkedAt := now, hold := Retained)
      && l in w'.layouts && w'.layouts == w.layouts[l := w'.layouts[l]] && w'.shards == w.shards
      && w'.meta == w.meta.(staged := w.meta.staged[l := Entry(t0, BlobRetained, now)], refs := w.meta.refs[h := Bump(w.meta.refs[h], 1)])
  {
    var t0 := NewPut(env, l, data, ct);
    var w1, t1 := FoundPut(env, w, l, data, ct, now);
    w', t' := Noted(w1.(meta := RetainedMeta(w1.meta, t1)), t1, BlobRetained, now), t1.(pc := Commit, hold := Retained);
    Retains(env, w1, t1, now);
    GoesJoin(env, w, t0, w1, t1, w', t');
    var e := Entry(t0, BlobRetained, now);
    EntryReplaced(w.meta.staged, l, Entry(t0, LayoutLinked, now), e, e);
  }

  lemma EntryReplaced(staged: map<Loc, ObjectMeta>, l: Loc, a: ObjectMeta, b: ObjectMeta, c: ObjectMeta)
    ensures staged[l := a][l := b][l := c] == staged[l := c]
  {
  }

  /** Recover on one expired blob_retained entry that claims the only count of a committed object. */
  lemma {:induction false} LastCountTaken(w: World, l: Loc, h: string, order: seq<Loc>, cutoff: nat, now: nat)
    requires RefsOk(w.meta.refs) && StagedNamesOk(w.meta.staged) && TrimmedDirs(w) && AllDue(w.meta, order, cutoff)
    requires l in w.meta.staged && w.meta.staged[l].stage == BlobRetained && w.meta.staged[l].hash == h && l !in w.meta.objects
    requires h in w.meta.refs && w.meta.refs[h].refCount == 1 && RecoverPending(w, order, cutoff, now).Some?
    ensures Recover(w, order, cutoff, now).Some?
    ensures var w' := Recover(w, order, cutoff, now).value;
      && h !in w'.meta.refs && w'.meta.objects == w.meta.objects && w'.meta.staged == map[]
      && w'.layouts == RecoverPending(w, order, cutoff, now).value.layouts
      && SetAt(Trim(w.meta.refs[h].extent.dir), h) !in w'.shards
  {
    var k := SetAt(Trim(w.meta.refs[h].extent.dir), h);
    RecoverPendingCount(w, order, cutoff, now, h);
    RecoverPendingMeta(w, order, cutoff, now);
    assert l in ExpiredClaims(w.meta, order, cutoff, h);
    assert |ExpiredClaims(w.meta, order, cutoff, h)| >= 1;
    RecoverSweeps(w, order, cutoff, now);
    if k in w.shards {
      RecoverKeepsSetIff(w, order, cutoff, now, k);
    } else {
      RecoverPendingShards(w, order, cutoff, now);
      CleanupExact(RecoverPending(w, order, cutoff, now).value, k);
    }
    CleanupExact(RecoverPending(w, order, cutoff, now).value, k);
  }

  /** An object alone with its content: a put of the same content under another key fails to commit
      and to unstage, Recover gives the reference back a second time, and the object is gone. */
  lemma {:induction false} ReferenceReleasedTwice(env: Env, w0: World, k: Loc, l: Loc, data: Bytes, ct: string, cutoff: nat, now: nat)
    returns (w: World, t: Task)
    requires Healthy(env, w0) && k in w0.meta.objects && Users(w0.meta.objects, env.digest(data)) == {k}
    requires Open(w0.meta, l, env.digest(data)) && cutoff >= 1
    ensures Goes(env, w0, NewPut(env, l, data, ct), w, t) && t.pc == Done && w.meta.objects == w0.meta.objects
    ensures AllDue(w.meta, [l], cutoff) && Recover(w, [l], cutoff, now).Some?
    ensures var w1 := Recover(w, [l], cutoff, now).value;
      k in w1.meta.objects && w1.meta.objects[k].hash == env.digest(data) && env.digest(data) !in w1.meta.refs && Get(env, w1, k) == None
  {
    var h := env.digest(data);
    OnlyUser(env, w0, k, h);
    w, t := StuckPut(env, w0, l, data, ct);
    StuckTrimmed(env, w0, w, l, h);
    StuckStaged(env, w0, w, l, data, ct, cutoff, now);
    LastCountTaken(w, l, h, [l], cutoff, now);
    GoneWithSet(env, w0, Recover(w, [l], cutoff, now).value, k, l, h);
  }

  lemma {:induction false} OnlyUser(env: Env, w: World, k: Loc, h: string)
    requires Healthy(env, w) && k in w.meta.objects && Users(w.meta.objects, h) == {k}
    ensures w.meta.objects[k].hash == h && h in w.meta.refs && w.meta.refs[h].refCount == 1 && Linked(w, k)
    ensures Trim(w.meta.refs[h].extent.dir) == w.meta.refs[h].extent.dir && RefsOk(w.meta.refs) && w.meta.staged == map[] && TrimmedDirs(w)
  {
    assert k in Users(w.meta.objects, h);
    assert Count(w.meta.refs, h) == 1;
    assert Sound(env, h, w.meta.refs[h].extent);
  }

  lemma StuckTrimmed(env: Env, w0: World, w: World, l: Loc, h: string)
    requires TrimmedDirs(w0) && w.shards == w0.shards
    ensures TrimmedDirs(w)
  {
  }

  lemma {:induction false} GoneWithSet(env: Env, w0: World, w1: World, k: Loc, l: Loc, h: string)
    requires k in w0.meta.objects && Linked(w0, k) && w0.meta.objects[k].hash == h && k != l
    requires Trim(w0.meta.refs[h].extent.dir) == w0.meta.refs[h].extent.dir
    requires w1.layouts == w0.layouts - {l} && SetAt(w0.meta.refs[h].extent.dir, h) !in w1.shards
    ensures Get(env, w1, k) == None
  {
  }

  lemma {:induction false} StuckStaged(env: Env, w0: World, w: World, l: Loc, data: Bytes, ct: string, cutoff: nat, now: nat)
    requires w0.meta.staged == map[] && Open(w0.meta, l, env.digest(data)) && cutoff >= 1 && RefsOk(w0.meta.refs)
    requires w == w0.(layouts := w0.layouts - {l}, meta := w0.meta.(staged := w0.meta.staged[l := Entry(NewPut(env, l, data, ct), BlobRetained, 1)]))
    ensures AllDue(w.meta, [l], cutoff) && StagedNamesOk(w.meta.staged)
    ensures RecoverPending(w, [l], cutoff, now).Some? && RecoverPending(w, [l], cutoff, now).value.layouts == w0.layouts - {l}
  {
    assert [l][1..] == [] && [l][0] == l;
    var r := RecoverOne(w, l, now);
    assert r.Some?;
    RecoverOneFacts(w, l, now);
    assert w0.layouts - {l} - {l} == w0.layouts - {l};
    assert RecoverPending(r.value, [], cutoff, now) == r;
  }

  // --- a reference that cannot be rebuilt ---

  /** A put of an object's own content whose second intent update fails, stopped after it deleted the
      layout. */
  lemma {:induction false} StoppedOverwrite(env: Env, w: World, k: Loc, data: Bytes, ct: string) returns (w': World, t': Task)
    requires RefsOk(w.meta.refs) && k in w.meta.objects && !InvalidLoc(k) && k.bucket in w.meta.buckets && env.digest(data) in w.meta.refs
    ensures Goes(env, w, NewPut(env, k, data, ct), w', t') && Owes(t') == None
    ensures w' == w.(layouts := w.layouts - {k}, meta := w.meta.(staged := w.meta.staged[k := Entry(NewPut(env, k, data, ct), MetadataStaged, 1)]))
  {
    var t0 := NewPut(env, k, data, ct);
    var w1, t2 := FoundBlob(env, w, k, data, ct, 1);
    Fails(env, w1, t2);
    GoesJoin(env, w, t0, w1, t2, w1, Roll(t2));
    w', t' := Unlink(w1, k), Roll(t2).(pc := RbUnstage);
    GoesOne(env, w1, Roll(t2), Fine(1), w', t');
    GoesJoin(env, w, t0, w1, Roll(t2), w', t');
  }

  /** Put together: the object's layout is lost, then its reference is given back twice. Nothing is
      left to rebuild the reference from. */
  lemma {:induction false} NothingToRebuildFrom(env: Env, w0: World, k: Loc, l: Loc, data: Bytes, ct: string, cutoff: nat, now: nat)
    returns (s: System)
    requires Healthy(env, w0) && k in w0.meta.objects && Users(w0.meta.objects, env.digest(data)) == {k} && k != l
    requires Open(w0.meta, l, env.digest(data)) && cutoff >= 1
    ensures Reaches(env, System(w0, map[]), s) && AllDue(s.world.meta, [k, l], cutoff)
    ensures Recover(s.world, [k, l], cutoff, now).Some? && !Rebuildable(Recover(s.world, [k, l], cutoff, now).value)
  {
    var h := env.digest(data);
    OnlyUser(env, w0, k, h);
    CommittedNames(env, w0, k);
    var w1, t1 := StoppedOverwrite(env, w0, k, data, ct);
    var w2, t2 := StuckPut(env, w1, l, data, ct);
    s := System(w2, map[k := t1, l := t2]);
    TwoPuts(env, w0, k, data, ct, w1, t1, l, data, ct, w2, t2);
    StuckTrimmed(env, w0, w2, l, h);
    TwoStaged(env, w0, w2, k, l, data, ct, cutoff, now);
    LastCountTaken(w2, l, h, [k, l], cutoff, now);
    NoSource(Recover(w2, [k, l], cutoff, now).value, k, h);
  }

  lemma {:induction false} NoSource(w: World, k: Loc, h: string)
    requires k in w.meta.objects && Users(w.meta.objects, h) == {k} && h !in w.meta.refs && k !in w.layouts
    ensures !Rebuildable(w)
  {
    assert k in Users(w.meta.objects, h);
    assert IsFirst(w.meta.objects, h, k);
  }

  lemma {:induction false} CommittedNames(env: Env, w: World, k: Loc)
    requires Healthy(env, w) && k in w.meta.objects
    ensures !InvalidLoc(k) && k.bucket in w.meta.buckets
  {
    assert EntryOk(w.meta.buckets, k, w.meta.objects[k], Committed);
  }

  /** One put after the other, on different keys. */
  lemma {:induction false} TwoPuts(env: Env, w0: World, k: Loc, d1: Bytes, c1: string, w1: World, t1: Task,
      l: Loc, d2: Bytes, c2: string, w2: World, t2: Task)
    requires k != l && Goes(env, w0, NewPut(env, k, d1, c1), w1, t1) && Goes(env, w1, NewPut(env, l, d2, c2), w2, t2)
    ensures Reaches(env, System(w0, map[]), System(w2, map[k := t1, l := t2]))
  {
    var s0, p1, p2 := System(w0, map[]), NewPut(env, k, d1, c1), NewPut(env, l, d2, c2);
    PutReaches(env, s0, k, d1, c1);
    assert s0.tasks[k := p1] == map[k := p1] && map[k := p1][k := t1] == map[k := t1];
    GoesReaches(env, w0, map[k := p1], k, w1, t1);
    ReachesJoin(env, s0, System(w0, map[k := p1]), System(w1, map[k := t1]));
    PutReaches(env, System(w1, map[k := t1]), l, d2, c2);
    var both := map[k := t1][l := p2];
    ReachesJoin(env, s0, System(w1, map[k := t1]), System(w1, both));
    GoesReaches(env, w1, both, l, w2, t2);
    assert both[l := t2] == map[k := t1, l := t2];
    ReachesJoin(env, s0, System(w1, both), System(w2, map[k := t1, l := t2]));
  }

  lemma {:induction false} TwoStaged(env: Env, w0: World, w: World, k: Loc, l: Loc, data: Bytes, ct: string, cutoff: nat, now: nat)
    requires w0.meta.staged == map[] && Open(w0.meta, l, env.digest(data)) && cutoff >= 1 && RefsOk(w0.meta.refs)
    requires k != l && k in w0.meta.objects && !InvalidLoc(k)
    requires w == w0.(layouts := w0.layouts - {k} - {l},
      meta := w0.meta.(staged := map[k := Entry(NewPut(env, k, data, ct), MetadataStaged, 1), l := Entry(NewPut(env, l, data, ct), BlobRetained, 1)]))
    ensures AllDue(w.meta, [k, l], cutoff) && StagedNamesOk(w.meta.staged)
    ensures RecoverPending(w, [k, l], cutoff, now).Some? && k !in RecoverPending(w, [k, l], cutoff, now).value.layouts
  {
    var a := RecoverOne(w, k, now);
    assert a.Some?;
    RecoverOneFacts(w, k, now);
    var w1 := a.value;
    assert l in w1.meta.staged && w1.meta.staged[l] == w.meta.staged[l] && w1.layouts == w.layouts;
    var b := RecoverOne(w1, l, now);
    assert b.Some?;
    RecoverOneFacts(w1, l, now);
    assert [k, l][1..] == [l] && [l][1..] == [];
    assert RecoverPending(w1, [l], cutoff, now) == RecoverPending(b.value, [], cutoff, now) == b;
    assert RecoverPending(w, [k, l], cutoff, now) == RecoverPending(w1, [l], cutoff, now);
  }

  // --- an expired entry takes a fresh put's set ---

  /** A put of new content, up to its commit. */
  lemma {:induction false} WrittenPut(env: Env, w: World, l: Loc, data: Bytes, ct: string, now: nat) returns (w': World, t': Task)
    requires RefsOk(w.meta.refs) && Open(w.meta, l, env.digest(data)) && env.digest(data) !in w.meta.refs && GoodKey(l.key)
    ensures Goes(env, w, NewPut(env, l, data, ct), w', t')
    ensures var h := env.digest(data); var t0 := NewPut(env, l, data, ct); var e := NewExtent(env, t0, []);
      && t' == t0.(pc := Commit, blob := Blob(e, false, true), linkedAt := now, hold := Retained)
      && l in w'.layouts && w'.layouts == w.layouts[l := w'.layouts[l]] && w'.layouts[l].hash == h && w'.layouts[l].extent == e
      && w'.shards == w.shards[SetAt(ShardDir(l.key), h) := Whole(data)]
      && w'.meta == w.meta.(staged := w.meta.staged[l := Entry(t0, BlobRetained, now)], refs := w.meta.refs[h := BlobRef(e, 1)])
  {
    var t0, h := NewPut(env, l, data, ct), env.digest(data);
    var w1, t1 := FreshShards(env, w, l, data, ct, now);
    var w2, t2 := LinkedWorld(w1, t1, now), t1.(pc := Retain, linkedAt := now);
    Links(env, w1, t1, now);
    GoesJoin(env, w, t0, w1, t1, w2, t2);
    w', t' := Noted(w2.(meta := RetainedMeta(w2.meta, t2)), t2, BlobRetained, now), t2.(pc := Commit, hold := Retained);
    Retains(env, w2, t2, now);
    GoesJoin(env, w, t0, w2, t2, w', t');
    EntryReplaced(w.meta.staged, l, Entry(t0, MetadataStaged, now), Entry(t0, LayoutLinked, now), Entry(t0, BlobRetained, now));
    assert LayoutOf(h, ETag(h), t1.blob.extent, ct, now, now).extent == t1.blob.extent;
  }

  /** A put of new content, up to its shards. */
  lemma {:induction false} FreshShards(env: Env, w: World, l: Loc, data: Bytes, ct: string, now: nat) returns (w': World, t': Task)
    requires Open(w.meta, l, env.digest(data)) && env.digest(data) !in w.meta.refs
    ensures Goes(env, w, NewPut(env, l, data, ct), w', t')
    ensures var h := env.digest(data); var t0 := NewPut(env, l, data, ct);
      && t' == t0.(pc := MarkPrepared, blob := Blob(NewExtent(env, t0, []), false, true))
      && w' == w.(shards := w.shards[SetAt(ShardDir(l.key), h) := Whole(data)], meta := w.meta.(staged := w.meta.staged[l := Entry(t0, MetadataStaged, now)]))
  {
    var t0, h := NewPut(env, l, data, ct), env.digest(data);
    var w1, t1 := Noted(w, t0, MetadataStaged, now), t0.(pc := Check, existing := None);
    Stages(env, w, t0, now);
    w', t' := w1.(shards := w1.shards[OwnKey(t1) := Whole(data)]), t1.(pc := MarkPrepared, blob := Blob(NewExtent(env, t1, []), false, true));
    Writes(env, w1, t1, now);
    GoesJoin(env, w, t0, w1, t1, w', t');
  }

  /** A put of new content stops before its commit; another put of it, under a key with the same shard
      directory, finds its reference and links its layout. When the first entry expires, Recover
      takes the set from under the fresh one, although that names it. */
  lemma {:induction false} FreshPutLosesSet(env: Env, w0: World, k: Loc, l: Loc, data: Bytes, ct: string, now: nat) returns (s: System)
    requires Healthy(env, w0) && env.digest(data) !in w0.meta.refs && k != l
    requires Open(w0.meta, k, env.digest(data)) && Open(w0.meta, l, env.digest(data))
    requires ShardDir(k.key) == ShardDir(l.key) && GoodKey(k.key) && Sheltered(ShardDir(k.key))
    ensures Reaches(env, System(w0, map[]), s) && Recover(s.world, [k, l], 1, now).Some?
    ensures var w1 := Recover(s.world, [k, l], 1, now).value; var own := SetAt(ShardDir(l.key), env.digest(data));
      && l in w1.meta.staged && !Expired(w1.meta.staged[l], 1) && w1.meta.staged[l].hash == env.digest(data)
      && own in s.world.shards && Spared(w1.meta, own) && own !in w1.shards
  {
    var h := env.digest(data);
    HealthyBasics(env, w0);
    var w2, t1, t2 := TwoOnOneSet(env, w0, k, l, data, ct);
    s := System(w2, map[k := t1, l := t2]);
    NewSetTrimmed(w0, w2, k.key, h, Whole(data));
    FreshStaged(env, w0, w2, k, l, data, ct, now);
    SetTakenAway(w2, k, l, h, now);
  }

  lemma HealthyBasics(env: Env, w: World)
    requires Healthy(env, w)
    ensures RefsOk(w.meta.refs) && w.meta.staged == map[] && TrimmedDirs(w)
  {
  }

  lemma {:induction false} TwoOnOneSet(env: Env, w0: World, k: Loc, l: Loc, data: Bytes, ct: string) returns (w: World, t1: Task, t2: Task)
    requires RefsOk(w0.meta.refs) && w0.meta.staged == map[] && env.digest(data) !in w0.meta.refs && k != l && GoodKey(k.key)
    requires Open(w0.meta, k, env.digest(data)) && Open(w0.meta, l, env.digest(data))
    ensures Reaches(env, System(w0, map[]), System(w, map[k := t1, l := t2]))
    ensures var h := env.digest(data);
      && w.shards == w0.shards[SetAt(ShardDir(k.key), h) := Whole(data)]
      && w.meta == w0.meta.(refs := w0.meta.refs[h := BlobRef(NewExtent(env, NewPut(env, k, data, ct), []), 1)],
           staged := map[k := Entry(NewPut(env, k, data, ct), BlobRetained, 1)][l := Entry(NewPut(env, l, data, ct), LayoutLinked, 2)])
      && RefsOk(w.meta.refs)
  {
    var h := env.digest(data);
    var w1;
    w1, t1 := WrittenPut(env, w0, k, data, ct, 1);
    assert RefsOk(w1.meta.refs) && Open(w1.meta, l, h);
    w, t2 := FoundPut(env, w1, l, data, ct, 2);
    TwoPuts(env, w0, k, data, ct, w1, t1, l, data, ct, w, t2);
  }

  lemma {:induction false} NewSetTrimmed(w0: World, w: World, key: string, h: string, x: ShardSet)
    requires TrimmedDirs(w0) && GoodKey(key) && !Blank(h) && w.shards == w0.shards[SetAt(ShardDir(key), h) := x]
    ensures TrimmedDirs(w)
  {
    GoodKeyFolder(key);
  }

  lemma {:induction false} FreshStaged(env: Env, w0: World, w: World, k: Loc, l: Loc, data: Bytes, ct: string, now: nat)
    requires w0.meta.staged == map[] && Open(w0.meta, k, env.digest(data)) && Open(w0.meta, l, env.digest(data)) && k != l
    requires w.meta == w0.meta.(refs := w.meta.refs,
      staged := map[k := Entry(NewPut(env, k, data, ct), BlobRetained, 1)][l := Entry(NewPut(env, l, data, ct), LayoutLinked, 2)])
    ensures StagedNamesOk(w.meta.staged) && RecoverPending(w, [k, l], 1, now).Some?
    ensures !IsDue(w.meta, l, 1) && IsDue(w.meta, k, 1) && Releases(w.meta, k)
  {
    var a := RecoverOne(w, k, now);
    assert a.Some? && IsDue(w.meta, k, 1);
    assert [k, l][1..] == [l] && [l][1..] == [];
    assert a.value.meta.staged.Keys <= w.meta.staged.Keys && (l in a.value.meta.staged ==> a.value.meta.staged[l] == w.meta.staged[l]);
    assert RecoverPending(a.value, [l], 1, now) == RecoverPending(a.value, [], 1, now);
  }

  lemma {:induction false} SetTakenAway(w: World, k: Loc, l: Loc, h: string, now: nat)
    requires RefsOk(w.meta.refs) && StagedNamesOk(w.meta.staged) && TrimmedDirs(w) && k != l && RecoverPending(w, [k, l], 1, now).Some?
    requires k in w.meta.staged && IsDue(w.meta, k, 1) && Releases(w.meta, k) && w.meta.staged[k].hash == h
    requires l in w.meta.staged && !IsDue(w.meta, l, 1) && w.meta.staged[l].hash == h
    requires h in w.meta.refs && w.meta.refs[h].refCount == 1 && w.meta.refs[h].extent.dir == ShardDir(l.key)
    requires Trim(ShardDir(l.key)) == ShardDir(l.key) && Sheltered(ShardDir(l.key)) && SetAt(ShardDir(l.key), h) in w.shards
    ensures Recover(w, [k, l], 1, now).Some?
    ensures var w' := Recover(w, [k, l], 1, now).value; var own := SetAt(ShardDir(l.key), h);
      && l in w'.meta.staged && w'.meta.staged[l] == w.meta.staged[l]
      && Spared(w'.meta, own) && own !in w'.shards
  {
    var own := SetAt(ShardDir(l.key), h);
    RecoverPendingMeta(w, [k, l], 1, now);
    RecoverSweeps(w, [k, l], 1, now);
    RecoverKeepsSetIff(w, [k, l], 1, now, own);
    assert k in ExpiredClaims(w.meta, [k, l], 1, h);
    assert |ExpiredClaims(w.meta, [k, l], 1, h)| >= 1;
    CleanupExact(RecoverPending(w, [k, l], 1, now).value, own);
  }

  // --- a set two puts share ---

  /** Two puts of one new content, under keys with the same shard directory: the second has written
      the shards when the first commits; then its next intent update fails, and its rollback deletes
      the set of the committed object. Only one operation has failed. */
  lemma {:induction false} SharedSetLost(env: Env, w0: World, k: Loc, l: Loc, data: Bytes, ct: string) returns (s: System)
    requires Healthy(env, w0) && env.digest(data) !in w0.meta.refs && k != l
    requires Open(w0.meta, k, env.digest(data)) && Open(w0.meta, l, env.digest(data))
    requires ShardDir(k.key) == ShardDir(l.key) && GoodKey(k.key)
    ensures Reaches(env, System(w0, map[]), s)
    ensures k in s.world.meta.objects && s.world.meta.objects[k].hash == env.digest(data) && env.digest(data) in s.world.meta.refs
    ensures s.world.meta.staged == map[] && Get(env, s.world, k) == None && !LiveShards(env, s.world.meta.refs, s.world.shards)
  {
    var h := env.digest(data);
    HealthyBasics(env, w0);
    var w1, t1 := FreshShards(env, w0, l, data, ct, 1);
    var w2, t2 := CommittedPut(env, w1, k, data, ct);
    var w3, t3 := FreshRollback(env, w2, t1);
    TwoPuts(env, w0, l, data, ct, w1, t1, k, data, ct, w2, t2);
    var tasks := map[l := t1, k := t2];
    GoesReaches(env, w2, tasks, l, w3, t3);
    s := System(w3, tasks[l := t3]);
    ReachesJoin(env, System(w0, map[]), System(w2, tasks), s);
    SetGone(env, w3, k, h, ShardDir(k.key));
  }

  /** A put of new content on a free key, to its end. */
  lemma {:induction false} CommittedPut(env: Env, w: World, l: Loc, data: Bytes, ct: string) returns (w': World, t': Task)
    requires RefsOk(w.meta.refs) && Open(w.meta, l, env.digest(data)) && env.digest(data) !in w.meta.refs && GoodKey(l.key)
    ensures Goes(env, w, NewPut(env, l, data, ct), w', t')
    ensures var h := env.digest(data); var e := NewExtent(env, NewPut(env, l, data, ct), []);
      && l in w'.meta.objects && w'.meta.objects[l].hash == h && w'.meta.staged == w.meta.staged && w'.meta.buckets == w.meta.buckets
      && h in w'.meta.refs && w'.meta.refs[h].extent == e
      && l in w'.layouts && w'.layouts[l].hash == h && w'.layouts[l].extent == e
      && w'.shards == w.shards[SetAt(ShardDir(l.key), h) := Whole(data)]
  {
    var w1, t1 := WrittenPut(env, w, l, data, ct, 1);
    w', t' := CommittedWorld(w1, t1), t1.(pc := Done, hold := Due);
    Commits(env, w1, t1, 1);
    GoesJoin(env, w, NewPut(env, l, data, ct), w1, t1, w', t');
    assert w.meta.staged[l := w1.meta.staged[l]] - {l} == w.meta.staged;
  }

  lemma SetGone(env: Env, w: World, k: Loc, h: string, dir: string)
    requires h in w.meta.refs && w.meta.refs[h].extent.dir == dir && SetAt(dir, h) !in w.shards
    requires k in w.layouts && w.layouts[k].hash == h && w.layouts[k].extent.dir == dir
    ensures Get(env, w, k) == None && !LiveShards(env, w.meta.refs, w.shards)
  {
    assert !Stored(env, w.shards, h, w.meta.refs[h].extent);
  }

  lemma {:induction false} FreshRollback(env: Env, w: World, t: Task) returns (w': World, t': Task)
    requires t.pc == MarkPrepared && t.existing == None && t.blob.created && t.hold == Nothing && CanPut(w.meta, t) && t.req.loc in w.meta.staged
    ensures Goes(env, w, t, w', t')
    ensures w' == DropShards(w.(layouts := w.layouts - {t.req.loc}, meta := w.meta.(staged := w.meta.staged - {t.req.loc})), t.blob.extent.dir, t.req.hash)
  {
    Fails(env, w, t);
    var w1, t1 := Phases.Unlinked(w, Roll(t), false), Roll(t).(pc := RbRef);
    Unlinks(env, w, Roll(t), false);
    GoesJoin(env, w, t, w, Roll(t), w1, t1);
    w', t' := DropShards(w1, t.blob.extent.dir, t.req.hash), t1.(pc := Done);
    Discards(env, w1, t1);
    GoesJoin(env, w, t, w1, t1, w', t');
  }
}
