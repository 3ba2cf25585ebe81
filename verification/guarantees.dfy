/** The promises of the store's requests, from a healthy store. */
module Guarantees {
  import opened Names
  import opened Metadata
  import opened Protocol
  import opened Conservation
  import opened Recovery
  import opened Reconcile
  import opened Crash
  import opened Healing
  import opened Solo
  import opened Requests

  // --- a put that fails and rolls back ---

  /** Every layout is the one its object and reference determine. */
  predicate ExactLinks(w: World) {
    forall l <- w.meta.objects ::
      && w.meta.objects[l].hash in w.meta.refs && w.meta.objects[l].updatedAt != 0 && l in w.layouts
      && w.layouts[l] == PreviousLayout(Existing(w.meta.objects[l], Some(w.meta.refs[w.meta.objects[l].hash])), 0)
  }

  lemma {:induction false} SameMaps<V>(a: map<Loc, V>, b: map<Loc, V>, l: Loc)
    requires a - {l} == b - {l} && (l in a <==> l in b) && (l in a ==> a[l] == b[l])
    ensures a == b
  {
    forall k
      ensures (k in a <==> k in b) && (k in a ==> a[k] == b[k])
    {
      if k != l { SameElsewhere(a, b, l, k); }
    }
  }

  lemma {:induction false} RestoredLayouts(w0: World, y: map<Loc, Layout>, l: Loc, t: Task)
    requires ExactLinks(w0) && LayoutAt(w0.layouts, y, l, t) && t.pc == Done && t.failed && !CommitDone(t)
    requires t.existing == LoadExisting(w0, l)
    ensures y == if l in w0.meta.objects then w0.layouts else w0.layouts - {l}
  {
    if l in w0.meta.objects {
      SameMaps(y, w0.layouts, l);
    } else {
      assert y == y - {l};
    }
  }

  /** A put that fails after it began to change things, and whose rollback goes through, leaves
      the metadata and every layout as they were (a stray layout under a key without an object is
      removed), and the shard sets too, except that a set it wrote itself, which no reference
      named, is gone. */
  lemma {:induction false} FailedPutRestores(env: Env, w0: World, l: Loc, data: Bytes, ct: string, inputs: seq<Input>, w: World, t: Task)
    requires CollisionFree(env) && Healthy(env, w0) && ExactLinks(w0) && GoodKey(l.key)
    requires Alone(env, w0, NewPut(env, l, data, ct), inputs, w, t) && t.pc == Done && t.failed
    ensures w.meta == w0.meta
    ensures w.layouts == if l in w0.meta.objects then w0.layouts else w0.layouts - {l}
    ensures w.shards == w0.shards ||
      (env.digest(data) !in w0.meta.refs && w.shards == w0.shards - {SetAt(ShardDir(l.key), env.digest(data))})
  {
    var t0 := NewPut(env, l, data, ct);
    FreshStarts(env, w0, l, t0);
    AloneKeeps(env, w0, w0, l, t0, inputs, w, t);
    AloneRequest(env, w0, t0, inputs, w, t);
    assert w.meta.staged.Keys <= map[l := t].Keys;
    RestoredMeta(w0.meta, w.meta, l, t);
    RestoredLayouts(w0, w.layouts, l, t);
    RestoredShards(w0, w.shards, t);
  }

  lemma {:induction false} RestoredMeta(m0: Meta, m: Meta, l: Loc, t: Task)
    requires m0.staged == map[] && MetaAt(m0, m, t) && m.staged.Keys <= {l} && Cleared(m, l, t) && t.pc == Done && t.failed
    ensures m == m0
  {
    assert m.staged == map[];
  }

  lemma {:induction false} RestoredShards(w0: World, x: map<SetKey, ShardSet>, t: Task)
    requires ShardsAt(w0.shards, x, t) && BlobAt(w0.meta, t) && t.pc == Done && t.failed && !CommitDone(t) && t.req.kind == Put
    ensures x == w0.shards || (t.req.hash !in w0.meta.refs && x == w0.shards - {OwnKey(t)})
  {
    if t.blob.created {
      assert x == x - {OwnKey(t)};
    }
  }

  lemma {:induction false} StepRequest(env: Env, w: World, t: Task, i: Input)
    ensures Step(env, w, t, i).1.req == t.req
  {
  }

  lemma {:induction false} AloneRequest(env: Env, w: World, t: Task, inputs: seq<Input>, w': World, t': Task)
    requires Alone(env, w, t, inputs, w', t')
    ensures t'.req == t.req
    decreases |inputs|
  {
    if inputs != [] {
      StepRequest(env, w, t, inputs[0]);
      AloneRequest(env, Step(env, w, t, inputs[0]).0, Step(env, w, t, inputs[0]).1, inputs[1..], w', t');
    }
  }

  // --- stopping anywhere ---

  /** The reference points where it did, and has its set exactly if its directory is sheltered. */
  ghost predicate SetFollows(env: Env, w: World, w1: World, h: string)
    requires h in w1.meta.refs
  {
    && h in w.meta.refs && w1.meta.refs[h].extent == w.meta.refs[h].extent
    && (Stored(env, w1.shards, h, w1.meta.refs[h].extent) <==> Sheltered(w.meta.refs[h].extent.dir))
    && (SetAt(w.meta.refs[h].extent.dir, h) in w1.shards <==> Sheltered(w.meta.refs[h].extent.dir))
  }

  /** Exactly the references with sheltered directories keep their sets through Recover. */
  lemma {:induction false} RecoverLive(env: Env, w: World, order: seq<Loc>, cutoff: nat, now: nat, h: string)
    requires RefsOk(w.meta.refs) && StagedNamesOk(w.meta.staged) && AllDue(w.meta, order, cutoff) && TrimmedDirs(w)
    requires LiveShards(env, w.meta.refs, w.shards) && SoundRefs(env, w.meta.refs)
    requires RecoverPending(w, order, cutoff, now).Some?
    ensures Recover(w, order, cutoff, now).Some?
    ensures var w1 := Recover(w, order, cutoff, now).value; TrimmedDirs(w1) && (h in w1.meta.refs ==> SetFollows(env, w, w1, h))
  {
    RecoverSweeps(w, order, cutoff, now);
    RecoverPendingMeta(w, order, cutoff, now);
    RecoverPendingShards(w, order, cutoff, now);
    var w1 := Recover(w, order, cutoff, now).value;
    assert w1.meta.staged == map[];
    if h in w1.meta.refs {
      assert Stored(env, w.shards, h, w.meta.refs[h].extent);
      assert Sound(env, h, w.meta.refs[h].extent);
      RecoverKeepsReferencedSetIff(w, order, cutoff, now, h);
    }
  }

  /** Every committed object's reference has a directory that the sweep recognises. */
  predicate AllSheltered(m: Meta) {
    forall l <- m.objects :: m.objects[l].hash in m.refs ==> Sheltered(m.refs[m.objects[l].hash].extent.dir)
  }

  /** After a complete Dedupe every reference has its set exactly when no object's set was swept. */
  lemma {:induction false} DedupeLive(env: Env, w: World, w1: World, w2: World)
    requires Progress(w1, w2) && Referenced(w1.meta) && Balanced(w2.meta) && w1.meta.objects == w.meta.objects
    requires forall h <- w1.meta.refs :: SetFollows(env, w, w1, h)
    ensures LiveShards(env, w2.meta.refs, w2.shards) <==> AllSheltered(w.meta)
  {
    forall h | h in w2.meta.refs
      ensures Users(w.meta.objects, h) != {} && h in w1.meta.refs && w2.meta.refs[h].extent == w1.meta.refs[h].extent
      ensures Stored(env, w2.shards, h, w2.meta.refs[h].extent) <==> Sheltered(w.meta.refs[h].extent.dir)
    {
      UsedReference(w1, w2, h);
      assert SetFollows(env, w, w1, h);
    }
    if !AllSheltered(w.meta) {
      var l :| l in w.meta.objects && w.meta.objects[l].hash in w.meta.refs && !Sheltered(w.meta.refs[w.meta.objects[l].hash].extent.dir);
      var h := w.meta.objects[l].hash;
      assert l in w2.meta.objects && w2.meta.objects[l].hash == h;
      assert l in Users(w2.meta.objects, h);
      assert Count(w2.meta.refs, h) >= 1;
      assert h in w2.meta.refs;
    } else {
      forall h | h in w2.meta.refs
        ensures Stored(env, w2.shards, h, w2.meta.refs[h].extent)
      {
        var l :| l in Users(w.meta.objects, h);
        assert l in w.meta.objects && w.meta.objects[l].hash == h;
      }
    }
  }

  lemma {:induction false} UsedReference(w1: World, w2: World, h: string)
    requires Progress(w1, w2) && Referenced(w1.meta) && Balanced(w2.meta) && h in w2.meta.refs
    ensures Users(w1.meta.objects, h) != {} && h in w1.meta.refs && w2.meta.refs[h].extent == w1.meta.refs[h].extent
    ensures forall k: SetKey :: k.hash == h ==> (k in w2.shards <==> k in w1.shards) && (k in w1.shards ==> w2.shards[k] == w1.shards[k])
  {
    SameUsers(w1.meta.objects, w2.meta.objects, h);
    assert Count(w2.meta.refs, h) == |Users(w2.meta.objects, h)|;
    assert w2.meta.refs[h].refCount >= 1;
    var l :| l in Users(w1.meta.objects, h);
    assert w1.meta.objects[l].hash in w1.meta.refs;
  }

  /** The stop neither lost nor misled the layout of the key, and the sweep recognises the shard
      directory of every object. */
  predicate Heals(w: World, l: Loc, t: Task) {
    !Lost(System(w, map[l := t]), l) && !Misled(w, l) && AllSheltered(w.meta)
  }

  /** Stop a put or a delete after any step; run Recover with its entry expired, then Dedupe until
      nothing is left to fix. The store is healthy again exactly when the stop neither lost nor
      misled the layout (see MisledIff) and no object's shard directory strays from its folder; then
      its contents are wholly old before the commit point and wholly new after it. Recover on its
      own already keeps exactly the sets of the sheltered references it keeps. */
  lemma {:induction false} StopIsAtomic(env: Env, w0: World, l: Loc, t0: Task, inputs: seq<Input>, w: World, t: Task,
      order: seq<Loc>, cutoff: nat, now: nat, fs: seq<Fix>)
    requires CollisionFree(env) && Healthy(env, w0) && Fresh(env, l, t0) && Alone(env, w0, t0, inputs, w, t)
    requires AllDue(w.meta, order, cutoff)
    ensures Recover(w, order, cutoff, now).Some?
    ensures var w1 := Recover(w, order, cutoff, now).value;
      && Ready(w1) && Covered(w1.meta)
      && (forall h <- w1.meta.refs :: Stored(env, w1.shards, h, w1.meta.refs[h].extent) <==> Sheltered(w1.meta.refs[h].extent.dir))
      && (FixesEnabled(w1, fs) && Terminal(ApplyFixes(w1, fs)) ==>
            var w2 := ApplyFixes(w1, fs);
            && (Healthy(env, w2) <==> Heals(w, l, t))
            && (Healthy(env, w2) ==> Contents(env, w2) == Effect(Contents(env, w0), l, t)))
  {
    FreshStarts(env, w0, l, t0);
    AloneKeeps(env, w0, w0, l, t0, inputs, w, t);
    var s := System(w, map[l := t]);
    SaneCovered(env, s);
    RecoverAfterStop(env, s, order, cutoff, now);
    var w1 := Recover(w, order, cutoff, now).value;
    forall h | h in w1.meta.refs
      ensures SetFollows(env, w, w1, h)
    {
      RecoverLive(env, w, order, cutoff, now, h);
    }
    if FixesEnabled(w1, fs) && Terminal(ApplyFixes(w1, fs)) {
      RecoverLive(env, w, order, cutoff, now, "");
      StopThenDedupe(env, w0, l, t0, w, t, w1, fs);
    }
  }

  lemma {:induction false} StopThenDedupe(env: Env, w0: World, l: Loc, t0: Task, w: World, t: Task, w1: World, fs: seq<Fix>)
    requires CollisionFree(env) && Healthy(env, w0) && SoloInv(env, w0, w, l, t)
    requires Recovered(env, System(w, map[l := t]), w1) && TrimmedDirs(w1)
    requires FixesEnabled(w1, fs) && Terminal(ApplyFixes(w1, fs))
    requires forall h <- w1.meta.refs :: SetFollows(env, w, w1, h)
    ensures var w2 := ApplyFixes(w1, fs);
      && (Healthy(env, w2) <==> Heals(w, l, t))
      && (Healthy(env, w2) ==> Contents(env, w2) == Effect(Contents(env, w0), l, t))
  {
    var s, w2 := System(w, map[l := t]), ApplyFixes(w1, fs);
    DedupeHeals(env, s, w1, fs);
    CoveredRefs(w1.meta);
    DedupedSets(env, w, w1, fs);
    OnlyOwnHurt(env, w0, w, l, t);
    HealedHealthy(env, w, l, t, w2);
    if Healthy(env, w2) {
      HealedContents(env, w0, w, l, t, w2);
    }
  }

  lemma {:induction false} DedupedSets(env: Env, w: World, w1: World, fs: seq<Fix>)
    requires Ready(w1) && FixesEnabled(w1, fs) && Balanced(ApplyFixes(w1, fs).meta)
    requires TrimmedDirs(w1) && w1.meta.objects == w.meta.objects && Referenced(w1.meta)
    requires forall h <- w1.meta.refs :: SetFollows(env, w, w1, h)
    ensures var w2 := ApplyFixes(w1, fs); TrimmedDirs(w2) && (LiveShards(env, w2.meta.refs, w2.shards) <==> AllSheltered(w.meta))
  {
    var w2 := ApplyFixes(w1, fs);
    FixesProgress(w1, fs);
    DedupeLive(env, w, w1, w2);
    assert w2.shards.Keys <= w1.shards.Keys;
  }

  /** Other keys' layouts are neither lost nor misled. */
  lemma {:induction false} OnlyOwnHurt(env: Env, w0: World, w: World, l: Loc, t: Task)
    requires Healthy(env, w0) && SoloInv(env, w0, w, l, t)
    ensures forall k <- w.meta.objects :: k != l ==> !Lost(System(w, map[l := t]), k) && !Misled(w, k)
  {
    forall k | k in w.meta.objects && k != l
      ensures !Lost(System(w, map[l := t]), k) && !Misled(w, k)
    {
      OtherLinked(env, w0, w, l, t, k);
    }
  }

  lemma {:induction false} HealedHealthy(env: Env, w: World, l: Loc, t: Task, w2: World)
    requires Healed(env, System(w, map[l := t]), w2) && TrimmedDirs(w2)
    requires forall k <- w.meta.objects :: k != l ==> !Lost(System(w, map[l := t]), k) && !Misled(w, k)
    requires LiveShards(env, w2.meta.refs, w2.shards) <==> AllSheltered(w.meta)
    ensures Healthy(env, w2) <==> Heals(w, l, t)
  {
    AllLinkedIff(env, w, l, t, w2);
  }

  lemma {:induction false} AllLinkedIff(env: Env, w: World, l: Loc, t: Task, w2: World)
    requires Healed(env, System(w, map[l := t]), w2)
    requires forall k <- w.meta.objects :: k != l ==> !Lost(System(w, map[l := t]), k) && !Misled(w, k)
    ensures (forall k <- w2.meta.objects :: Linked(w2, k)) <==> !Lost(System(w, map[l := t]), l) && !Misled(w, l)
  {
    var s := System(w, map[l := t]);
    assert w2.meta.objects.Keys == w.meta.objects.Keys;
    if l in w.meta.objects {
      assert Linked(w2, l) <==> !Lost(s, l) && !Misled(s.world, l);
    }
    forall k | k in w2.meta.objects && k != l
      ensures Linked(w2, k)
    {
      assert !Lost(s, k) && !Misled(w, k);
    }
  }

  lemma {:induction false} HealedContents(env: Env, w0: World, w: World, l: Loc, t: Task, w2: World)
    requires CollisionFree(env) && Healthy(env, w0) && SoloInv(env, w0, w, l, t)
    requires Healthy(env, w2) && SameContents(w.meta.objects, w2.meta.objects)
    ensures Contents(env, w2) == Effect(Contents(env, w0), l, t)
  {
    TaskFacts(env, w, l, t);
    ContentsHashes(env, w0);
    EffectHashes(env, Contents(env, w0), w0.meta, w.meta, l, t);
    ContentsByHash(env, w2, Effect(Contents(env, w0), l, t));
  }

  /** The loss is real: put an object's own content again, let the second intent update fail and
      stop after the first operation of the rollback. */
  lemma {:induction false} LayoutCanBeLost(env: Env, w0: World, l: Loc, data: Bytes, ct: string)
    returns (inputs: seq<Input>, w: World, t: Task)
    requires Healthy(env, w0) && l in w0.meta.objects && w0.meta.objects[l].hash == env.digest(data)
    ensures Alone(env, w0, NewPut(env, l, data, ct), inputs, w, t) && Lost(System(w, map[l := t]), l)
  {
    var ok, bad := Input(Success, 1, []), Input(Failure, 1, []);
    var t0 := NewPut(env, l, data, ct);
    assert EntryOk(w0.meta.buckets, l, w0.meta.objects[l], Committed) && Linked(w0, l);
    var w1, t1 := StagedAgain(env, w0, l, t0, ok);
    inputs, w, t := FailsAndStops(env, w0, t0, [ok, ok, ok], w1, t1, bad, ok);
  }

  lemma {:induction false} FailsAndStops(env: Env, w0: World, t0: Task, inputs: seq<Input>, w1: World, t1: Task, bad: Input, ok: Input)
    returns (all: seq<Input>, w: World, t: Task)
    requires Alone(env, w0, t0, inputs, w1, t1) && t1.pc == MarkPrepared && bad.outcome == Failure && ok.outcome == Success
    requires t1.req.loc in w1.meta.objects && t1.req.loc in w1.meta.staged && w1.meta.staged[t1.req.loc].stage == MetadataStaged
    ensures Alone(env, w0, t0, all, w, t) && Lost(System(w, map[t1.req.loc := t]), t1.req.loc)
  {
    var t2 := Roll(t1);
    all, w, t := inputs + [bad] + [ok], Unlink(w1, t1.req.loc), t2.(pc := RbUnstage);
    MarkFails(env, w1, t1, bad);
    AloneThen(env, w0, t0, inputs, w1, t1, bad);
    UnlinksFirst(env, w1, t2, ok);
    AloneThen(env, w0, t0, inputs + [bad], w1, t2, ok);
  }

  lemma MarkFails(env: Env, w: World, t: Task, bad: Input)
    requires t.pc == MarkPrepared && bad.outcome == Failure
    ensures Step(env, w, t, bad) == (w, Roll(t))
  {
  }

  lemma UnlinksFirst(env: Env, w: World, t: Task, ok: Input)
    requires t.pc == RbLayout && ok.outcome == Success
    ensures Step(env, w, t, ok) == (Unlink(w, t.req.loc), t.(pc := RbUnstage))
  {
  }

  lemma {:induction false} StagedAgain(env: Env, w0: World, l: Loc, t0: Task, ok: Input) returns (w: World, t: Task)
    requires l in w0.meta.objects && EntryOk(w0.meta.buckets, l, w0.meta.objects[l], Committed)
    requires t0.pc == Load && t0.req.kind == Put && t0.req.loc == l && t0.req.hash == w0.meta.objects[l].hash && t0.req.hash in w0.meta.refs
    requires ok.outcome == Success
    ensures Alone(env, w0, t0, [ok, ok, ok], w, t) && t.pc == MarkPrepared && t.req == t0.req
    ensures w.meta.objects == w0.meta.objects && l in w.meta.staged && w.meta.staged[l].stage == MetadataStaged
  {
    var (w1, t1) := Step(env, w0, t0, ok);
    var (w2, t2) := Step(env, w1, t1, ok);
    w, t := Step(env, w2, t2, ok).0, Step(env, w2, t2, ok).1;
    assert Alone(env, w0, t0, [], w0, t0);
    AloneThen(env, w0, t0, [], w0, t0, ok);
    AloneThen(env, w0, t0, [ok], w1, t1, ok);
    AloneThen(env, w0, t0, [ok, ok], w2, t2, ok);
    assert [ok] + [ok] == [ok, ok] && [ok, ok] + [ok] == [ok, ok, ok] && [] + [ok] == [ok];
  }
}
