/** Which keys can be read back after a put: the engine trims the shard directory when it links an
    object but not when it writes the shards. */
module Keys {
  import opened Names
  import opened Metadata
  import opened Protocol
  import opened Conservation
  import opened Recovery
  import opened Crash
  import opened Healing
  import opened Solo
  import opened Requests
  import opened Guarantees
  import opened Faultless

  /** The shard sets of one content. */
  function SetsOf(shards: map<SetKey, ShardSet>, h: string): map<SetKey, ShardSet> {
    map k | k in shards && k.hash == h :: shards[k]
  }

  /** The sets of the new content: those from before, and the one the put wrote. */
  predicate SetsAt(env: Env, w0: World, w: World, t: Task) {
    && SetsOf(w.shards, t.req.hash) ==
       (if t.blob.created then SetsOf(w0.shards, t.req.hash)[OwnKey(t) := Whole(t.req.data)] else SetsOf(w0.shards, t.req.hash))
    && (t.blob.created ==> t.blob.extent.dir == ShardDir(t.req.loc.key) && Describes(env, t.blob.extent, t.req.data))
    && (t.pc == Load || t.pc == StageMeta || t.pc == Check || t.pc == Write ==> !t.blob.created)
  }

  ghost predicate OnSets(w: World, t: Task, w': World, t': Task) {
    && w'.shards == w.shards && t'.req == t.req && t'.blob == t.blob
    && (t'.pc == Load || t'.pc == StageMeta || t'.pc == Check || t'.pc == Write ==>
          t.pc == Load || t.pc == StageMeta || t.pc == Check || t.pc == Write)
  }

  lemma {:induction false} MarkOnSets(w: World, t: Task, i: Input)
    requires t.pc == StageMeta || t.pc == MarkPrepared || t.pc == MarkLinked || t.pc == MarkRetained
    ensures OnSets(w, t, StepMark(w, t, i).0, StepMark(w, t, i).1)
  {
  }

  lemma {:induction false} OtherOnSets(env: Env, w: World, t: Task, i: Input)
    requires t.pc == Load || t.pc == Link || t.pc == Retain || t.pc == Commit || t.pc == Unstage || t.pc == Release || t.pc == Done
    ensures OnSets(w, t, Step(env, w, t, i).0, Step(env, w, t, i).1)
  {
  }

  lemma {:induction false} WriteSetsAt(env: Env, w0: World, w: World, t: Task, i: Input)
    requires SetsAt(env, w0, w, t) && (t.pc == Check || t.pc == Write) && i.outcome == Success
    ensures SetsAt(env, w0, Step(env, w, t, i).0, Step(env, w, t, i).1)
  {
    var w' := Step(env, w, t, i).0;
    if t.pc == Write {
      assert SetsOf(w'.shards, t.req.hash) == SetsOf(w.shards, t.req.hash)[OwnKey(t) := Whole(t.req.data)];
    }
  }

  lemma {:induction false} DropSetsAt(env: Env, w0: World, w: World, t: Task, i: Input)
    requires SetsAt(env, w0, w, t) && t.pc == DropReleased && t.existing.Some? && t.existing.value.meta.hash != t.req.hash
    ensures SetsAt(env, w0, Step(env, w, t, i).0, Step(env, w, t, i).1)
  {
    var w' := Step(env, w, t, i).0;
    assert SetsOf(w'.shards, t.req.hash) == SetsOf(w.shards, t.req.hash);
  }

  lemma {:induction false} StepSetsAt(env: Env, w0: World, w: World, l: Loc, t: Task, i: Input)
    requires SetsAt(env, w0, w, t) && Smooth(w.meta, l, t) && i.outcome == Success
    requires t.pc != DeleteMeta && t.pc != DeleteLayout
    requires t.pc == DropReleased ==> t.existing.Some? && t.existing.value.meta.hash != t.req.hash
    ensures SetsAt(env, w0, Step(env, w, t, i).0, Step(env, w, t, i).1)
  {
    match t.pc
    case StageMeta | MarkPrepared | MarkLinked | MarkRetained => MarkOnSets(w, t, i);
    case Check | Write => WriteSetsAt(env, w0, w, t, i);
    case DropReleased => DropSetsAt(env, w0, w, t, i);
    case _ => OtherOnSets(env, w, t, i);
  }

  ghost predicate KeyInv(env: Env, w0: World, w: World, l: Loc, t: Task) {
    && Steady(System(w, map[l := t])) && SoloMeta(w0.meta, w.meta, l, t)
    && LayoutAt(w0.layouts, w.layouts, l, t)
    && Smooth(w.meta, l, t) && SetsAt(env, w0, w, t)
  }

  /** What does not change during a put, and what its arguments promise. */
  predicate PutArguments(env: Env, w0: World, l: Loc, r: Request) {
    && r.kind == Put && r.loc == l && r.hash == env.digest(r.data) && !Blank(r.hash)
    && Trimmed(l.key) && !InvalidLoc(l) && l.bucket in w0.meta.buckets && RefNamesOk(w0.meta.refs) && CountsOk(w0.meta.refs)
  }

  lemma {:induction false} KeyAdmissible(env: Env, w0: World, w: World, l: Loc, t: Task)
    requires KeyInv(env, w0, w, l, t) && PutArguments(env, w0, l, t.req)
    ensures Admissible(w.meta, l, t) && TaskOk(w.meta.objects, l, t) && Fits(w, l, t)
    ensures t.pc == Load || t.pc == DeleteLayout ==> l !in w.meta.staged
  {
    var s := System(w, map[l := t]);
    assert l in s.tasks && s.tasks[l] == t;
    assert TaskOk(w.meta.objects, l, t) && Fits(w, l, t);
    ArgumentsAdmissible(env, w0, w, l, t);
  }

  lemma {:induction false} ArgumentsAdmissible(env: Env, w0: World, w: World, l: Loc, t: Task)
    requires SoloMeta(w0.meta, w.meta, l, t) && SetsAt(env, w0, w, t) && Fits(w, l, t) && PutArguments(env, w0, l, t.req)
    ensures Admissible(w.meta, l, t)
  {
    RetainHasRef(w0.meta, w.meta, l, t);
    ShardDirTrimmed(l.key);
  }

  lemma {:induction false} ReplacedDiffers(w0: World, w: World, l: Loc, t: Task)
    requires Steady(System(w, map[l := t])) && SoloMeta(w0.meta, w.meta, l, t) && t.req.kind == Put
    ensures t.pc == DropReleased ==> t.existing.Some? && t.existing.value.meta.hash != t.req.hash
  {
    if t.pc == DropReleased {
      HeldRefExists(System(w, map[l := t]), l, t.req.hash);
    }
  }

  lemma {:induction false} SteadyStep(env: Env, w: World, l: Loc, t: Task, i: Input, w': World, t': Task)
    requires Steady(System(w, map[l := t])) && Orderly(t, i) && Step(env, w, t, i) == (w', t')
    ensures Steady(System(w', map[l := t'])) && TaskOk(w'.meta.objects, l, t')
  {
    NextSteady(env, System(w, map[l := t]), Advance(l, i));
    NextAlone(env, w, l, t, i, w', t');
    var s' := System(w', map[l := t']);
    assert l in s'.tasks && s'.tasks[l] == t';
  }

  lemma {:induction false} KeyStepParts(env: Env, w0: World, w: World, l: Loc, t: Task, i: Input)
    requires SoloMeta(w0.meta, w.meta, l, t) && LayoutAt(w0.layouts, w.layouts, l, t) && SetsAt(env, w0, w, t)
    requires Smooth(w.meta, l, t) && Admissible(w.meta, l, t) && Fits(w, l, t) && PutArguments(env, w0, l, t.req) && i.outcome == Success
    requires t.pc == Load || t.pc == DeleteLayout ==> l !in w.meta.staged
    requires t.pc == DropReleased ==> t.existing.Some? && t.existing.value.meta.hash != t.req.hash
    ensures var (w', t') := Step(env, w, t, i);
      && MetaAt(w0.meta, w'.meta, t') && BlobAt(w0.meta, t') && LayoutAt(w0.layouts, w'.layouts, l, t')
      && Smooth(w'.meta, l, t') && SetsAt(env, w0, w', t')
  {
    StepMetaAt(env, w0.meta, w, l, t, i);
    StepLayoutAt(env, w, l, t, i, w0.layouts);
    StepSmooth(env, w, l, t, i);
    StepSetsAt(env, w0, w, l, t, i);
  }

  lemma {:induction false} KeyStep(env: Env, w0: World, w: World, l: Loc, t: Task, i: Input, w': World, t': Task)
    requires KeyInv(env, w0, w, l, t) && PutArguments(env, w0, l, t.req) && i.outcome == Success
    requires Step(env, w, t, i) == (w', t')
    ensures KeyInv(env, w0, w', l, t')
  {
    KeyAdmissible(env, w0, w, l, t);
    ReplacedDiffers(w0, w, l, t);
    SteadyStep(env, w, l, t, i, w', t');
    KeyStepParts(env, w0, w, l, t, i);
  }

  lemma {:induction false} AloneKey(env: Env, w0: World, w: World, l: Loc, t: Task, inputs: seq<Input>, w': World, t': Task)
    requires KeyInv(env, w0, w, l, t) && PutArguments(env, w0, l, t.req)
    requires AllSucceed(inputs) && Alone(env, w, t, inputs, w', t')
    ensures KeyInv(env, w0, w', l, t') && t'.req == t.req
    decreases |inputs|
  {
    if inputs != [] {
      var (w1, t1) := Step(env, w, t, inputs[0]);
      KeyStep(env, w0, w, l, t, inputs[0], w1, t1);
      StepRequest(env, w, t, inputs[0]);
      AloneKey(env, w0, w1, l, t1, inputs[1..], w', t');
    }
  }

  lemma {:induction false} KeyStarts(env: Env, w0: World, l: Loc, data: Bytes, ct: string)
    requires AtRest(env, w0)
    ensures KeyInv(env, w0, w0, l, NewPut(env, l, data, ct))
  {
    var t, s0 := NewPut(env, l, data, ct), System(w0, map[]);
    AtRestSane(env, w0);
    StartKeeps(s0, l, t);
    StartSteady(s0, l, t);
    assert s0.tasks[l := t] == map[l := t];
  }

  /** The set the new layout points at was there before the put, whole. */
  predicate SetWaiting(env: Env, w0: World, l: Loc, data: Bytes) {
    var k := SetAt(Trim(ShardDir(l.key)), env.digest(data));
    k in w0.shards && w0.shards[k] == Whole(data)
  }

  /** Trimming changes the folder exactly when it changes the directory. */
  lemma {:induction false} TrimChangesFolder(key: string)
    requires Trimmed(key) && key != ""
    ensures var d := ShardDir(key); Folder(Trim(d)) == Folder(d) <==> Trim(d) == d
  {
    var d := ShardDir(key);
    ShardDirTrimmed(key);
    if |d| == 2 && IsSpace(d[1]) {
      assert d == [d[0], d[1]] && d[..1] == [d[0]];
      assert TrimRight([d[0]]) == [d[0]];
      FolderOfTwo(d[0], d[1]);
      FolderOfOne(d[0]);
      FolderOfOne(d[1]);
    }
  }

  lemma {:induction false} ReadsBack(env: Env, w0: World, w: World, l: Loc, t: Task)
    requires CollisionFree(env) && Healthy(env, w0) && t.req.hash == env.digest(t.req.data)
    requires BlobKnown(w0.meta, t) && SetsAt(env, w0, w, t) && IsNew(w.layouts, l, t) && l in w.meta.objects && t.req.loc == l
    requires Folder(Trim(ShardDir(l.key))) == Folder(ShardDir(l.key)) <==> Trim(ShardDir(l.key)) == ShardDir(l.key)
    ensures Get(env, w, l) == Some(t.req.data) <==>
      t.req.hash in w0.meta.refs || Trim(ShardDir(l.key)) == ShardDir(l.key) || SetWaiting(env, w0, l, t.req.data)
  {
    var h := t.req.hash;
    var k := SetAt(Trim(t.blob.extent.dir), h);
    assert k in w.shards <==> k in SetsOf(w.shards, h);
    assert k in w0.shards <==> k in SetsOf(w0.shards, h);
    if h in w0.meta.refs {
      assert Stored(env, w0.shards, h, w0.meta.refs[h].extent);
      assert Sound(env, h, w0.meta.refs[h].extent);
    }
    if k in w0.shards && w0.shards[k].Whole? && env.digest(w0.shards[k].data) == h {
      assert w0.shards[k].data == t.req.data;
    }
  }

  /** A put without faults can be read back exactly when the second character of its key is not
      white space, or the content was stored before, or its set happens to be there already. */
  lemma {:induction false} PutReadsBackIff(env: Env, w0: World, l: Loc, data: Bytes, ct: string, inputs: seq<Input>, w: World, t: Task)
    requires CollisionFree(env) && Healthy(env, w0)
    requires Trimmed(l.key) && !InvalidLoc(l) && l.bucket in w0.meta.buckets
    requires AllSucceed(inputs) && Alone(env, w0, NewPut(env, l, data, ct), inputs, w, t) && t.pc == Done
    ensures Get(env, w, l) == Some(data) <==>
      |l.key| < 2 || !IsSpace(l.key[1]) || env.digest(data) in w0.meta.refs || SetWaiting(env, w0, l, data)
  {
    var t0 := NewPut(env, l, data, ct);
    KeyStarts(env, w0, l, data, ct);
    AloneKey(env, w0, w0, l, t0, inputs, w, t);
    ShardDirTrimmed(l.key);
    TrimChangesFolder(l.key);
    FinishedKey(env, w0, w, l, t);
    ReadsBack(env, w0, w, l, t);
  }

  lemma {:induction false} FinishedKey(env: Env, w0: World, w: World, l: Loc, t: Task)
    requires KeyInv(env, w0, w, l, t) && t.pc == Done && t.req.kind == Put && t.req.loc == l
    ensures BlobKnown(w0.meta, t) && SetsAt(env, w0, w, t) && IsNew(w.layouts, l, t) && l in w.meta.objects
  {
  }

  /** So "a b" cannot be read back from a store that never held its content. */
  lemma {:induction false} SpacedKeyUnreadable(env: Env, w0: World, data: Bytes, inputs: seq<Input>, w: World, t: Task)
    requires CollisionFree(env) && Healthy(env, w0) && "b" in w0.meta.buckets
    requires env.digest(data) !in w0.meta.refs && !SetWaiting(env, w0, Loc("b", "a b"), data)
    requires AllSucceed(inputs) && Alone(env, w0, NewPut(env, Loc("b", "a b"), data, ""), inputs, w, t) && t.pc == Done
    ensures Get(env, w, Loc("b", "a b")) != Some(data)
  {
    var l := Loc("b", "a b");
    assert !IsSpace(l.bucket[0]) && !IsSpace(l.key[0]) && IsSpace(l.key[1]);
    PutReadsBackIff(env, w0, l, data, "", inputs, w, t);
  }

  // --- what Recover leaves of it ---

  lemma {:induction false} NothingPending(w: World, order: seq<Loc>, cutoff: nat, now: nat)
    requires w.meta.staged == map[]
    ensures RecoverPending(w, order, cutoff, now) == Some(w)
    decreases |order|
  {
    if order != [] {
      NothingPending(w, order[1..], cutoff, now);
    }
  }

  /** Recover on a healthy store: an object can still be read exactly when the shard directory of its
      reference is the name of its folder, or leads where the sweep does not come. */
  lemma {:induction false} RecoverKeepsObjectIff(env: Env, w: World, l: Loc, order: seq<Loc>, cutoff: nat, now: nat)
    requires Healthy(env, w) && l in w.meta.objects && w.meta.objects[l].hash in w.meta.refs
    ensures Recover(w, order, cutoff, now).Some?
    ensures var w1, d := Recover(w, order, cutoff, now).value, w.meta.refs[w.meta.objects[l].hash].extent.dir;
      Get(env, w1, l) == if Sheltered(d) then Get(env, w, l) else None
  {
    NothingPending(w, order, cutoff, now);
    var h := w.meta.objects[l].hash;
    SetSparedIff(env, w, h);
    CleanupExact(w, SetAt(w.meta.refs[h].extent.dir, h));
    assert Linked(w, l);
    SameSet(env, w, Recover(w, order, cutoff, now).value, l, SetAt(w.meta.refs[h].extent.dir, h));
  }

  lemma SameSet(env: Env, w: World, w1: World, l: Loc, k: SetKey)
    requires l in w.layouts && k == SetAt(w.layouts[l].extent.dir, w.layouts[l].hash) && k in w.shards
    requires w1 == w.(shards := w1.shards) && (k in w1.shards ==> w1.shards[k] == w.shards[k])
    ensures Get(env, w1, l) == if k in w1.shards then Get(env, w, l) else None
  {
  }

  lemma {:induction false} SetSparedIff(env: Env, w: World, h: string)
    requires Healthy(env, w) && h in w.meta.refs
    ensures TrimmedDirs(w) && w.meta.staged == map[]
    ensures var d := w.meta.refs[h].extent.dir; SetAt(d, h) in w.shards && (Spared(w.meta, SetAt(d, h)) <==> Sheltered(d))
  {
    var e := w.meta.refs[h].extent;
    assert Sound(env, h, e) && Stored(env, w.shards, h, e);
    SparedIff(w.meta, h);
  }

  /** A put of new content and then Recover, without faults: the object is there exactly when the
      key's shard directory is sheltered (see Names.ShardDirSheltered). */
  lemma {:induction false} PutThenRecoverIff(env: Env, w0: World, l: Loc, data: Bytes, ct: string, inputs: seq<Input>, w: World, t: Task,
      order: seq<Loc>, cutoff: nat, now: nat)
    requires CollisionFree(env) && Healthy(env, w0) && GoodKey(l.key) && Trimmed(l.key) && env.digest(data) !in w0.meta.refs
    requires !InvalidLoc(l) && l.bucket in w0.meta.buckets
    requires AllSucceed(inputs) && Alone(env, w0, NewPut(env, l, data, ct), inputs, w, t) && t.pc == Done
    ensures Get(env, w, l) == Some(data) && Recover(w, order, cutoff, now).Some?
    ensures Get(env, Recover(w, order, cutoff, now).value, l) == if Sheltered(ShardDir(l.key)) then Some(data) else None
  {
    PutRefinesMap(env, w0, l, data, ct, inputs, w, t);
    KeyStarts(env, w0, l, data, ct);
    AloneKey(env, w0, w0, l, NewPut(env, l, data, ct), inputs, w, t);
    FinishedKey(env, w0, w, l, t);
    NewReferenceDir(env, w0, w, l, t);
    RecoverKeepsObjectIff(env, w, l, order, cutoff, now);
  }

  lemma {:induction false} NewReferenceDir(env: Env, w0: World, w: World, l: Loc, t: Task)
    requires Healthy(env, w) && l in w.meta.objects && GoodKey(l.key) && t.req.loc == l && t.req.hash !in w0.meta.refs
    requires BlobKnown(w0.meta, t) && SetsAt(env, w0, w, t) && IsNew(w.layouts, l, t)
    ensures w.meta.objects[l].hash in w.meta.refs && w.meta.refs[w.meta.objects[l].hash].extent.dir == ShardDir(l.key)
  {
    assert Linked(w, l);
  }

  /** So "a/b" can be read after the put, and is gone after the next Recover. */
  lemma {:induction false} SlashKeyLost(env: Env, w0: World, data: Bytes, inputs: seq<Input>, w: World, t: Task,
      order: seq<Loc>, cutoff: nat, now: nat)
    requires CollisionFree(env) && Healthy(env, w0) && "b" in w0.meta.buckets && env.digest(data) !in w0.meta.refs
    requires AllSucceed(inputs) && Alone(env, w0, NewPut(env, Loc("b", "a/b"), data, ""), inputs, w, t) && t.pc == Done
    ensures var l := Loc("b", "a/b");
      && Get(env, w, l) == Some(data) && l in w.meta.objects
      && Recover(w, order, cutoff, now).Some? && Get(env, Recover(w, order, cutoff, now).value, l) == None
  {
    var l := Loc("b", "a/b");
    assert l.key[0] == 'a' && l.key[1] == '/' && !IsSpace(l.bucket[0]) && !IsSpace(l.key[0]) && !IsSpace(l.key[2]);
    ShardDirTrimmed(l.key);
    ShardDirSheltered(l.key);
    PutThenRecoverIff(env, w0, l, data, "", inputs, w, t, order, cutoff, now);
  }
}
