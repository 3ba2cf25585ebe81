/** One request at a time: what its handler leaves behind when it finishes, fails or stops. */
module Solo {
  import opened Names
  import opened Metadata
  import opened Protocol
  import opened Conservation
  import opened Recovery
  import opened Crash

  /** A handler alone with the world. */
  ghost predicate Alone(env: Env, w: World, t: Task, inputs: seq<Input>, w': World, t': Task)
    decreases |inputs|
  {
    if inputs == [] then w' == w && t' == t
    else
      && Orderly(t, inputs[0])
      && Alone(env, Step(env, w, t, inputs[0]).0, Step(env, w, t, inputs[0]).1, inputs[1..], w', t')
  }

  lemma {:induction false} AloneThen(env: Env, w: World, t: Task, inputs: seq<Input>, w1: World, t1: Task, i: Input)
    requires Alone(env, w, t, inputs, w1, t1) && Orderly(t1, i)
    ensures Alone(env, w, t, inputs + [i], Step(env, w1, t1, i).0, Step(env, w1, t1, i).1)
    decreases |inputs|
  {
    var all := inputs + [i];
    if inputs == [] {
      assert all == [i] && all[1..] == [];
    } else {
      AloneThen(env, Step(env, w, t, inputs[0]).0, Step(env, w, t, inputs[0]).1, inputs[1..], w1, t1, i);
      assert all[0] == inputs[0] && all[1..] == inputs[1..] + [i];
    }
  }

  // --- the metadata a handler has produced, from where it started ---

  function Plus(refs: map<string, BlobRef>, h: string, e: Extent): map<string, BlobRef> {
    refs[h := if h in refs then Bump(refs[h], 1) else BlobRef(e, 1)]
  }

  function Minus(refs: map<string, BlobRef>, h: string): map<string, BlobRef> {
    if h !in refs then refs
    else if refs[h].refCount <= 1 then refs - {h}
    else refs[h := Bump(refs[h], -1)]
  }

  lemma {:induction false} MinusPlus(refs: map<string, BlobRef>, h: string, e: Extent)
    requires CountsOk(refs)
    ensures Minus(Plus(refs, h, e), h) == refs
  {
  }

  /** The committed objects: changed at the commit point and nowhere else. */
  function ObjectsAt(m0: Meta, t: Task): map<Loc, ObjectMeta> {
    if !CommitDone(t) then m0.objects
    else if t.req.kind == Put then m0.objects[t.req.loc := CommittedMeta(t)]
    else m0.objects - {t.req.loc}
  }

  /** The references: one more while a put holds one, one less once the old one is given back. */
  function RefsHeld(m0: Meta, t: Task): map<string, BlobRef> {
    if t.hold == Retained || (CommitDone(t) && t.req.kind == Put && !SameBlob(t))
    then Plus(m0.refs, t.req.hash, t.blob.extent) else m0.refs
  }

  function RefsAt(m0: Meta, t: Task): map<string, BlobRef> {
    if t.hold == Settled && t.existing.Some? then Minus(RefsHeld(m0, t), t.existing.value.meta.hash)
    else RefsHeld(m0, t)
  }

  predicate MetaAt(m0: Meta, m: Meta, t: Task) {
    m.buckets == m0.buckets && m.objects == ObjectsAt(m0, t) && m.refs == RefsAt(m0, t)
  }

  /** What the handler knows about its blob. */
  predicate BlobKnown(m0: Meta, t: Task) {
    if t.blob.created then t.req.hash !in m0.refs && !t.blob.refExists
    else t.blob.refExists && t.req.hash in m0.refs && t.blob.extent == m0.refs[t.req.hash].extent
  }

  predicate BlobAt(m0: Meta, t: Task) {
    ((CommitDone(t) && t.req.kind == Put) || t.failed ==> BlobKnown(m0, t)) &&
    match t.pc
    case Load | StageMeta | Check | PrepareFailed | DeleteMeta | DeleteLayout | Unstage | Release | Done => true
    case Write => t.req.hash !in m0.refs
    case DropReleased => t.existing.Some? && t.existing.value.meta.hash !in RefsAt(m0, t)
    case RbDropRef => BlobKnown(m0, t) && t.hold == Nothing && t.req.hash !in m0.refs
    case RbBlob | LinkFailed => BlobKnown(m0, t) && t.hold == Nothing
    case _ => BlobKnown(m0, t)
  }

  ghost predicate SoloMeta(m0: Meta, m: Meta, l: Loc, t: Task) {
    MetaAt(m0, m, t) && BlobAt(m0, t) && TaskOk(m.objects, l, t)
  }

  lemma {:induction false} QuietMeta(env: Env, m0: Meta, w: World, l: Loc, t: Task, i: Input)
    requires SoloMeta(m0, w.meta, l, t)
    requires t.pc == Load || t.pc == Link || t.pc == RbLayout || t.pc == RbRestore || t.pc == DeleteLayout
    ensures MetaAt(m0, Step(env, w, t, i).0.meta, Step(env, w, t, i).1) && BlobAt(m0, Step(env, w, t, i).1)
  {
    if t.pc == Load {
      LoadMetaAt(m0, w, l, t, i);
    }
  }

  lemma {:induction false} LoadMetaAt(m0: Meta, w: World, l: Loc, t: Task, i: Input)
    requires SoloMeta(m0, w.meta, l, t) && t.pc == Load
    ensures MetaAt(m0, StepLoad(w, t, i).0.meta, StepLoad(w, t, i).1) && BlobAt(m0, StepLoad(w, t, i).1)
  {
  }

  lemma {:induction false} CheckMetaAt(env: Env, m0: Meta, w: World, l: Loc, t: Task, i: Input)
    requires SoloMeta(m0, w.meta, l, t)
    ensures t.pc == Check ==> MetaAt(m0, StepCheck(w, t, i).0.meta, StepCheck(w, t, i).1) && BlobAt(m0, StepCheck(w, t, i).1)
    ensures t.pc == Write ==> MetaAt(m0, StepWrite(env, w, t, i).0.meta, StepWrite(env, w, t, i).1) && BlobAt(m0, StepWrite(env, w, t, i).1)
  {
    if t.pc == Check {
      FindMetaAt(m0, w, l, t, i);
    } else if t.pc == Write {
      NewMetaAt(env, m0, w, l, t, i);
    }
  }

  lemma {:induction false} FindMetaAt(m0: Meta, w: World, l: Loc, t: Task, i: Input)
    requires SoloMeta(m0, w.meta, l, t) && t.pc == Check
    ensures MetaAt(m0, StepCheck(w, t, i).0.meta, StepCheck(w, t, i).1) && BlobAt(m0, StepCheck(w, t, i).1)
  {
  }

  lemma {:induction false} NewMetaAt(env: Env, m0: Meta, w: World, l: Loc, t: Task, i: Input)
    requires SoloMeta(m0, w.meta, l, t) && t.pc == Write
    ensures MetaAt(m0, StepWrite(env, w, t, i).0.meta, StepWrite(env, w, t, i).1) && BlobAt(m0, StepWrite(env, w, t, i).1)
  {
  }

  lemma {:induction false} MarkEffect(w: World, t: Task, i: Input)
    ensures var (w', t') := StepMark(w, t, i);
      && w' == w.(meta := w.meta.(staged := w'.meta.staged))
      && (t' == Roll(t) || t' == t.(pc := t'.pc))
      && (t'.pc == Link || t'.pc == Retain || t'.pc == Commit || t'.pc == Check || t'.pc == Done || t'.pc == RbLayout)
      && (t'.pc == Check || t'.pc == Done ==> t.pc != MarkPrepared && t.pc != MarkLinked && t.pc != MarkRetained)
      && (t'.pc == RbLayout ==> t.pc != StageMeta)
  {
  }

  lemma {:induction false} MarkMetaAt(m0: Meta, w: World, l: Loc, t: Task, i: Input)
    requires SoloMeta(m0, w.meta, l, t)
    requires t.pc == StageMeta || t.pc == MarkPrepared || t.pc == MarkLinked || t.pc == MarkRetained
    ensures MetaAt(m0, StepMark(w, t, i).0.meta, StepMark(w, t, i).1) && BlobAt(m0, StepMark(w, t, i).1)
  {
    MarkEffect(w, t, i);
  }

  lemma {:induction false} DropMetaAt(env: Env, m0: Meta, w: World, l: Loc, t: Task, i: Input)
    requires SoloMeta(m0, w.meta, l, t)
    requires t.pc == DropReleased || t.pc == LinkFailed || t.pc == RbDropRef || t.pc == RbBlob || t.pc == Done
    ensures MetaAt(m0, Step(env, w, t, i).0.meta, Step(env, w, t, i).1) && BlobAt(m0, Step(env, w, t, i).1)
  {
  }

  lemma {:induction false} UnstageEffect(w: World, t: Task, i: Input)
    ensures var (w', t') := StepUnstage(w, t, i);
      && w' == w.(meta := w.meta.(staged := w'.meta.staged)) && t' == t.(pc := t'.pc)
      && (t'.pc == Done || (t.pc == Unstage && t'.pc == Release) || (t.pc == RbUnstage && t'.pc == RbRestore))
  {
  }

  lemma {:induction false} UnstageMetaAt(m0: Meta, w: World, l: Loc, t: Task, i: Input)
    requires SoloMeta(m0, w.meta, l, t)
    requires t.pc == Unstage || t.pc == PrepareFailed || t.pc == RbUnstage
    ensures MetaAt(m0, StepUnstage(w, t, i).0.meta, StepUnstage(w, t, i).1) && BlobAt(m0, StepUnstage(w, t, i).1)
  {
    UnstageEffect(w, t, i);
  }

  /** What a retain that goes through changes. */
  lemma {:induction false} RetainEffect(w: World, t: Task, i: Input)
    ensures var (w', t') := StepRetain(w, t, i);
      || (w' == w && t' == Roll(t))
      || (w' == w && t' == t.(pc := MarkRetained) && t.blob.refExists && SameBlob(t))
      || (t' == t.(pc := MarkRetained, hold := Retained) && w'.meta == w.meta.(refs := Plus(w.meta.refs, t.req.hash, t.blob.extent)))
  {
  }

  lemma {:induction false} RetainMetaAt(m0: Meta, w: World, l: Loc, t: Task, i: Input)
    requires SoloMeta(m0, w.meta, l, t) && t.pc == Retain
    ensures MetaAt(m0, StepRetain(w, t, i).0.meta, StepRetain(w, t, i).1) && BlobAt(m0, StepRetain(w, t, i).1)
  {
    RetainEffect(w, t, i);
    assert RefsAt(m0, t) == m0.refs && ObjectsAt(m0, t) == m0.objects;
  }

  lemma {:induction false} CommitMetaAt(m0: Meta, w: World, l: Loc, t: Task, i: Input)
    requires SoloMeta(m0, w.meta, l, t) && t.pc == Commit
    ensures MetaAt(m0, StepCommit(w, t, i).0.meta, StepCommit(w, t, i).1) && BlobAt(m0, StepCommit(w, t, i).1)
  {
  }

  lemma {:induction false} DeleteMetaAt(m0: Meta, w: World, l: Loc, t: Task, i: Input)
    requires SoloMeta(m0, w.meta, l, t) && t.pc == DeleteMeta
    ensures MetaAt(m0, StepDeleteMeta(w, t, i).0.meta, StepDeleteMeta(w, t, i).1) && BlobAt(m0, StepDeleteMeta(w, t, i).1)
  {
  }

  lemma {:induction false} ReleaseEffect(w: World, t: Task, i: Input)
    ensures var (w', t') := StepRelease(w, t, i);
      || (w' == w && t' == t.(pc := Done))
      || (&& Obliged(t) && w'.meta == w.meta.(refs := Minus(w.meta.refs, t.existing.value.meta.hash))
          && t' == t.(pc := t'.pc, hold := Settled, drop := t'.drop)
          && (t'.pc == Done || (t'.pc == DropReleased && t.existing.value.meta.hash !in w'.meta.refs)))
  {
  }

  lemma {:induction false} ReleaseMetaAt(m0: Meta, w: World, l: Loc, t: Task, i: Input)
    requires SoloMeta(m0, w.meta, l, t) && t.pc == Release
    ensures MetaAt(m0, StepRelease(w, t, i).0.meta, StepRelease(w, t, i).1) && BlobAt(m0, StepRelease(w, t, i).1)
  {
    ReleaseEffect(w, t, i);
    assert RefsAt(m0, t) == RefsHeld(m0, t);
  }

  lemma {:induction false} RbRefMetaAt(m0: Meta, w: World, l: Loc, t: Task, i: Input)
    requires SoloMeta(m0, w.meta, l, t) && t.pc == RbRef && i.outcome == Success && CountsOk(m0.refs) && !Blank(t.req.hash)
    ensures MetaAt(m0, StepRbRef(w, t, i).0.meta, StepRbRef(w, t, i).1) && BlobAt(m0, StepRbRef(w, t, i).1)
  {
    var (w', t') := StepRbRef(w, t, i);
    if t.hold == Retained {
      MinusPlus(m0.refs, t.req.hash, t.blob.extent);
      assert w'.meta.refs == Minus(w.meta.refs, t.req.hash);
    }
  }

  /** The steps that change objects or references, and those before and behind them. */
  predicate Counting(pc: Pc) {
    pc == Retain || pc == Commit || pc == DeleteMeta || pc == Release || pc == RbRef
  }

  predicate Preparing(pc: Pc) {
    pc == Check || pc == Write || pc == StageMeta || pc == MarkPrepared || pc == MarkLinked || pc == MarkRetained
  }

  lemma {:induction false} StepMetaAt(env: Env, m0: Meta, w: World, l: Loc, t: Task, i: Input)
    requires SoloMeta(m0, w.meta, l, t) && Orderly(t, i) && CountsOk(m0.refs)
    requires t.pc == RbRef ==> !Blank(t.req.hash)
    ensures MetaAt(m0, Step(env, w, t, i).0.meta, Step(env, w, t, i).1) && BlobAt(m0, Step(env, w, t, i).1)
  {
    if Counting(t.pc) {
      MovingMetaAt(env, m0, w, l, t, i);
    } else if Preparing(t.pc) {
      ForwardMetaAt(env, m0, w, l, t, i);
    } else {
      RestMetaAt(env, m0, w, l, t, i);
    }
  }

  lemma {:induction false} RestMetaAt(env: Env, m0: Meta, w: World, l: Loc, t: Task, i: Input)
    requires SoloMeta(m0, w.meta, l, t) && !Counting(t.pc) && !Preparing(t.pc)
    ensures MetaAt(m0, Step(env, w, t, i).0.meta, Step(env, w, t, i).1) && BlobAt(m0, Step(env, w, t, i).1)
  {
    if t.pc == Unstage || t.pc == PrepareFailed || t.pc == RbUnstage {
      UnstageMetaAt(m0, w, l, t, i);
    } else if t.pc == DropReleased || t.pc == LinkFailed || t.pc == RbDropRef || t.pc == RbBlob || t.pc == Done {
      DropMetaAt(env, m0, w, l, t, i);
    } else {
      QuietMeta(env, m0, w, l, t, i);
    }
  }

  lemma {:induction false} ForwardMetaAt(env: Env, m0: Meta, w: World, l: Loc, t: Task, i: Input)
    requires SoloMeta(m0, w.meta, l, t) && Preparing(t.pc)
    ensures MetaAt(m0, Step(env, w, t, i).0.meta, Step(env, w, t, i).1) && BlobAt(m0, Step(env, w, t, i).1)
  {
    match t.pc
    case Check | Write => CheckMetaAt(env, m0, w, l, t, i);
    case _ => MarkMetaAt(m0, w, l, t, i);
  }

  lemma {:induction false} MovingMetaAt(env: Env, m0: Meta, w: World, l: Loc, t: Task, i: Input)
    requires SoloMeta(m0, w.meta, l, t) && Orderly(t, i) && CountsOk(m0.refs)
    requires Counting(t.pc) && (t.pc == RbRef ==> !Blank(t.req.hash))
    ensures MetaAt(m0, Step(env, w, t, i).0.meta, Step(env, w, t, i).1) && BlobAt(m0, Step(env, w, t, i).1)
  {
    match t.pc
    case Retain => RetainMetaAt(m0, w, l, t, i);
    case Commit => CommitMetaAt(m0, w, l, t, i);
    case DeleteMeta => DeleteMetaAt(m0, w, l, t, i);
    case Release => ReleaseMetaAt(m0, w, l, t, i);
    case RbRef => RbRefMetaAt(m0, w, l, t, i);
  }

  // --- shard sets ---

  /** The set is on disk and whole, and decodes to content with this hash and extent. */
  predicate Stored(env: Env, shards: map<SetKey, ShardSet>, h: string, e: Extent) {
    var k := SetAt(e.dir, h);
    k in shards && shards[k].Whole? && env.digest(shards[k].data) == h && Describes(env, e, shards[k].data)
  }

  /** Every reference has its shard set. */
  predicate LiveShards(env: Env, refs: map<string, BlobRef>, shards: map<SetKey, ShardSet>) {
    forall h <- refs :: Stored(env, shards, h, refs[h].extent)
  }

  /** Before its reference exists, the set a put wrote is there too. */
  predicate OwnShards(env: Env, shards: map<SetKey, ShardSet>, t: Task) {
    HasBlob(t.pc) && t.blob.created ==> Stored(env, shards, t.req.hash, t.blob.extent)
  }

  predicate SoloShards(env: Env, w: World, t: Task) {
    LiveShards(env, w.meta.refs, w.shards) && OwnShards(env, w.shards, t)
  }

  /** A set whose hash has no reference may be replaced or removed. */
  lemma {:induction false} UnnamedSetChanges(env: Env, refs: map<string, BlobRef>, shards: map<SetKey, ShardSet>, shards': map<SetKey, ShardSet>, k: SetKey)
    requires LiveShards(env, refs, shards) && k.hash !in refs
    requires shards' - {k} == shards - {k}
    ensures LiveShards(env, refs, shards')
  {
    forall h | h in refs
      ensures Stored(env, shards', h, refs[h].extent)
    {
      var q := SetAt(refs[h].extent.dir, h);
      assert Stored(env, shards, h, refs[h].extent);
      assert q in shards - {k} && (shards - {k})[q] == shards[q];
      assert q in shards' - {k} && (shards' - {k})[q] == shards'[q];
    }
  }

  lemma {:induction false} DropUnnamed(env: Env, w: World, dir: string, h: string)
    requires LiveShards(env, w.meta.refs, w.shards) && h !in w.meta.refs
    ensures LiveShards(env, w.meta.refs, DropShards(w, dir, h).shards)
  {
    var k := SetAt(Trim(dir), h);
    assert (w.shards - {k}) - {k} == w.shards - {k};
    UnnamedSetChanges(env, w.meta.refs, w.shards, DropShards(w, dir, h).shards, k);
  }

  lemma {:induction false} WriteShards(env: Env, w: World, t: Task, i: Input)
    requires SoloShards(env, w, t) && t.pc == Write && t.req.hash !in w.meta.refs && t.req.hash == env.digest(t.req.data)
    ensures SoloShards(env, StepWrite(env, w, t, i).0, StepWrite(env, w, t, i).1)
  {
    var (w', t') := StepWrite(env, w, t, i);
    var k := SetAt(ShardDir(t.req.loc.key), t.req.hash);
    assert w'.shards - {k} == w.shards - {k};
    UnnamedSetChanges(env, w.meta.refs, w.shards, w'.shards, k);
  }

  lemma {:induction false} DropStepShards(env: Env, m0: Meta, w: World, t: Task, i: Input)
    requires SoloShards(env, w, t) && MetaAt(m0, w.meta, t) && BlobAt(m0, t)
    requires t.pc == DropReleased || t.pc == LinkFailed || t.pc == RbDropRef || t.pc == RbBlob
    ensures SoloShards(env, Step(env, w, t, i).0, Step(env, w, t, i).1)
  {
    match t.pc
    case DropReleased => DropUnnamed(env, w, t.drop, t.existing.value.meta.hash);
    case RbDropRef => DropUnnamed(env, w, t.drop, t.req.hash);
    case _ => if t.blob.created { DropUnnamed(env, w, t.blob.extent.dir, t.req.hash); }
  }

  lemma {:induction false} PlusLive(env: Env, refs: map<string, BlobRef>, shards: map<SetKey, ShardSet>, h: string, e: Extent)
    requires LiveShards(env, refs, shards) && (h !in refs ==> Stored(env, shards, h, e))
    ensures LiveShards(env, Plus(refs, h, e), shards)
  {
  }

  lemma {:induction false} MinusLive(env: Env, refs: map<string, BlobRef>, shards: map<SetKey, ShardSet>, h: string)
    requires LiveShards(env, refs, shards)
    ensures LiveShards(env, Minus(refs, h), shards)
  {
  }

  /** A decrease is a Minus. */
  lemma {:induction false} DecreaseIsMinus(env: Env, w: World, t: Task, i: Input)
    requires t.pc == RbRef || t.pc == Release
    ensures var w' := Step(env, w, t, i).0;
      w'.shards == w.shards && !HasBlob(Step(env, w, t, i).1.pc) &&
      (w'.meta.refs == w.meta.refs || exists h :: w'.meta.refs == Minus(w.meta.refs, h))
  {
    if t.pc == RbRef {
      RbRefIsMinus(w, t, i);
    } else {
      ReleaseEffect(w, t, i);
      ReleaseLeavesShards(w, t, i);
    }
  }

  lemma {:induction false} RbRefIsMinus(w: World, t: Task, i: Input)
    ensures var (w', t') := StepRbRef(w, t, i);
      w'.shards == w.shards && !HasBlob(t'.pc) && (w'.meta.refs == w.meta.refs || w'.meta.refs == Minus(w.meta.refs, t.req.hash))
  {
  }

  lemma {:induction false} ReleaseLeavesShards(w: World, t: Task, i: Input)
    ensures StepRelease(w, t, i).0.shards == w.shards && !HasBlob(StepRelease(w, t, i).1.pc)
  {
  }

  lemma {:induction false} RefStepShards(env: Env, m0: Meta, w: World, t: Task, i: Input)
    requires SoloShards(env, w, t) && MetaAt(m0, w.meta, t) && BlobAt(m0, t)
    requires t.pc == Retain || t.pc == RbRef || t.pc == Release
    requires t.pc == Retain ==> t.hold == Nothing
    ensures SoloShards(env, Step(env, w, t, i).0, Step(env, w, t, i).1)
  {
    var w' := Step(env, w, t, i).0;
    if t.pc == Retain {
      RetainEffect(w, t, i);
      PlusLive(env, w.meta.refs, w.shards, t.req.hash, t.blob.extent);
      RetainLeavesShards(w, t, i);
    } else {
      DecreaseIsMinus(env, w, t, i);
      if w'.meta.refs != w.meta.refs {
        var h :| w'.meta.refs == Minus(w.meta.refs, h);
        MinusLive(env, w.meta.refs, w.shards, h);
      }
    }
  }

  lemma {:induction false} RetainLeavesShards(w: World, t: Task, i: Input)
    ensures StepRetain(w, t, i).0.shards == w.shards
  {
  }

  /** Nothing a shard set depends on changes. */
  ghost predicate OffShards(w: World, t: Task, w': World, t': Task) {
    && w'.shards == w.shards && w'.meta.refs == w.meta.refs
    && (HasBlob(t'.pc) && t'.blob.created ==> HasBlob(t.pc) && t'.blob == t.blob && t'.req == t.req)
  }

  lemma {:induction false} MarkOffShards(w: World, t: Task, i: Input)
    requires t.pc == StageMeta || t.pc == MarkPrepared || t.pc == MarkLinked || t.pc == MarkRetained
    ensures OffShards(w, t, StepMark(w, t, i).0, StepMark(w, t, i).1)
  {
  }

  lemma {:induction false} LinkOffShards(env: Env, w: World, t: Task, i: Input)
    requires t.pc == Load || t.pc == Check || t.pc == Link || t.pc == RbLayout || t.pc == RbRestore || t.pc == DeleteLayout || t.pc == Done
    ensures OffShards(w, t, Step(env, w, t, i).0, Step(env, w, t, i).1)
  {
  }

  lemma {:induction false} EntryOffShards(env: Env, w: World, t: Task, i: Input)
    requires t.pc == Commit || t.pc == Unstage || t.pc == PrepareFailed || t.pc == RbUnstage || t.pc == DeleteMeta
    ensures OffShards(w, t, Step(env, w, t, i).0, Step(env, w, t, i).1)
  {
  }

  lemma {:induction false} StepShards(env: Env, m0: Meta, w: World, t: Task, i: Input)
    requires SoloShards(env, w, t) && MetaAt(m0, w.meta, t) && BlobAt(m0, t)
    requires t.pc == Write || t.pc == Retain ==> t.hold == Nothing && t.req.hash == env.digest(t.req.data)
    ensures SoloShards(env, Step(env, w, t, i).0, Step(env, w, t, i).1)
  {
    match t.pc
    case Write => WriteShards(env, w, t, i);
    case DropReleased | LinkFailed | RbDropRef | RbBlob => DropStepShards(env, m0, w, t, i);
    case Retain | RbRef | Release => RefStepShards(env, m0, w, t, i);
    case StageMeta | MarkPrepared | MarkLinked | MarkRetained => MarkOffShards(w, t, i);
    case Commit | Unstage | PrepareFailed | RbUnstage | DeleteMeta => EntryOffShards(env, w, t, i);
    case _ => LinkOffShards(env, w, t, i);
  }

  // --- the layout of the key ---

  function NewLayout(t: Task): Layout {
    LayoutOf(t.req.hash, ETag(t.req.hash), t.blob.extent, t.req.contentType, t.linkedAt, t.linkedAt)
  }

  predicate IsNew(y: map<Loc, Layout>, l: Loc, t: Task) {
    l in y && y[l] == NewLayout(t)
  }

  /** The layout a rollback leaves: none, or one that the previous object determines. */
  predicate IsPrevious(y: map<Loc, Layout>, l: Loc, t: Task) {
    if t.existing.None? then l !in y
    else t.existing.value.ref.Some? && l in y && y[l] == PreviousLayout(t.existing.value, y[l].updatedAt)
  }

  /** Other keys keep their layouts; this one's depends on where the request stands. */
  predicate LayoutAt(y0: map<Loc, Layout>, y: map<Loc, Layout>, l: Loc, t: Task) {
    y - {l} == y0 - {l} &&
    match t.pc
    case Load | StageMeta | Check | Write | MarkPrepared | Link | PrepareFailed | LinkFailed | DeleteMeta | DeleteLayout =>
      y == y0 && !t.failed
    case MarkLinked | Retain | MarkRetained | Commit | Unstage => IsNew(y, l, t) && !t.failed
    case Release | DropReleased => (t.req.kind == Put ==> IsNew(y, l, t)) && !t.failed
    case RbLayout => t.failed
    case RbUnstage | RbRestore => l !in y && t.failed
    case RbRef | RbDropRef | RbBlob => IsPrevious(y, l, t) && t.failed
    case Done =>
      if CommitDone(t) then t.req.kind == Put ==> IsNew(y, l, t)
      else if t.failed then IsPrevious(y, l, t) else y == y0
  }

  /** The step keeps the layouts and what the new layout is made of. */
  ghost predicate OffLayouts(w: World, t: Task, w': World, t': Task) {
    && w'.layouts == w.layouts && t'.req == t.req && t'.linkedAt == t.linkedAt
    && (t.pc != Load ==> t'.existing == t.existing)
    && (t.pc != Check && t.pc != Write ==> t'.blob == t.blob)
  }

  lemma {:induction false} ForwardOffLayouts(env: Env, w: World, t: Task, i: Input)
    requires t.pc == Load || t.pc == Check || t.pc == Write || t.pc == Retain || t.pc == Commit || t.pc == Unstage || t.pc == Release
    ensures OffLayouts(w, t, Step(env, w, t, i).0, Step(env, w, t, i).1)
  {
  }

  lemma {:induction false} MarkOffLayouts(w: World, t: Task, i: Input)
    ensures OffLayouts(w, t, StepMark(w, t, i).0, StepMark(w, t, i).1)
    ensures var t' := StepMark(w, t, i).1; t'.hold == t.hold && (t'.failed == t.failed || t'.pc == RbLayout)
  {
  }

  lemma {:induction false} BackwardOffLayouts(env: Env, w: World, t: Task, i: Input)
    requires t.pc == PrepareFailed || t.pc == LinkFailed || t.pc == RbUnstage || t.pc == RbRef || t.pc == RbDropRef
          || t.pc == RbBlob || t.pc == DeleteMeta || t.pc == DropReleased || t.pc == Done
    ensures OffLayouts(w, t, Step(env, w, t, i).0, Step(env, w, t, i).1)
  {
  }

  lemma {:induction false} ForwardLayoutAt(env: Env, w: World, l: Loc, t: Task, i: Input, y0: map<Loc, Layout>)
    requires TaskOk(w.meta.objects, l, t) && LayoutAt(y0, w.layouts, l, t)
    requires t.pc == Load || t.pc == Check || t.pc == Write || t.pc == Retain
    ensures LayoutAt(y0, Step(env, w, t, i).0.layouts, l, Step(env, w, t, i).1)
  {
    ForwardOffLayouts(env, w, t, i);
  }

  lemma {:induction false} CommitLayoutAt(env: Env, w: World, l: Loc, t: Task, i: Input, y0: map<Loc, Layout>)
    requires TaskOk(w.meta.objects, l, t) && LayoutAt(y0, w.layouts, l, t)
    requires t.pc == Commit || t.pc == Unstage || t.pc == Release
    ensures LayoutAt(y0, Step(env, w, t, i).0.layouts, l, Step(env, w, t, i).1)
  {
    ForwardOffLayouts(env, w, t, i);
  }

  lemma {:induction false} MarkLayoutAt(w: World, l: Loc, t: Task, i: Input, y0: map<Loc, Layout>)
    requires TaskOk(w.meta.objects, l, t) && LayoutAt(y0, w.layouts, l, t)
    requires t.pc == StageMeta || t.pc == MarkPrepared || t.pc == MarkLinked || t.pc == MarkRetained
    ensures LayoutAt(y0, StepMark(w, t, i).0.layouts, l, StepMark(w, t, i).1)
  {
    MarkOffLayouts(w, t, i);
  }

  lemma {:induction false} BackwardLayoutAt(env: Env, w: World, l: Loc, t: Task, i: Input, y0: map<Loc, Layout>)
    requires TaskOk(w.meta.objects, l, t) && LayoutAt(y0, w.layouts, l, t)
    requires t.pc == PrepareFailed || t.pc == LinkFailed || t.pc == RbUnstage || t.pc == RbRef || t.pc == RbDropRef
          || t.pc == RbBlob || t.pc == DeleteMeta || t.pc == DropReleased || t.pc == Done
    ensures LayoutAt(y0, Step(env, w, t, i).0.layouts, l, Step(env, w, t, i).1)
  {
    BackwardOffLayouts(env, w, t, i);
  }

  lemma {:induction false} LinkLayoutAt(env: Env, w: World, l: Loc, t: Task, i: Input, y0: map<Loc, Layout>)
    requires TaskOk(w.meta.objects, l, t) && LayoutAt(y0, w.layouts, l, t)
    requires t.pc == Link || t.pc == DeleteLayout
    ensures LayoutAt(y0, Step(env, w, t, i).0.layouts, l, Step(env, w, t, i).1)
  {
    assert Step(env, w, t, i).0.layouts - {l} == w.layouts - {l};
  }

  lemma {:induction false} RestoreLayoutAt(env: Env, w: World, l: Loc, t: Task, i: Input, y0: map<Loc, Layout>)
    requires TaskOk(w.meta.objects, l, t) && LayoutAt(y0, w.layouts, l, t) && Restorable(t) && Orderly(t, i)
    requires t.pc == RbLayout || t.pc == RbRestore
    ensures LayoutAt(y0, Step(env, w, t, i).0.layouts, l, Step(env, w, t, i).1)
  {
    assert Step(env, w, t, i).0.layouts - {l} == w.layouts - {l};
  }

  lemma {:induction false} StepLayoutAt(env: Env, w: World, l: Loc, t: Task, i: Input, y0: map<Loc, Layout>)
    requires TaskOk(w.meta.objects, l, t) && LayoutAt(y0, w.layouts, l, t) && Restorable(t) && Orderly(t, i)
    ensures LayoutAt(y0, Step(env, w, t, i).0.layouts, l, Step(env, w, t, i).1)
  {
    match t.pc
    case Load | Check | Write | Retain => ForwardLayoutAt(env, w, l, t, i, y0);
    case Commit | Unstage | Release => CommitLayoutAt(env, w, l, t, i, y0);
    case StageMeta | MarkPrepared | MarkLinked | MarkRetained => MarkLayoutAt(w, l, t, i, y0);
    case Link | DeleteLayout => LinkLayoutAt(env, w, l, t, i, y0);
    case RbLayout | RbRestore => RestoreLayoutAt(env, w, l, t, i, y0);
    case _ => BackwardLayoutAt(env, w, l, t, i, y0);
  }

  // --- the shard set a put writes ---

  function OwnKey(t: Task): SetKey {
    SetAt(ShardDir(t.req.loc.key), t.req.hash)
  }

  /** Until it commits, a put changes at most its own shard set, and none if the blob was there. */
  predicate ShardsAt(x0: map<SetKey, ShardSet>, x: map<SetKey, ShardSet>, t: Task) {
    t.req.kind == Put && !CommitDone(t) ==>
      && x - {OwnKey(t)} == x0 - {OwnKey(t)}
      && (t.blob.created ==> t.blob.extent.dir == ShardDir(t.req.loc.key))
      && (t.pc == RbDropRef ==> t.drop == ShardDir(t.req.loc.key))
      && (!t.blob.created && (t.pc == Done ==> t.failed) && t.pc != PrepareFailed ==> x == x0)
      && (t.blob.created && t.pc == Done && t.failed ==> OwnKey(t) !in x)
      && (t.pc == PrepareFailed ==> !t.failed)
      && (t.pc == Load || t.pc == StageMeta || t.pc == Check || t.pc == Write ==> !t.blob.created)
  }

  /** Neither shard sets nor what is known of the own one change. */
  ghost predicate OffSets(w: World, t: Task, w': World, t': Task) {
    && w'.shards == w.shards && t'.req == t.req && t'.blob == t.blob
    && (CommitDone(t) ==> CommitDone(t'))
    && t'.pc != RbDropRef && t'.pc != PrepareFailed && (t'.pc == Done ==> t.pc == Done || !t'.failed) && (t.pc == Done ==> t' == t)
    && t.pc != PrepareFailed
    && (t'.pc == StageMeta || t'.pc == Check ==> t.pc == Load || t.pc == StageMeta) && t'.pc != Load && t'.pc != Write
  }

  lemma {:induction false} ShardsAtKept(x0: map<SetKey, ShardSet>, w: World, t: Task, w': World, t': Task)
    requires ShardsAt(x0, w.shards, t) && OffSets(w, t, w', t')
    ensures ShardsAt(x0, w'.shards, t')
  {
  }

  lemma {:induction false} MarkOffSets(w: World, t: Task, i: Input)
    requires (t.pc == StageMeta && !t.failed) || t.pc == MarkPrepared || t.pc == MarkLinked || t.pc == MarkRetained
    ensures OffSets(w, t, StepMark(w, t, i).0, StepMark(w, t, i).1)
  {
  }

  lemma {:induction false} ForwardOffSets(env: Env, w: World, t: Task, i: Input)
    requires t.pc == Link || t.pc == Retain || t.pc == Commit || t.pc == Unstage || t.pc == Release
          || t.pc == DeleteMeta || t.pc == DeleteLayout
    requires !t.failed && (t.pc == Retain ==> t.hold == Nothing)
    ensures OffSets(w, t, Step(env, w, t, i).0, Step(env, w, t, i).1)
  {
  }

  lemma {:induction false} BackwardOffSets(env: Env, w: World, t: Task, i: Input)
    requires t.pc == RbLayout || t.pc == RbUnstage || t.pc == RbRestore || t.pc == Done
    ensures OffSets(w, t, Step(env, w, t, i).0, Step(env, w, t, i).1)
  {
  }

  lemma {:induction false} WriteShardsAt(env: Env, x0: map<SetKey, ShardSet>, w: World, t: Task, i: Input)
    requires ShardsAt(x0, w.shards, t) && !t.failed
    requires t.pc == Check || t.pc == Write || t.pc == PrepareFailed
    ensures ShardsAt(x0, Step(env, w, t, i).0.shards, Step(env, w, t, i).1)
  {
    if t.pc == PrepareFailed {
      UnstageEffect(w, t, i);
    } else {
      PrepareShardsAt(env, x0, w, t, i);
    }
  }

  lemma {:induction false} PrepareShardsAt(env: Env, x0: map<SetKey, ShardSet>, w: World, t: Task, i: Input)
    requires ShardsAt(x0, w.shards, t) && !t.failed
    ensures t.pc == Check ==> ShardsAt(x0, StepCheck(w, t, i).0.shards, StepCheck(w, t, i).1)
    ensures t.pc == Write ==> ShardsAt(x0, StepWrite(env, w, t, i).0.shards, StepWrite(env, w, t, i).1)
  {
    var k := OwnKey(t);
    assert StepWrite(env, w, t, i).0.shards - {k} == w.shards - {k};
  }

  lemma {:induction false} RbRefShardsAt(m0: Meta, x0: map<SetKey, ShardSet>, w: World, t: Task, i: Input)
    requires ShardsAt(x0, w.shards, t) && MetaAt(m0, w.meta, t) && BlobKnown(m0, t) && CountsOk(m0.refs)
    requires t.pc == RbRef && !CommitDone(t) && t.req.kind == Put
    ensures ShardsAt(x0, StepRbRef(w, t, i).0.shards, StepRbRef(w, t, i).1)
  {
  }

  lemma {:induction false} DropShardsAt(env: Env, m0: Meta, x0: map<SetKey, ShardSet>, w: World, t: Task, i: Input)
    requires ShardsAt(x0, w.shards, t) && BlobAt(m0, t) && GoodKey(t.req.loc.key) && !Blank(t.req.hash) && Orderly(t, i)
    requires t.pc == RbDropRef || t.pc == RbBlob || (t.pc == LinkFailed && !t.failed)
    ensures ShardsAt(x0, Step(env, w, t, i).0.shards, Step(env, w, t, i).1)
  {
    var k := OwnKey(t);
    assert (w.shards - {k}) - {k} == w.shards - {k};
  }

  lemma {:induction false} StepShardsAt(env: Env, m0: Meta, x0: map<SetKey, ShardSet>, y0: map<Loc, Layout>, w: World, l: Loc, t: Task, i: Input)
    requires ShardsAt(x0, w.shards, t) && SoloMeta(m0, w.meta, l, t) && LayoutAt(y0, w.layouts, l, t) && CountsOk(m0.refs)
    requires t.req.kind == Put ==> GoodKey(l.key) && !Blank(t.req.hash)
    requires Orderly(t, i)
    ensures ShardsAt(x0, Step(env, w, t, i).0.shards, Step(env, w, t, i).1)
  {
    var (w', t') := Step(env, w, t, i);
    match t.pc
    case StageMeta | MarkPrepared | MarkLinked | MarkRetained => MarkOffSets(w, t, i); ShardsAtKept(x0, w, t, w', t');
    case Load => LoadShardsAt(x0, w, t, i);
    case Link | Retain | Commit | Unstage | Release | DeleteMeta | DeleteLayout =>
      ForwardOffSets(env, w, t, i); ShardsAtKept(x0, w, t, w', t');
    case RbLayout | RbUnstage | RbRestore | Done => BackwardOffSets(env, w, t, i); ShardsAtKept(x0, w, t, w', t');
    case Check | Write | PrepareFailed => WriteShardsAt(env, x0, w, t, i);
    case RbRef => RbRefShardsAt(m0, x0, w, t, i);
    case DropReleased =>
    case _ => DropShardsAt(env, m0, x0, w, t, i);
  }

  lemma {:induction false} LoadShardsAt(x0: map<SetKey, ShardSet>, w: World, t: Task, i: Input)
    requires ShardsAt(x0, w.shards, t) && t.pc == Load && t.hold == Nothing && !t.failed
    ensures ShardsAt(x0, StepLoad(w, t, i).0.shards, StepLoad(w, t, i).1)
  {
  }

  /** Shard sets only appear in the directory of a put's key. */
  lemma {:induction false} StepTrimmed(env: Env, w: World, t: Task, i: Input)
    requires TrimmedDirs(w) && (t.pc == Write ==> GoodKey(t.req.loc.key) && !Blank(t.req.hash))
    ensures TrimmedDirs(Step(env, w, t, i).0)
  {
    var w' := Step(env, w, t, i).0;
    StepSetKeys(env, w, t, i);
    if t.pc == Write {
      GoodKeyFolder(t.req.loc.key);
    }
    forall k | k in w'.shards
      ensures TrimmedName(k)
    {
      assert k in w.shards || (t.pc == Write && k == OwnKey(t));
    }
  }

  lemma {:induction false} StepSetKeys(env: Env, w: World, t: Task, i: Input)
    ensures Step(env, w, t, i).0.shards.Keys <= w.shards.Keys + if t.pc == Write then {OwnKey(t)} else {}
  {
    match t.pc
    case StageMeta | MarkPrepared | MarkLinked | MarkRetained =>
    case Unstage | PrepareFailed | RbUnstage => UnstageEffect(w, t, i);
    case Retain => RetainLeavesShards(w, t, i);
    case _ =>
  }
}
