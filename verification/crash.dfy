/** Stopping any number of interleaved requests anywhere, then Recover, then Dedupe. */
module Crash {
  import opened Names
  import opened Metadata
  import opened Protocol
  import opened Conservation

  predicate InRollback(pc: Pc) {
    pc == RbLayout || pc == RbUnstage || pc == RbRestore || pc == RbRef || pc == RbDropRef || pc == RbBlob
  }

  /** The operations of a rollback do not fail themselves (they may still never happen). */
  predicate Orderly(t: Task, i: Input) {
    InRollback(t.pc) ==> i.outcome == Success
  }

  /** A step touches nothing that belongs to another key. */
  ghost predicate OwnKeyOnly(w: World, l: Loc, w': World) {
    && w'.meta.buckets == w.meta.buckets
    && w'.meta.objects - {l} == w.meta.objects - {l}
    && w'.meta.staged - {l} == w.meta.staged - {l}
    && w'.layouts - {l} == w.layouts - {l}
  }

  lemma {:induction false} MarkFrame(w: World, t: Task, i: Input)
    ensures OwnKeyOnly(w, t.req.loc, StepMark(w, t, i).0)
  {
    var l, w' := t.req.loc, StepMark(w, t, i).0;
    assert w'.meta.staged - {l} == w.meta.staged - {l};
  }

  lemma {:induction false} LayoutFrame(env: Env, w: World, t: Task, i: Input)
    requires t.pc == Link || t.pc == RbLayout || t.pc == RbRestore || t.pc == DeleteLayout
    ensures OwnKeyOnly(w, t.req.loc, Step(env, w, t, i).0)
  {
    var l, w' := t.req.loc, Step(env, w, t, i).0;
    assert w'.meta == w.meta && w'.layouts - {l} == w.layouts - {l};
  }

  lemma {:induction false} EntryFrame(env: Env, w: World, t: Task, i: Input)
    requires t.pc == Commit || t.pc == Unstage || t.pc == PrepareFailed || t.pc == RbUnstage || t.pc == DeleteMeta
    ensures OwnKeyOnly(w, t.req.loc, Step(env, w, t, i).0)
  {
    var l, w' := t.req.loc, Step(env, w, t, i).0;
    assert w'.meta.staged - {l} == w.meta.staged - {l};
    assert w'.meta.objects - {l} == w.meta.objects - {l};
  }

  lemma {:induction false} StepFrame(env: Env, w: World, t: Task, i: Input)
    ensures OwnKeyOnly(w, t.req.loc, Step(env, w, t, i).0)
  {
    match t.pc
    case StageMeta => MarkFrame(w, t, i);
    case MarkPrepared => MarkFrame(w, t, i);
    case MarkLinked => MarkFrame(w, t, i);
    case MarkRetained => MarkFrame(w, t, i);
    case Link => LayoutFrame(env, w, t, i);
    case RbLayout => LayoutFrame(env, w, t, i);
    case RbRestore => LayoutFrame(env, w, t, i);
    case DeleteLayout => LayoutFrame(env, w, t, i);
    case Commit => EntryFrame(env, w, t, i);
    case Unstage => EntryFrame(env, w, t, i);
    case PrepareFailed => EntryFrame(env, w, t, i);
    case RbUnstage => EntryFrame(env, w, t, i);
    case DeleteMeta => EntryFrame(env, w, t, i);
    case Retain | Release | RbRef => CountFrame(w, t, i);
    case DropReleased | LinkFailed | RbDropRef | RbBlob => DropFrame(w, t, i);
    case _ =>
  }

  lemma {:induction false} CountFrame(w: World, t: Task, i: Input)
    ensures OwnKeyOnly(w, t.req.loc, StepRetain(w, t, i).0)
    ensures OwnKeyOnly(w, t.req.loc, StepRelease(w, t, i).0)
    ensures OwnKeyOnly(w, t.req.loc, StepRbRef(w, t, i).0)
  {
    RetainFrame(w, t, i);
    DecreaseFrame(w.meta, t.req.hash);
    if t.existing.Some? {
      DecreaseFrame(w.meta, t.existing.value.meta.hash);
    }
  }

  lemma {:induction false} RetainFrame(w: World, t: Task, i: Input)
    ensures OwnKeyOnly(w, t.req.loc, StepRetain(w, t, i).0)
  {
  }

  lemma DecreaseFrame(m: Meta, h: string)
    ensures ApplyDecrease(m, h).0 == m.(refs := ApplyDecrease(m, h).0.refs)
  {
  }

  lemma {:induction false} DropFrame(w: World, t: Task, i: Input)
    ensures OwnKeyOnly(w, t.req.loc, StepDropReleased(w, t, i).0)
    ensures OwnKeyOnly(w, t.req.loc, StepDropCreated(w, t, i).0)
    ensures OwnKeyOnly(w, t.req.loc, StepRbDropRef(w, t, i).0)
  {
  }

  // --- what a staged entry says about its request ---

  predicate MayBeStaged(pc: Pc) {
    pc == Check || pc == Write || pc == MarkPrepared || pc == Link || pc == MarkLinked || pc == Retain
    || pc == MarkRetained || pc == Commit || pc == Unstage || pc == PrepareFailed || pc == LinkFailed
    || pc == RbLayout || pc == RbUnstage || pc == Done
  }

  /** An entry that says blob_retained is backed by a held reference or by the committed object. */
  predicate StagedFits(m: Meta, l: Loc, t: Task) {
    l in m.staged ==>
      && m.staged[l].hash == t.req.hash && MayBeStaged(t.pc)
      && (m.staged[l].stage == BlobRetained ==>
            t.hold == Retained || (l in m.objects && m.objects[l].hash == t.req.hash))
  }

  lemma {:induction false} MarkFits(w: World, l: Loc, t: Task, i: Input)
    requires t.req.loc == l && StagedFits(w.meta, l, t)
    requires t.pc == StageMeta || t.pc == MarkPrepared || t.pc == MarkLinked
    ensures StagedFits(StepMark(w, t, i).0.meta, l, StepMark(w, t, i).1)
  {
  }

  lemma {:induction false} MarkRetainedFits(w: World, l: Loc, t: Task, i: Input)
    requires TaskOk(w.meta.objects, l, t) && StagedFits(w.meta, l, t) && t.pc == MarkRetained
    ensures StagedFits(StepMark(w, t, i).0.meta, l, StepMark(w, t, i).1)
  {
  }

  lemma {:induction false} ForwardFits(env: Env, w: World, l: Loc, t: Task, i: Input)
    requires t.req.loc == l && StagedFits(w.meta, l, t)
    requires t.pc == Load || t.pc == Check || t.pc == Write || t.pc == Link
    ensures StagedFits(Step(env, w, t, i).0.meta, l, Step(env, w, t, i).1)
  {
  }

  lemma {:induction false} CommitFits(env: Env, w: World, l: Loc, t: Task, i: Input)
    requires t.req.loc == l && StagedFits(w.meta, l, t) && (t.pc == Retain || t.pc == Commit)
    ensures StagedFits(Step(env, w, t, i).0.meta, l, Step(env, w, t, i).1)
  {
  }

  lemma {:induction false} BackwardFits(env: Env, w: World, l: Loc, t: Task, i: Input)
    requires TaskOk(w.meta.objects, l, t) && StagedFits(w.meta, l, t) && Orderly(t, i)
    requires !InvalidLoc(l)
    requires t.pc == Unstage || t.pc == PrepareFailed || t.pc == RbUnstage || t.pc == RbLayout || t.pc == LinkFailed
    ensures StagedFits(Step(env, w, t, i).0.meta, l, Step(env, w, t, i).1)
  {
  }

  lemma {:induction false} UnstagedFits(env: Env, w: World, l: Loc, t: Task, i: Input)
    requires TaskOk(w.meta.objects, l, t) && StagedFits(w.meta, l, t)
    requires !MayBeStaged(t.pc) && t.pc != StageMeta && t.pc != Load
    ensures StagedFits(Step(env, w, t, i).0.meta, l, Step(env, w, t, i).1)
  {
    assert l !in w.meta.staged;
  }

  lemma {:induction false} StepFits(env: Env, w: World, l: Loc, t: Task, i: Input)
    requires TaskOk(w.meta.objects, l, t) && StagedFits(w.meta, l, t) && Orderly(t, i)
    requires t.pc != Load && t.pc != Done ==> !InvalidLoc(l)
    ensures StagedFits(Step(env, w, t, i).0.meta, l, Step(env, w, t, i).1)
  {
    match t.pc
    case StageMeta => MarkFits(w, l, t, i);
    case MarkPrepared => MarkFits(w, l, t, i);
    case MarkLinked => MarkFits(w, l, t, i);
    case MarkRetained => MarkRetainedFits(w, l, t, i);
    case Load => ForwardFits(env, w, l, t, i);
    case Check => ForwardFits(env, w, l, t, i);
    case Write => ForwardFits(env, w, l, t, i);
    case Link => ForwardFits(env, w, l, t, i);
    case Retain => CommitFits(env, w, l, t, i);
    case Commit => CommitFits(env, w, l, t, i);
    case Unstage => BackwardFits(env, w, l, t, i);
    case PrepareFailed => BackwardFits(env, w, l, t, i);
    case RbUnstage => BackwardFits(env, w, l, t, i);
    case RbLayout => BackwardFits(env, w, l, t, i);
    case LinkFailed => BackwardFits(env, w, l, t, i);
    case Done =>
    case _ => UnstagedFits(env, w, l, t, i);
  }

  // --- valid metadata, one command at a time ---

  lemma {:induction false} MarkValid(w: World, t: Task, i: Input)
    requires Valid(w.meta)
    ensures Valid(StepMark(w, t, i).0.meta)
  {
    var stage := match t.pc case MarkPrepared => BlobPrepared case MarkLinked => LayoutLinked
                            case MarkRetained => BlobRetained case _ => MetadataStaged;
    ApplyKeepsValid(w.meta, StageObject(StagedMeta(t, stage, i.now)));
  }

  lemma {:induction false} CommandOrNothing(m: Meta, c: Command, m': Meta)
    requires Valid(m) && (m' == m || m' == Apply(m, c).0)
    ensures Valid(m')
  {
    ApplyKeepsValid(m, c);
  }

  /** The command a step on references issues. */
  function RefCommand(t: Task): Command {
    match t.pc
    case Retain => if t.blob.refExists then IncreaseBlobRef(t.req.hash) else CreateBlobRef(t.req.hash, t.blob.extent)
    case RbRef => DecreaseBlobRef(t.req.hash)
    case _ => if t.existing.Some? then DecreaseBlobRef(t.existing.value.meta.hash) else UnknownCommand
  }

  lemma {:induction false} RefStepCommand(env: Env, w: World, t: Task, i: Input)
    requires t.pc == Retain || t.pc == RbRef || t.pc == Release
    ensures var m := Step(env, w, t, i).0.meta; m == w.meta || m == Apply(w.meta, RefCommand(t)).0
  {
    match t.pc
    case Retain => RetainCommand(w, t, i);
    case RbRef => RbRefCommand(w, t, i);
    case _ => ReleaseCommand(w, t, i);
  }

  lemma {:induction false} RetainCommand(w: World, t: Task, i: Input)
    requires t.pc == Retain
    ensures var m := StepRetain(w, t, i).0.meta; m == w.meta || m == Apply(w.meta, RefCommand(t)).0
  {
  }

  lemma {:induction false} RbRefCommand(w: World, t: Task, i: Input)
    requires t.pc == RbRef
    ensures var m := StepRbRef(w, t, i).0.meta; m == w.meta || m == Apply(w.meta, RefCommand(t)).0
  {
  }

  lemma {:induction false} ReleaseCommand(w: World, t: Task, i: Input)
    requires t.pc == Release
    ensures var m := StepRelease(w, t, i).0.meta; m == w.meta || m == Apply(w.meta, RefCommand(t)).0
  {
  }

  lemma {:induction false} RefStepValid(env: Env, w: World, t: Task, i: Input)
    requires Valid(w.meta) && (t.pc == Retain || t.pc == RbRef || t.pc == Release)
    ensures Valid(Step(env, w, t, i).0.meta)
  {
    RefStepCommand(env, w, t, i);
    CommandOrNothing(w.meta, RefCommand(t), Step(env, w, t, i).0.meta);
  }

  lemma {:induction false} EntryStepValid(env: Env, w: World, t: Task, i: Input)
    requires Valid(w.meta)
    requires t.pc == Commit || t.pc == DeleteMeta || t.pc == Unstage || t.pc == PrepareFailed || t.pc == RbUnstage
    ensures Valid(Step(env, w, t, i).0.meta)
  {
    match t.pc
    case Commit => CommitValid(w, t, i);
    case DeleteMeta => DeleteValid(w, t, i);
    case _ => UnstageValid(w, t, i);
  }

  lemma {:induction false} CommitValid(w: World, t: Task, i: Input)
    requires Valid(w.meta)
    ensures Valid(StepCommit(w, t, i).0.meta)
  {
    ApplyKeepsValid(w.meta, UpsertObject(CommittedMeta(t)));
  }

  lemma {:induction false} DeleteValid(w: World, t: Task, i: Input)
    requires Valid(w.meta)
    ensures Valid(StepDeleteMeta(w, t, i).0.meta)
  {
    ApplyKeepsValid(w.meta, Metadata.DeleteObject(t.req.loc));
  }

  lemma {:induction false} UnstageValid(w: World, t: Task, i: Input)
    requires Valid(w.meta)
    ensures Valid(StepUnstage(w, t, i).0.meta)
  {
    ApplyKeepsValid(w.meta, DeleteStaged(t.req.loc));
  }

  lemma {:induction false} StepValid(env: Env, w: World, t: Task, i: Input)
    requires Valid(w.meta)
    ensures Valid(Step(env, w, t, i).0.meta)
  {
    match t.pc
    case StageMeta => MarkValid(w, t, i);
    case MarkPrepared => MarkValid(w, t, i);
    case MarkLinked => MarkValid(w, t, i);
    case MarkRetained => MarkValid(w, t, i);
    case Retain => RefStepValid(env, w, t, i);
    case RbRef => RefStepValid(env, w, t, i);
    case Release => RefStepValid(env, w, t, i);
    case Commit => EntryStepValid(env, w, t, i);
    case DeleteMeta => EntryStepValid(env, w, t, i);
    case Unstage => EntryStepValid(env, w, t, i);
    case PrepareFailed => EntryStepValid(env, w, t, i);
    case RbUnstage => EntryStepValid(env, w, t, i);
    case _ => assert Step(env, w, t, i).0.meta == w.meta;
  }

  // --- the layout of a committed object ---

  /** The stretch of a rollback during which an overwritten object has no layout. */
  predicate Unlinked(pc: Pc) {
    pc == RbUnstage || pc == RbRestore
  }

  predicate HasLinked(pc: Pc) {
    pc == MarkLinked || pc == Retain || pc == MarkRetained || pc == Commit
  }

  predicate Restorable(t: Task) {
    t.existing.Some? ==>
      t.existing.value.ref.Some? && Linkable(t.existing.value.meta.hash, t.existing.value.ref.value.extent)
  }

  /** A committed object has a layout except during that stretch. */
  predicate LayoutFits(objects: map<Loc, ObjectMeta>, layouts: map<Loc, Layout>, l: Loc, t: Task) {
    && (l in objects ==> (l in layouts <==> !Unlinked(t.pc)))
    && (HasLinked(t.pc) ==> l in layouts)
    && Restorable(t)
  }

  lemma {:induction false} LoadLayoutFits(w: World, l: Loc, t: Task, i: Input)
    requires t.req.loc == l && LayoutFits(w.meta.objects, w.layouts, l, t) && t.pc == Load && Valid(w.meta)
    requires l in w.meta.objects ==> w.meta.objects[l].hash in w.meta.refs
    ensures StepLoad(w, t, i).0 == w && LayoutFits(w.meta.objects, w.layouts, l, StepLoad(w, t, i).1)
  {
    if l in w.meta.objects {
      assert EntryOk(w.meta.buckets, l, w.meta.objects[l], Committed);
    }
  }

  /** The step neither adds an object nor touches layouts, and enters no stretch it was not in. */
  ghost predicate Bystander(w: World, t: Task, w': World, t': Task) {
    && w'.layouts == w.layouts && w'.meta.objects.Keys <= w.meta.objects.Keys
    && t'.existing == t.existing && Unlinked(t'.pc) == Unlinked(t.pc)
    && (HasLinked(t'.pc) ==> HasLinked(t.pc))
  }

  lemma {:induction false} MarkBystander(w: World, t: Task, i: Input)
    requires t.pc == StageMeta || t.pc == MarkPrepared || t.pc == MarkLinked || t.pc == MarkRetained
    ensures Bystander(w, t, StepMark(w, t, i).0, StepMark(w, t, i).1)
  {
  }

  lemma {:induction false} ForwardBystander(env: Env, w: World, t: Task, i: Input)
    requires t.pc == Check || t.pc == Write || t.pc == Retain || t.pc == Unstage || t.pc == Release || t.pc == DropReleased
    ensures Bystander(w, t, Step(env, w, t, i).0, Step(env, w, t, i).1)
  {
    match t.pc
    case Retain | Release => CountBystander(w, t, i);
    case Unstage => UnstageBystander(w, t, i);
    case _ =>
  }

  lemma {:induction false} CountBystander(w: World, t: Task, i: Input)
    ensures t.pc == Retain ==> Bystander(w, t, StepRetain(w, t, i).0, StepRetain(w, t, i).1)
    ensures t.pc == Release ==> Bystander(w, t, StepRelease(w, t, i).0, StepRelease(w, t, i).1)
    ensures t.pc == RbRef ==> Bystander(w, t, StepRbRef(w, t, i).0, StepRbRef(w, t, i).1)
  {
  }

  lemma {:induction false} UnstageBystander(w: World, t: Task, i: Input)
    requires t.pc == Unstage || t.pc == PrepareFailed || t.pc == RbUnstage
    ensures Bystander(w, t, StepUnstage(w, t, i).0, StepUnstage(w, t, i).1)
  {
  }

  lemma {:induction false} DropBystander(w: World, t: Task, i: Input)
    ensures t.pc == LinkFailed || t.pc == RbBlob ==> Bystander(w, t, StepDropCreated(w, t, i).0, StepDropCreated(w, t, i).1)
    ensures t.pc == RbDropRef ==> Bystander(w, t, StepRbDropRef(w, t, i).0, StepRbDropRef(w, t, i).1)
  {
  }

  lemma {:induction false} BackwardBystander(env: Env, w: World, t: Task, i: Input)
    requires t.pc == PrepareFailed || t.pc == LinkFailed || t.pc == RbUnstage || t.pc == RbRef || t.pc == RbDropRef
          || t.pc == RbBlob || t.pc == DeleteMeta || t.pc == Done
    ensures Bystander(w, t, Step(env, w, t, i).0, Step(env, w, t, i).1)
  {
    match t.pc
    case PrepareFailed | RbUnstage => UnstageBystander(w, t, i);
    case RbRef => CountBystander(w, t, i);
    case LinkFailed | RbBlob | RbDropRef => DropBystander(w, t, i);
    case _ =>
  }

  lemma {:induction false} LinkLayoutFits(env: Env, w: World, l: Loc, t: Task, i: Input)
    requires TaskOk(w.meta.objects, l, t) && LayoutFits(w.meta.objects, w.layouts, l, t) && Orderly(t, i)
    requires t.pc == Link || t.pc == RbLayout || t.pc == RbRestore || t.pc == DeleteLayout || t.pc == Commit
    ensures var (w', t') := Step(env, w, t, i); LayoutFits(w'.meta.objects, w'.layouts, l, t')
  {
  }

  lemma {:induction false} StepLayoutFits(env: Env, w: World, l: Loc, t: Task, i: Input)
    requires TaskOk(w.meta.objects, l, t) && LayoutFits(w.meta.objects, w.layouts, l, t) && Orderly(t, i) && Valid(w.meta)
    requires l in w.meta.objects ==> w.meta.objects[l].hash in w.meta.refs
    ensures var (w', t') := Step(env, w, t, i); LayoutFits(w'.meta.objects, w'.layouts, l, t')
  {
    match t.pc
    case Load => LoadLayoutFits(w, l, t, i);
    case StageMeta | MarkPrepared | MarkLinked | MarkRetained => MarkBystander(w, t, i);
    case Check | Write | Retain | Unstage | Release | DropReleased => ForwardBystander(env, w, t, i);
    case Link | RbLayout | RbRestore | DeleteLayout | Commit => LinkLayoutFits(env, w, l, t, i);
    case _ => BackwardBystander(env, w, t, i);
  }

  // --- references and layouts describe real content ---

  /** A key whose shard directory survives trimming (see Names.ShardDirTrimmed). */
  predicate GoodKey(key: string) {
    Trim(ShardDir(key)) == ShardDir(key) && !Blank(ShardDir(key))
  }

  /** Such a directory leads to a folder whose name carries no white space around it. */
  lemma {:induction false} GoodKeyFolder(key: string)
    requires GoodKey(key)
    ensures var f := Folder(ShardDir(key)); Listable(f) ==> Trim(f) == f && !Blank(f)
  {
    var d := ShardDir(key);
    TrimFixes(d);
    BlankIff(d);
    if |d| == 1 {
      assert d == [d[0]];
      FolderOfOne(d[0]);
      TrimFixes(Folder(d));
    } else {
      assert d == [d[0], d[1]];
      FolderOfTwo(d[0], d[1]);
      FolderOfOne(d[0]);
      FolderOfOne(d[1]);
      TrimFixes(Folder(d));
    }
  }

  /** The extent is that of some content with this hash, in a directory that survives trimming. */
  ghost predicate Sound(env: Env, h: string, e: Extent) {
    && Trim(e.dir) == e.dir && !Blank(e.dir)
    && exists d :: env.digest(d) == h && Describes(env, e, d)
  }

  predicate Describes(env: Env, e: Extent, d: Bytes) {
    e.checksums == env.checksums(d) && e.shardSizes == env.shardSizes(d) && e.size == |d|
  }

  ghost predicate SoundRefs(env: Env, refs: map<string, BlobRef>) {
    forall h <- refs :: Sound(env, h, refs[h].extent)
  }

  ghost predicate SoundLayouts(env: Env, layouts: map<Loc, Layout>) {
    forall l <- layouts :: Sound(env, layouts[l].hash, layouts[l].extent)
  }

  predicate HasBlob(pc: Pc) {
    pc == MarkPrepared || pc == Link || pc == MarkLinked || pc == Retain
  }

  ghost predicate SoundTask(env: Env, t: Task) {
    && (t.req.kind == Put ==> t.req.hash == env.digest(t.req.data) && GoodKey(t.req.loc.key))
    && (HasBlob(t.pc) ==> Sound(env, t.req.hash, t.blob.extent))
    && (t.existing.Some? && t.existing.value.ref.Some? ==>
          Sound(env, t.existing.value.meta.hash, t.existing.value.ref.value.extent))
  }

  ghost predicate SoundStep(env: Env, w: World, t: Task) {
    SoundRefs(env, w.meta.refs) && SoundLayouts(env, w.layouts) && SoundTask(env, t)
  }

  /** References, layouts and what the task remembers stay as they were. */
  ghost predicate Unread(w: World, t: Task, w': World, t': Task) {
    && w'.meta.refs == w.meta.refs && w'.layouts == w.layouts
    && t'.req == t.req && t'.existing == t.existing && (HasBlob(t'.pc) ==> HasBlob(t.pc) && t'.blob == t.blob)
  }

  lemma {:induction false} MarkUnread(w: World, t: Task, i: Input)
    requires t.pc == StageMeta || t.pc == MarkPrepared || t.pc == MarkLinked || t.pc == MarkRetained
    ensures Unread(w, t, StepMark(w, t, i).0, StepMark(w, t, i).1)
  {
  }

  lemma {:induction false} EntryUnread(env: Env, w: World, t: Task, i: Input)
    requires t.pc == Commit || t.pc == Unstage || t.pc == PrepareFailed || t.pc == RbUnstage || t.pc == DeleteMeta
    ensures Unread(w, t, Step(env, w, t, i).0, Step(env, w, t, i).1)
  {
  }

  lemma {:induction false} ShardUnread(env: Env, w: World, t: Task, i: Input)
    requires t.pc == DropReleased || t.pc == LinkFailed || t.pc == RbDropRef || t.pc == RbBlob || t.pc == Done
    ensures Unread(w, t, Step(env, w, t, i).0, Step(env, w, t, i).1)
  {
  }

  lemma {:induction false} LearnSound(env: Env, w: World, t: Task, i: Input)
    requires SoundStep(env, w, t) && (t.pc == Load || t.pc == Check)
    ensures SoundStep(env, Step(env, w, t, i).0, Step(env, w, t, i).1)
  {
  }

  lemma {:induction false} NewExtentSound(env: Env, t: Task, plan: seq<Placement>)
    requires t.req.kind == Put && t.req.hash == env.digest(t.req.data) && GoodKey(t.req.loc.key)
    ensures Sound(env, t.req.hash, NewExtent(env, t, plan))
  {
    assert Describes(env, NewExtent(env, t, plan), t.req.data);
  }

  lemma {:induction false} WriteSound(env: Env, w: World, t: Task, i: Input)
    requires SoundStep(env, w, t) && t.pc == Write && t.req.kind == Put
    ensures SoundStep(env, StepWrite(env, w, t, i).0, StepWrite(env, w, t, i).1)
  {
    NewExtentSound(env, t, i.plan);
  }

  lemma {:induction false} LayoutsPut(env: Env, layouts: map<Loc, Layout>, l: Loc, y: Layout)
    requires SoundLayouts(env, layouts) && Sound(env, y.hash, y.extent)
    ensures SoundLayouts(env, layouts[l := y])
  {
  }

  lemma {:induction false} LayoutSound(env: Env, w: World, t: Task, i: Input)
    requires SoundStep(env, w, t)
    requires t.pc == Link || t.pc == RbLayout || t.pc == RbRestore || t.pc == DeleteLayout
    ensures SoundStep(env, Step(env, w, t, i).0, Step(env, w, t, i).1)
  {
    match t.pc
    case Link => LinkSound(env, w, t, i);
    case RbRestore => RestoreSound(env, w, t, i);
    case _ =>
  }

  lemma {:induction false} LinkSound(env: Env, w: World, t: Task, i: Input)
    requires SoundStep(env, w, t) && t.pc == Link
    ensures SoundStep(env, StepLink(w, t, i).0, StepLink(w, t, i).1)
  {
    LayoutsPut(env, w.layouts, t.req.loc, LayoutOf(t.req.hash, ETag(t.req.hash), t.blob.extent, t.req.contentType, i.now, i.now));
  }

  lemma {:induction false} RestoreSound(env: Env, w: World, t: Task, i: Input)
    requires SoundStep(env, w, t) && t.pc == RbRestore
    ensures SoundStep(env, StepRbRestore(w, t, i).0, StepRbRestore(w, t, i).1)
  {
    if t.existing.Some? && t.existing.value.ref.Some? {
      LayoutsPut(env, w.layouts, t.req.loc, PreviousLayout(t.existing.value, i.now));
    }
  }

  /** References keep their extents, except a new one with the extent the command carries. */
  lemma {:induction false} RefCommandSound(env: Env, m: Meta, c: Command, m': Meta)
    requires SoundRefs(env, m.refs) && (m' == m || m' == Apply(m, c).0)
    requires c.IncreaseBlobRef? || c.DecreaseBlobRef? || c.UnknownCommand? || (c.CreateBlobRef? && Sound(env, c.hash, c.extent))
    ensures SoundRefs(env, m'.refs)
  {
    CommandExtents(m, c, m');
    forall h | h in m'.refs
      ensures Sound(env, h, m'.refs[h].extent)
    {
    }
  }

  lemma {:induction false} CommandExtents(m: Meta, c: Command, m': Meta)
    requires m' == m || m' == Apply(m, c).0
    requires c.IncreaseBlobRef? || c.DecreaseBlobRef? || c.UnknownCommand? || c.CreateBlobRef?
    ensures forall h <- m'.refs :: if h in m.refs then m'.refs[h].extent == m.refs[h].extent else c.CreateBlobRef? && h == c.hash && m'.refs[h].extent == c.extent
  {
  }

  lemma {:induction false} RefSound(env: Env, w: World, t: Task, i: Input)
    requires SoundStep(env, w, t)
    requires t.pc == Retain || t.pc == RbRef || t.pc == Release
    ensures SoundStep(env, Step(env, w, t, i).0, Step(env, w, t, i).1)
  {
    var (w', t') := Step(env, w, t, i);
    RefStepCommand(env, w, t, i);
    RefCommandSound(env, w.meta, RefCommand(t), w'.meta);
    RefStepRemembers(env, w, t, i);
  }

  lemma {:induction false} RefStepRemembers(env: Env, w: World, t: Task, i: Input)
    requires t.pc == Retain || t.pc == RbRef || t.pc == Release
    ensures var (w', t') := Step(env, w, t, i);
      w'.layouts == w.layouts && t'.req == t.req && t'.existing == t.existing && !HasBlob(t'.pc)
  {
  }

  lemma {:induction false} StepSound(env: Env, w: World, t: Task, i: Input)
    requires SoundStep(env, w, t) && (t.pc == Write ==> t.req.kind == Put)
    ensures SoundStep(env, Step(env, w, t, i).0, Step(env, w, t, i).1)
  {
    match t.pc
    case Load | Check => LearnSound(env, w, t, i);
    case Write => WriteSound(env, w, t, i);
    case Link | RbLayout | RbRestore | DeleteLayout => LayoutSound(env, w, t, i);
    case Retain | RbRef | Release => RefSound(env, w, t, i);
    case StageMeta | MarkPrepared | MarkLinked | MarkRetained => MarkUnread(w, t, i);
    case Commit | Unstage | PrepareFailed | RbUnstage | DeleteMeta => EntryUnread(env, w, t, i);
    case _ => ShardUnread(env, w, t, i);
  }

  // --- all requests together ---

  predicate Named(l: Loc, t: Task) {
    t.pc != Load && t.pc != Done ==> !InvalidLoc(l)
  }

  predicate Fits(w: World, l: Loc, t: Task) {
    StagedFits(w.meta, l, t) && Named(l, t) && LayoutFits(w.meta.objects, w.layouts, l, t)
  }

  /** Staged entries belong to requests, and an object no request works on has its layout. */
  predicate Attended(w: World, busy: set<Loc>) {
    w.meta.staged.Keys <= busy && forall l <- w.meta.objects :: l in busy || l in w.layouts
  }

  ghost predicate SoundSystem(env: Env, s: System) {
    && SoundRefs(env, s.world.meta.refs) && SoundLayouts(env, s.world.layouts)
    && forall l <- s.tasks :: SoundTask(env, s.tasks[l])
  }

  ghost predicate Steady(s: System) {
    && Invariant(s) && Valid(s.world.meta) && Attended(s.world, s.tasks.Keys)
    && forall l <- s.tasks :: Fits(s.world, l, s.tasks[l])
  }

  ghost predicate Sane(env: Env, s: System) {
    Steady(s) && SoundSystem(env, s)
  }

  /** Rollback operations succeed when they happen, and keys keep their shard directory. */
  predicate Tidy(s: System, a: Action) {
    match a
    case StartPut(l, _, _) => GoodKey(l.key)
    case StartDelete(_) => true
    case Advance(l, i) => l in s.tasks ==> Orderly(s.tasks[l], i)
  }

  ghost predicate TidyRun(env: Env, s: System, actions: seq<Action>, s': System)
    decreases |actions|
  {
    if actions == [] then s' == s
    else Enabled(s, actions[0]) && Tidy(s, actions[0]) && TidyRun(env, Next(env, s, actions[0]), actions[1..], s')
  }

  lemma {:induction false} SameElsewhere<V>(a: map<Loc, V>, b: map<Loc, V>, l: Loc, k: Loc)
    requires a - {l} == b - {l} && k != l
    ensures k in a <==> k in b
    ensures k in a ==> a[k] == b[k]
  {
    assert k in a <==> k in a - {l};
    assert k in b <==> k in b - {l};
    if k in a {
      assert (a - {l})[k] == (b - {l})[k];
    }
  }

  lemma {:induction false} OtherFits(w: World, w': World, l: Loc, k: Loc, t: Task)
    requires OwnKeyOnly(w, l, w') && k != l && Fits(w, k, t)
    ensures Fits(w', k, t)
  {
    SameElsewhere(w.meta.objects, w'.meta.objects, l, k);
    SameElsewhere(w.meta.staged, w'.meta.staged, l, k);
    SameElsewhere(w.layouts, w'.layouts, l, k);
  }

  lemma {:induction false} StepNamed(env: Env, w: World, l: Loc, t: Task, i: Input)
    requires Named(l, t) && t.req.loc == l
    ensures Named(l, Step(env, w, t, i).1)
  {
  }

  lemma {:induction false} AttendedKept(w: World, w': World, l: Loc, busy: set<Loc>)
    requires Attended(w, busy) && OwnKeyOnly(w, l, w') && l in busy
    ensures Attended(w', busy)
  {
    forall k | k in w'.meta.staged
      ensures k in busy
    {
      if k != l { SameElsewhere(w.meta.staged, w'.meta.staged, l, k); }
    }
    forall k | k in w'.meta.objects
      ensures k in busy || k in w'.layouts
    {
      if k != l {
        SameElsewhere(w.meta.objects, w'.meta.objects, l, k);
        SameElsewhere(w.layouts, w'.layouts, l, k);
      }
    }
  }

  lemma {:induction false} StepFitsOwn(env: Env, s: System, l: Loc, i: Input)
    requires Steady(s) && l in s.tasks && Orderly(s.tasks[l], i)
    ensures var (w', t') := Step(env, s.world, s.tasks[l], i); Fits(w', l, t')
  {
    var w, t := s.world, s.tasks[l];
    assert Fits(w, l, t) && TaskOk(w.meta.objects, l, t);
    StepFits(env, w, l, t, i);
    StepNamed(env, w, l, t, i);
    if l in w.meta.objects {
      HeldRefExists(s, l, w.meta.objects[l].hash);
    }
    StepLayoutFits(env, w, l, t, i);
  }

  lemma {:induction false} AdvanceFits(env: Env, s: System, l: Loc, i: Input)
    requires Steady(s) && l in s.tasks && Orderly(s.tasks[l], i)
    ensures var s' := Next(env, s, Advance(l, i));
      Attended(s'.world, s'.tasks.Keys) && forall k <- s'.tasks :: Fits(s'.world, k, s'.tasks[k])
  {
    var (w', t') := Step(env, s.world, s.tasks[l], i);
    var tasks := s.tasks[l := t'];
    assert TaskOk(s.world.meta.objects, l, s.tasks[l]);
    StepFrame(env, s.world, s.tasks[l], i);
    StepFitsOwn(env, s, l, i);
    AttendedKept(s.world, w', l, s.tasks.Keys);
    assert tasks.Keys == s.tasks.Keys;
    OthersFit(s.world, w', l, s.tasks);
  }

  lemma {:induction false} OthersFit(w: World, w': World, l: Loc, tasks: map<Loc, Task>)
    requires OwnKeyOnly(w, l, w') && forall k <- tasks :: Fits(w, k, tasks[k])
    ensures forall k <- tasks :: k != l ==> Fits(w', k, tasks[k])
  {
    forall k | k in tasks && k != l
      ensures Fits(w', k, tasks[k])
    {
      OtherFits(w, w', l, k, tasks[k]);
    }
  }

  lemma {:induction false} AdvanceSound(env: Env, s: System, l: Loc, i: Input)
    requires Invariant(s) && SoundSystem(env, s) && l in s.tasks
    ensures SoundSystem(env, Next(env, s, Advance(l, i)))
  {
    assert TaskOk(s.world.meta.objects, l, s.tasks[l]);
    StepSound(env, s.world, s.tasks[l], i);
  }

  lemma {:induction false} StartFits(w: World, l: Loc, t: Task)
    requires t.req.loc == l && t.pc == Load && t.existing == None
    requires l !in w.meta.staged && (l in w.meta.objects ==> l in w.layouts)
    ensures Fits(w, l, t)
  {
  }

  lemma {:induction false} FreeAtRest(s: System, l: Loc)
    requires Steady(s) && Free(s, l)
    ensures l !in s.world.meta.staged && (l in s.world.meta.objects ==> l in s.world.layouts)
  {
    if l in s.tasks {
      assert Fits(s.world, l, s.tasks[l]);
    }
  }

  lemma {:induction false} StartFitsAll(w: World, tasks: map<Loc, Task>, l: Loc, t: Task)
    requires Attended(w, tasks.Keys) && Fits(w, l, t) && forall k <- tasks :: Fits(w, k, tasks[k])
    ensures var now := tasks[l := t];
      Attended(w, now.Keys) && forall k <- now :: Fits(w, k, now[k])
  {
  }

  lemma {:induction false} StartSteady(s: System, l: Loc, t: Task)
    requires Steady(s) && Free(s, l)
    requires t.req.loc == l && t.pc == Load && t.existing == None
    requires Invariant(s.(tasks := s.tasks[l := t]))
    ensures Steady(s.(tasks := s.tasks[l := t]))
  {
    FreeAtRest(s, l);
    StartFits(s.world, l, t);
    StartFitsAll(s.world, s.tasks, l, t);
  }

  lemma {:induction false} NextSteady(env: Env, s: System, a: Action)
    requires Steady(s) && Enabled(s, a) && (a.Advance? ==> Orderly(s.tasks[a.loc], a.input))
    ensures Steady(Next(env, s, a))
  {
    NextKeeps(env, s, a);
    match a
    case StartPut(l, data, ct) => StartSteady(s, l, NewPut(env, l, data, ct));
    case StartDelete(l) => StartSteady(s, l, NewDelete(l));
    case Advance(l, i) =>
      StepValid(env, s.world, s.tasks[l], i);
      AdvanceFits(env, s, l, i);
  }

  lemma {:induction false} NextSane(env: Env, s: System, a: Action)
    requires Sane(env, s) && Enabled(s, a) && Tidy(s, a)
    ensures Sane(env, Next(env, s, a))
  {
    NextSteady(env, s, a);
    if a.Advance? {
      AdvanceSound(env, s, a.loc, a.input);
    }
  }

  lemma {:induction false} RunSane(env: Env, s: System, actions: seq<Action>, s': System)
    requires Sane(env, s) && TidyRun(env, s, actions, s')
    ensures Sane(env, s')
    decreases |actions|
  {
    if actions != [] {
      NextSane(env, s, actions[0]);
      RunSane(env, Next(env, s, actions[0]), actions[1..], s');
    }
  }

  /** A world at rest: balanced, nothing staged, every object linked under its hash. */
  ghost predicate AtRest(env: Env, w: World) {
    && Valid(w.meta) && Balanced(w.meta) && w.meta.staged == map[]
    && SoundRefs(env, w.meta.refs) && SoundLayouts(env, w.layouts)
    && forall l <- w.meta.objects :: l in w.layouts && w.layouts[l].hash == w.meta.objects[l].hash
  }

  lemma {:induction false} AtRestSane(env: Env, w: World)
    requires AtRest(env, w)
    ensures Sane(env, System(w, map[]))
  {
    var s0 := System(w, map[]);
    forall h
      ensures Count(w.meta.refs, h) == |Users(w.meta.objects, h)| + |Owing(s0.tasks, h)|
    {
      assert Owing(s0.tasks, h) == {};
    }
  }
}
