/** The store's handlers as they run, over the metadata machine and the engine. Whether an
    operation succeeds, the clock and the planner's choice are up to the environment. */
module ObjectStore {
  import opened Names
  import opened Metadata
  import opened StateMachine
  import opened Protocol
  import opened Crash
  import opened Healing
  import opened Requests
  import opened Tracking

  datatype DeleteResult = Deleted | NotFound | Broken

  /** What a read answers: the bytes, bad request, not found, or an error of the engine. */
  datatype ReadResult = Content(data: Bytes) | Refused | Missing | Unreadable

  /** The engine's side: object layouts and shard sets. */
  class Engine {
    var layouts: map<Loc, Layout>
    var shards: map<SetKey, ShardSet>

    constructor ()
      ensures layouts == map[] && shards == map[]
    {
      layouts, shards := map[], map[];
    }

    /** LinkObject refuses blank arguments and stores the directory trimmed. */
    method LinkObject(l: Loc, hash: string, etag: string, e: Extent, contentType: string, at: nat, i: Input) returns (ok: bool)
      modifies this`layouts
      ensures ok <==> i.outcome == Success && Linkable(hash, e)
      ensures layouts == if ok then old(layouts)[l := LayoutOf(hash, etag, e, contentType, at, i.now)] else old(layouts)
    {
      if i.outcome != Success || Blank(hash) || Blank(e.dir) {
        return false;
      }
      var updatedAt := at;
      if updatedAt == 0 {
        updatedAt := i.now;
      }
      layouts := layouts[l := Layout(hash, etag, e.(dir := Trim(e.dir)), contentType, updatedAt)];
      ok := true;
    }

    method DeleteObjectLayout(l: Loc, i: Input)
      modifies this`layouts
      ensures layouts == if i.outcome == Success then old(layouts) - {l} else old(layouts)
    {
      if i.outcome == Success && l in layouts {
        layouts := layouts - {l};
      }
    }

    method DeleteBlob(dir: string, hash: string, i: Input)
      modifies this`shards
      ensures shards == if i.outcome == Success && !Blank(dir) && !Blank(hash) then old(shards) - {SetAt(Trim(dir), hash)} else old(shards)
    {
      if i.outcome == Success && !Blank(dir) && !Blank(hash) {
        shards := shards - {SetAt(Trim(dir), hash)};
      }
    }

    /** PutBlobBytes writes the shards one by one and can stop on the way; what it writes over a whole
        set of the same content is what is there. */
    method PutBlob(env: Env, key: string, hash: string, data: Bytes, i: Input) returns (ok: bool, e: Extent)
      modifies this`shards
      ensures ok <==> i.outcome == Success
      ensures e == Extent(ShardDir(key), i.plan, env.checksums(data), env.shardSizes(data), |data|)
      ensures shards == match i.outcome
        case Success => old(shards)[SetAt(e.dir, hash) := Whole(data)]
        case Partway => old(shards)[SetAt(e.dir, hash) := Interrupted(old(shards), SetAt(e.dir, hash), data)]
        case Failure => old(shards)
    {
      e := Extent(ShardDir(key), i.plan, env.checksums(data), env.shardSizes(data), |data|);
      var key := SetAt(e.dir, hash);
      if i.outcome == Success {
        shards := shards[key := Whole(data)];
      } else if i.outcome == Partway && !(key in shards && shards[key] == Whole(data)) {
        shards := shards[key := Partial];
      }
      ok := i.outcome == Success;
    }
  }

  class Store {
    const env: Env
    const meta: Machine
    const engine: Engine

    ghost function Now(): World
      reads meta, engine
    {
      World(meta.State(), engine.layouts, engine.shards)
    }

    constructor (env: Env)
      ensures fresh(meta) && fresh(engine) && this.env == env && !meta.closed && Now() == World(EmptyMeta, map[], map[])
      ensures Healthy(env, Now()) && Contents(env, Now()) == map[]
    {
      this.env := env;
      meta := new Machine();
      engine := new Engine();
      new;
      NewIsHealthy(env);
    }

    /** A metadata command: it is applied, or the proposal fails and nothing happens. */
    method Propose(c: Command, i: Input) returns (ok: bool, r: Reply)
      requires !meta.closed
      modifies meta
      ensures !meta.closed
      ensures i.outcome == Success ==> (meta.State(), r) == Apply(old(meta.State()), c)
      ensures i.outcome != Success ==> meta.State() == old(meta.State())
      ensures ok <==> i.outcome == Success && r.error == NoError
    {
      r := Fail(NoError);
      if i.outcome != Success {
        return false, r;
      }
      r := meta.Update(c);
      ok := r.error == NoError;
    }

    // --- the steps of a put ---

    /** Every write of the staged entry, by the stage it records. */
    method UpdateIntent(req: Request, stage: Stage, ghost w0: World, ghost t0: Task, ghost t: Task) returns (ok: bool, ghost t': Task)
      requires !meta.closed && t.req == req && Track(env, w0, t0, true, Now(), t)
      requires match t.pc case StageMeta => stage == MetadataStaged case MarkPrepared => stage == BlobPrepared
        case MarkLinked => stage == LayoutLinked case MarkRetained => stage == BlobRetained case _ => false
      modifies meta
      ensures !meta.closed && Track(env, w0, t0, true, Now(), t')
      ensures ok ==> t' == t.(pc := match t.pc case MarkPrepared => Link case MarkLinked => Retain case MarkRetained => Commit case _ => Check)
      ensures !ok ==> Now() == old(Now()) && t' == if t.pc == StageMeta then t.(pc := Done) else Roll(t)
      ensures forall k <- meta.staged :: k != req.loc ==> k in old(meta.staged)
    {
      var i: Input := *;
      var r;
      ghost var w := Now();
      ok, r := Propose(StageObject(ObjectMeta(req.loc, req.hash, ETag(req.hash), |req.data|, req.contentType, i.now, Pending, stage, [], [], [])), i);
      t' := StepMark(w, t, i).1;
      Tracked(env, w0, t0, true, w, t, i, Now(), t', true);
    }

    /** prepareBlob: an existing reference, or new shards. */
    method PrepareBlob(req: Request, ghost w0: World, ghost t0: Task, ghost t: Task) returns (ok: bool, blob: Blob, ghost t': Task)
      requires !meta.closed && t.req == req && t.pc == Check && Track(env, w0, t0, true, Now(), t)
      modifies engine
      ensures Track(env, w0, t0, true, Now(), t')
      ensures ok ==> t' == t.(pc := MarkPrepared, blob := blob) && !Blank(req.hash)
      ensures !ok ==> t' == t.(pc := PrepareFailed)
    {
      var i: Input := *;
      ghost var w := Now();
      ghost var t1 := StepCheck(w, t, i).1;
      Tracked(env, w0, t0, true, w, t, i, w, t1, true);
      blob := NoBlob;
      if i.outcome != Success || Blank(req.hash) {
        return false, blob, t1;
      }
      if req.hash in meta.refs {
        blob := Blob(meta.refs[req.hash].extent, true, false);
        return true, blob, t1;
      }
      i := *;
      var e;
      ok, e := engine.PutBlob(env, req.loc.key, req.hash, req.data, i);
      if ok {
        blob := Blob(e, false, true);
      }
      t' := StepWrite(env, w, t1, i).1;
      Tracked(env, w0, t0, true, w, t1, i, Now(), t', true);
    }

    /** Deleting the staged entry, in the three places that do it. */
    method DeleteStagedEntry(req: Request, ghost w0: World, ghost t0: Task, ghost t: Task, ghost strict: bool)
      returns (ok: bool, ghost t': Task, ghost strict': bool)
      requires !meta.closed && t.req == req && (t.pc == Unstage || t.pc == PrepareFailed || t.pc == RbUnstage)
      requires !InvalidLoc(req.loc) && Track(env, w0, t0, strict, Now(), t)
      modifies meta
      ensures !meta.closed && Track(env, w0, t0, strict', Now(), t')
      ensures t' == t.(pc := match t.pc case Unstage => (if ok then Release else Done) case RbUnstage => RbRestore case _ => Done)
      ensures ok ==> req.loc !in meta.staged
      ensures strict' == (strict && (t.pc == RbUnstage ==> ok))
    {
      var i: Input := *;
      var r;
      ghost var w := Now();
      ok, r := Propose(DeleteStaged(req.loc), i);
      t' := StepUnstage(w, t, i).1;
      strict' := strict && (t.pc == RbUnstage ==> ok);
      Tracked(env, w0, t0, strict, w, t, i, Now(), t', strict');
    }

    /** linkPutLayout: when linking fails, new shards are deleted again. */
    method LinkPutLayout(req: Request, blob: Blob, ghost w0: World, ghost t0: Task, ghost t: Task) returns (ok: bool, at: nat, ghost t': Task)
      requires t.req == req && t.blob == blob && t.pc == Link && Track(env, w0, t0, true, Now(), t)
      modifies engine
      ensures Track(env, w0, t0, true, Now(), t')
      ensures ok ==> t' == t.(pc := MarkLinked, linkedAt := at)
      ensures !ok ==> t' == t.(pc := Done)
    {
      var i: Input := *;
      ghost var w := Now();
      at := i.now;
      ok := engine.LinkObject(req.loc, req.hash, ETag(req.hash), blob.extent, req.contentType, i.now, i);
      ghost var t1 := StepLink(w, t, i).1;
      Tracked(env, w0, t0, true, w, t, i, Now(), t1, true);
      t' := t1;
      if !ok {
        i := *;
        w := Now();
        if blob.created {
          engine.DeleteBlob(blob.extent.dir, req.hash, i);
        }
        t' := t1.(pc := Done);
        Tracked(env, w0, t0, true, w, t1, i, Now(), t', true);
      }
    }

    /** retainBlob; mutated tells whether a reference was created or increased. */
    method RetainBlob(req: Request, blob: Blob, sameBlob: bool, ghost w0: World, ghost t0: Task, ghost t: Task) returns (ok: bool, mutated: bool, ghost t': Task)
      requires !meta.closed && t.req == req && t.blob == blob && sameBlob == SameBlob(t) && t.pc == Retain && Track(env, w0, t0, true, Now(), t)
      requires t.hold == Nothing
      modifies meta
      ensures !meta.closed && Track(env, w0, t0, true, Now(), t')
      ensures ok ==> t' == t.(pc := MarkRetained, hold := if mutated then Retained else Nothing)
      ensures !ok ==> t' == Roll(t)
    {
      var i: Input := *;
      var r;
      ghost var w := Now();
      mutated := false;
      if blob.refExists && sameBlob {
        ok := i.outcome == Success;
      } else if blob.refExists {
        ok, r := Propose(IncreaseBlobRef(req.hash), i);
        mutated := ok;
      } else {
        ok, r := Propose(CreateBlobRef(req.hash, blob.extent), i);
        mutated := ok;
      }
      t' := StepRetain(w, t, i).1;
      Tracked(env, w0, t0, true, w, t, i, Now(), t', true);
    }

    /** The commit point. */
    method CommitObject(req: Request, blob: Blob, at: nat, ghost w0: World, ghost t0: Task, ghost t: Task) returns (ok: bool, ghost t': Task)
      requires !meta.closed && t.req == req && t.blob == blob && t.linkedAt == at && t.pc == Commit && Track(env, w0, t0, true, Now(), t)
      modifies meta
      ensures !meta.closed && Track(env, w0, t0, true, Now(), t')
      ensures t' == if ok then t.(pc := Unstage, hold := Due) else Roll(t)
    {
      var i: Input := *;
      var r;
      ghost var w := Now();
      var e := blob.extent;
      ok, r := Propose(UpsertObject(ObjectMeta(req.loc, req.hash, ETag(req.hash), e.size, req.contentType, at, Committed, Finished,
                                               e.placements, e.checksums, e.shardSizes)), i);
      t' := StepCommit(w, t, i).1;
      Tracked(env, w0, t0, true, w, t, i, Now(), t', true);
    }

    /** Deleting the shards of a reference whose last count is gone. */
    method DropRemoved(dir: string, hash: string, ghost w0: World, ghost t0: Task, ghost t: Task, ghost strict: bool)
      returns (ok: bool, ghost t': Task, ghost strict': bool)
      requires t.drop == dir && Track(env, w0, t0, strict, Now(), t)
      requires (t.pc == DropReleased && t.existing.Some? && t.existing.value.meta.hash == hash) || (t.pc == RbDropRef && t.req.hash == hash)
      modifies engine
      ensures Track(env, w0, t0, strict', Now(), t') && t' == t.(pc := if t.pc == RbDropRef then RbBlob else Done)
      ensures strict' == (strict && (t.pc == RbDropRef ==> ok))
    {
      var i: Input := *;
      ghost var w := Now();
      engine.DeleteBlob(dir, hash, i);
      ok := i.outcome == Success;
      t' := t.(pc := if t.pc == RbDropRef then RbBlob else Done);
      strict' := strict && (t.pc == RbDropRef ==> ok);
      Tracked(env, w0, t0, strict, w, t, i, Now(), t', strict');
    }

    /** The first half of releaseBlob: one count less. */
    method DecreaseOld(hash: string, ghost w0: World, ghost t0: Task, ghost t: Task) returns (ok: bool, removed: Option<string>, ghost t': Task)
      requires !meta.closed && Obliged(t) && t.existing.value.meta.hash == hash && t.pc == Release && Track(env, w0, t0, true, Now(), t)
      modifies meta
      ensures !meta.closed && Track(env, w0, t0, true, Now(), t') && meta.staged == old(meta.staged) && meta.buckets == old(meta.buckets)
      ensures !ok ==> t' == t.(pc := Done) && removed == None
      ensures ok && removed.None? ==> t' == t.(pc := Done, hold := Settled)
      ensures ok && removed.Some? ==> t' == t.(pc := DropReleased, hold := Settled, drop := removed.value)
    {
      var i: Input := *;
      var r;
      ghost var w := Now();
      ok, r := Propose(DecreaseBlobRef(hash), i);
      removed := if ok then r.removedPath else None;
      t' := StepRelease(w, t, i).1;
      Tracked(env, w0, t0, true, w, t, i, Now(), t', true);
    }

    /** releaseBlob for the object that was replaced or deleted. */
    method ReleaseOld(hash: string, ghost w0: World, ghost t0: Task, ghost t: Task) returns (ok: bool, ghost t': Task)
      requires !meta.closed && Obliged(t) && t.existing.value.meta.hash == hash && t.pc == Release && Track(env, w0, t0, true, Now(), t)
      modifies meta, engine
      ensures !meta.closed && Track(env, w0, t0, true, Now(), t') && meta.staged == old(meta.staged) && meta.buckets == old(meta.buckets)
      ensures t'.pc == Done && t'.req == t.req && t'.failed == t.failed
      ensures t'.hold == Settled || (t'.hold == t.hold && !ok)
    {
      var removed;
      ok, removed, t' := DecreaseOld(hash, w0, t0, t);
      if removed.Some? {
        ghost var strict;
        ok, t', strict := DropRemoved(removed.value, hash, w0, t0, t', true);
      }
    }

    // --- rolling a put back ---

    method RollbackLayout(l: Loc, ghost w0: World, ghost t0: Task, ghost t: Task) returns (ghost t': Task, ghost strict: bool)
      requires t.req.loc == l && t.pc == RbLayout && Track(env, w0, t0, true, Now(), t)
      modifies engine
      ensures Track(env, w0, t0, strict, Now(), t') && t' == t.(pc := RbUnstage)
    {
      var i: Input := *;
      ghost var w := Now();
      engine.DeleteObjectLayout(l, i);
      t', strict := t.(pc := RbUnstage), i.outcome == Success;
      Tracked(env, w0, t0, true, w, t, i, Now(), t', strict);
    }

    method RestorePreviousLayout(l: Loc, existing: Option<Existing>, ghost w0: World, ghost t0: Task, ghost t: Task, ghost strict: bool)
      returns (ghost t': Task, ghost strict': bool)
      requires t.req.loc == l && t.existing == existing && t.pc == RbRestore && Track(env, w0, t0, strict, Now(), t)
      modifies engine
      ensures Track(env, w0, t0, strict', Now(), t') && t' == t.(pc := RbRef) && (strict' ==> strict)
    {
      var i: Input := *;
      ghost var w := Now();
      if existing.Some? && existing.value.ref.Some? {
        var x, ref := existing.value.meta, existing.value.ref.value;
        var ok := engine.LinkObject(l, x.hash, x.etag, ref.extent, x.contentType, x.updatedAt, i);
      }
      t', strict' := t.(pc := RbRef), strict && i.outcome == Success;
      Tracked(env, w0, t0, strict, w, t, i, Now(), t', strict');
    }

    method DecreaseRetained(hash: string, mutated: bool, ghost w0: World, ghost t0: Task, ghost t: Task, ghost strict: bool)
      returns (removed: Option<string>, ghost t': Task, ghost strict': bool)
      requires !meta.closed && t.req.hash == hash && mutated == (t.hold == Retained) && t.pc == RbRef && !Blank(hash)
      requires Track(env, w0, t0, strict, Now(), t)
      modifies meta
      ensures !meta.closed && Track(env, w0, t0, strict', Now(), t') && meta.staged == old(meta.staged) && (strict' ==> strict)
      ensures removed.None? ==> t' == t.(pc := RbBlob, hold := t'.hold) && (strict' ==> t'.hold != Retained) && (t'.hold == t.hold || t'.hold == Nothing)
      ensures removed.Some? ==> t' == t.(pc := RbDropRef, hold := Nothing, drop := removed.value)
    {
      var i: Input := *;
      var r, ok;
      ghost var w := Now();
      removed := None;
      if mutated {
        ok, r := Propose(DecreaseBlobRef(hash), i);
        if ok {
          removed := r.removedPath;
        }
      }
      t', strict' := StepRbRef(w, t, i).1, strict && i.outcome == Success;
      Tracked(env, w0, t0, strict, w, t, i, Now(), t', strict');
    }

    /** rollbackBlobRef: the retained reference goes back, and with the last count its shards. */
    method RollbackBlobRef(hash: string, mutated: bool, ghost w0: World, ghost t0: Task, ghost t: Task, ghost strict: bool)
      returns (ghost t': Task, ghost strict': bool)
      requires !meta.closed && t.req.hash == hash && mutated == (t.hold == Retained) && !CommitDone(t) && t.pc == RbRef && !Blank(hash)
      requires Track(env, w0, t0, strict, Now(), t)
      modifies meta, engine
      ensures !meta.closed && Track(env, w0, t0, strict', Now(), t') && meta.staged == old(meta.staged)
      ensures t' == t.(pc := RbBlob, hold := t'.hold, drop := t'.drop) && !CommitDone(t')
      ensures strict' ==> strict && t'.hold == Nothing
    {
      var removed;
      removed, t', strict' := DecreaseRetained(hash, mutated, w0, t0, t, strict);
      if removed.Some? {
        var ok;
        ok, t', strict' := DropRemoved(removed.value, hash, w0, t0, t', strict');
      }
    }

    method CleanupCreatedBlob(req: Request, blob: Blob, ghost w0: World, ghost t0: Task, ghost t: Task, ghost strict: bool)
      returns (ghost t': Task, ghost strict': bool)
      requires t.req == req && t.blob == blob && t.pc == RbBlob && Track(env, w0, t0, strict, Now(), t)
      modifies engine
      ensures Track(env, w0, t0, strict', Now(), t') && t' == t.(pc := Done) && (strict' ==> strict)
    {
      var i: Input := *;
      ghost var w := Now();
      if blob.created {
        engine.DeleteBlob(blob.extent.dir, req.hash, i);
      }
      t', strict' := t.(pc := Done), strict && i.outcome == Success;
      Tracked(env, w0, t0, strict, w, t, i, Now(), t', strict');
    }

    /** failPut and rollbackPut: every step is tried, whatever the earlier ones did. */
    method FailPut(req: Request, existing: Option<Existing>, blob: Blob, mutated: bool, ghost w0: World, ghost t0: Task, ghost t: Task)
      returns (ghost t': Task, ghost strict: bool)
      requires !meta.closed && t.req == req && t.existing == existing && t.blob == blob && mutated == (t.hold == Retained) && !CommitDone(t)
      requires t.pc == RbLayout && t.failed && !InvalidLoc(req.loc) && !Blank(req.hash) && Track(env, w0, t0, true, Now(), t)
      modifies meta, engine
      ensures !meta.closed && Track(env, w0, t0, strict, Now(), t') && t'.pc == Done && t'.failed && t'.req == req && !CommitDone(t')
      ensures strict ==> req.loc !in meta.staged && Owes(t') == None
    {
      t', strict := RollbackLayout(req.loc, w0, t0, t);
      var ok;
      ok, t', strict := DeleteStagedEntry(req, w0, t0, t', strict);
      t', strict := RestorePreviousLayout(req.loc, existing, w0, t0, t', strict);
      t', strict := RollbackBlobRef(req.hash, mutated, w0, t0, t', strict);
      t', strict := CleanupCreatedBlob(req, blob, w0, t0, t', strict);
    }

    // --- whole handlers ---

    /** completePreparedPut from the retained reference on: intent, commit, unstage, release. */
    method FinishPut(req: Request, existing: Option<Existing>, blob: Blob, at: nat, mutated: bool, ghost w0: World, ghost t0: Task, ghost t: Task)
      returns (ok: bool, ghost t': Task, ghost strict: bool)
      requires !meta.closed && !InvalidLoc(req.loc) && !Blank(req.hash) && req.kind == Put
      requires t == Task(req, MarkRetained, existing, blob, at, "", if mutated then Retained else Nothing, false)
      requires Track(env, w0, t0, true, Now(), t)
      modifies meta, engine
      ensures !meta.closed && Track(env, w0, t0, strict, Now(), t') && t'.pc == Done
      ensures ok ==> CleanCommit(req.loc, meta.staged, t') && strict
    {
      strict := true;
      ok, t' := UpdateIntent(req, BlobRetained, w0, t0, t);
      if !ok {
        t', strict := FailPut(req, existing, blob, mutated, w0, t0, t');
        return;
      }
      ok, t' := CommitObject(req, blob, at, w0, t0, t');
      if !ok {
        t', strict := FailPut(req, existing, blob, mutated, w0, t0, t');
        return;
      }
      ok, t', strict := DeleteStagedEntry(req, w0, t0, t', true);
      if !ok {
        return;
      }
      ok, t' := ReleaseReplaced(req, existing, w0, t0, t');
    }

    /** releaseReplacedBlob: nothing to do when the key was free or held the same content. */
    method ReleaseReplaced(req: Request, existing: Option<Existing>, ghost w0: World, ghost t0: Task, ghost t: Task) returns (ok: bool, ghost t': Task)
      requires !meta.closed && t.req == req && req.kind == Put && t.existing == existing && t.pc == Release && t.hold == Due && Track(env, w0, t0, true, Now(), t)
      modifies meta, engine
      ensures !meta.closed && Track(env, w0, t0, true, Now(), t') && t'.pc == Done && meta.staged == old(meta.staged)
      ensures ok ==> CommitDone(t') && Owes(t') == None
    {
      if existing.None? || existing.value.meta.hash == req.hash {
        t' := t.(pc := Done);
        Tracked(env, w0, t0, true, Now(), t, Input(Success, 0, []), Now(), t', true);
        return true, t';
      }
      ok, t' := ReleaseOld(existing.value.meta.hash, w0, t0, t);
    }

    method CompletePreparedPut(req: Request, existing: Option<Existing>, blob: Blob, ghost w0: World, ghost t0: Task, ghost t: Task)
      returns (ok: bool, ghost t': Task, ghost strict: bool)
      requires !meta.closed && !InvalidLoc(req.loc) && !Blank(req.hash) && req.kind == Put
      requires t == Task(req, MarkPrepared, existing, blob, 0, "", Nothing, false)
      requires Track(env, w0, t0, true, Now(), t)
      modifies meta, engine
      ensures !meta.closed && Track(env, w0, t0, strict, Now(), t') && t'.pc == Done
      ensures ok ==> CleanCommit(req.loc, meta.staged, t') && strict
    {
      strict := true;
      ok, t' := UpdateIntent(req, BlobPrepared, w0, t0, t);
      if !ok {
        t', strict := FailPut(req, existing, blob, false, w0, t0, t');
        return;
      }
      var at;
      ok, at, t' := LinkPutLayout(req, blob, w0, t0, t');
      if !ok {
        return;
      }
      ok, t', strict := RetainAndFinish(req, existing, blob, at, w0, t0, t');
    }

    /** completePreparedPut from the linked layout on. */
    method RetainAndFinish(req: Request, existing: Option<Existing>, blob: Blob, at: nat, ghost w0: World, ghost t0: Task, ghost t: Task)
      returns (ok: bool, ghost t': Task, ghost strict: bool)
      requires !meta.closed && !InvalidLoc(req.loc) && !Blank(req.hash) && req.kind == Put
      requires t == Task(req, MarkLinked, existing, blob, at, "", Nothing, false)
      requires Track(env, w0, t0, true, Now(), t)
      modifies meta, engine
      ensures !meta.closed && Track(env, w0, t0, strict, Now(), t') && t'.pc == Done
      ensures ok ==> CleanCommit(req.loc, meta.staged, t') && strict
    {
      strict := true;
      ok, t' := UpdateIntent(req, LayoutLinked, w0, t0, t);
      if !ok {
        t', strict := FailPut(req, existing, blob, false, w0, t0, t');
        return;
      }
      var mutated;
      var sameBlob := existing.Some? && existing.value.meta.hash == req.hash;
      ok, mutated, t' := RetainBlob(req, blob, sameBlob, w0, t0, t');
      if !ok {
        t', strict := FailPut(req, existing, blob, false, w0, t0, t');
        return;
      }
      ok, t', strict := FinishPut(req, existing, blob, at, mutated, w0, t0, t');
    }

    /** putStagedObject: stage the metadata, prepare the blob, go on. */
    method PutStagedObject(req: Request, existing: Option<Existing>, ghost w0: World, ghost t0: Task, ghost t: Task)
      returns (ok: bool, ghost t': Task, ghost strict: bool)
      requires !meta.closed && !InvalidLoc(req.loc) && req.kind == Put
      requires t == Task(req, StageMeta, existing, NoBlob, 0, "", Nothing, false)
      requires Track(env, w0, t0, true, Now(), t)
      modifies meta, engine
      ensures !meta.closed && Track(env, w0, t0, strict, Now(), t') && t'.pc == Done
      ensures ok ==> CleanCommit(req.loc, meta.staged, t') && strict
    {
      strict := true;
      ok, t' := UpdateIntent(req, MetadataStaged, w0, t0, t);
      if !ok {
        return;
      }
      var blob;
      ok, blob, t' := PrepareBlob(req, w0, t0, t');
      if !ok {
        var unstaged;
        unstaged, t', strict := DeleteStagedEntry(req, w0, t0, t', true);
        return;
      }
      ok, t', strict := CompletePreparedPut(req, existing, blob, w0, t0, t');
    }

    /** The object and reference a request finds before it starts. */
    method LoadExisting(l: Loc) returns (x: Option<Existing>)
      ensures x == Protocol.LoadExisting(Now(), l)
    {
      if l !in meta.objects {
        return None;
      }
      var o := meta.objects[l];
      x := Some(Existing(o, if o.hash in meta.refs then Some(meta.refs[o.hash]) else None));
    }

    /** PutObject. Whatever fails, the handler follows the steps of its task to the end. When it
        reports success, or fails leaving nothing staged and nothing owed after an undisturbed
        rollback, a healthy store stays healthy and its contents change as the commit says. */
    method PutObject(bucket: string, key: string, data: Bytes, contentType: string) returns (ok: bool, ghost t: Task, ghost strict: bool)
      requires !meta.closed
      modifies meta, engine
      ensures !meta.closed && t.pc == Done
      ensures var l := Loc(Trim(bucket), Trim(key));
        && Track(env, old(Now()), NewPut(env, l, data, contentType), strict, Now(), t)
        && (ok ==> CleanCommit(l, meta.staged, t) && strict)
        && (CollisionFree(env) && Healthy(env, old(Now())) && GoodKey(l.key) && strict && l !in meta.staged && Owes(t) == None ==>
              Healthy(env, Now()) && Contents(env, Now()) == Effect(Contents(env, old(Now())), l, t))
        && (CollisionFree(env) && Healthy(env, old(Now())) && GoodKey(l.key) && ok ==>
              Healthy(env, Now()) && Contents(env, Now()) == Contents(env, old(Now()))[l := data])
    {
      ghost var w0 := Now();
      var l := Loc(Trim(bucket), Trim(key));
      var req := Request(Put, l, env.digest(data), data, contentType);
      ghost var t0 := NewPut(env, l, data, contentType);
      ok, t, strict := RunPut(req, w0, t0);
      if CollisionFree(env) && Healthy(env, w0) && GoodKey(l.key) && strict && l !in meta.staged && Owes(t) == None {
        TrackedEffect(env, w0, l, t0, Now(), t);
      }
    }

    method RunPut(req: Request, ghost w0: World, ghost t0: Task) returns (ok: bool, ghost t: Task, ghost strict: bool)
      requires !meta.closed && w0 == Now() && t0 == NewPut(env, req.loc, req.data, req.contentType) && t0.req == req
      modifies meta, engine
      ensures !meta.closed && Track(env, w0, t0, strict, Now(), t) && t.pc == Done
      ensures ok ==> CleanCommit(req.loc, meta.staged, t) && strict
    {
      strict := true;
      var i: Input := *;
      t := StepLoad(w0, t0, i).1;
      Begun(env, w0, t0);
      Tracked(env, w0, t0, true, w0, t0, i, w0, t, true);
      if i.outcome != Success || InvalidLoc(req.loc) || req.loc.bucket !in meta.buckets {
        return false, t, true;
      }
      var existing := LoadExisting(req.loc);
      ok, t, strict := PutStagedObject(req, existing, w0, t0, t);
    }

    /** Store.GetObject followed by the engine's verified read. */
    method GetObject(l: Loc) returns (r: ReadResult)
      requires Valid(meta.State())
      ensures r == Refused <==> meta.closed || InvalidLoc(l)
      ensures r == Missing <==> !meta.closed && !InvalidLoc(l) && (l !in meta.objects || l !in engine.layouts)
      ensures !meta.closed ==> (match Get(env, Now(), l) case Some(d) => r == Content(d) case None => !r.Content?)
      ensures Healthy(env, Now()) && !meta.closed && !InvalidLoc(l) ==>
        if l in meta.objects then r == Content(Contents(env, Now())[l]) else r == Missing
    {
      if Healthy(env, Now()) {
        HealthyReads(env, Now(), l);
      }
      assert l in meta.objects ==> EntryOk(meta.buckets, l, meta.objects[l], Committed);
      if meta.closed || InvalidLoc(l) {
        return Refused;
      }
      if l !in meta.objects || l !in engine.layouts {
        return Missing;
      }
      var y := engine.layouts[l];
      var k := SetAt(y.extent.dir, y.hash);
      if k !in engine.shards || engine.shards[k].Partial? {
        return Unreadable;
      }
      var d := engine.shards[k].data;
      if env.checksums(d) != y.extent.checksums || |d| != y.extent.size || env.digest(d) != y.hash {
        return Unreadable;
      }
      r := Content(d);
    }

    /** DeleteObject: metadata, layout, reference, shards, in that order. */
    method DeleteObject(l: Loc) returns (r: DeleteResult, ghost t: Task)
      requires !meta.closed
      modifies meta, engine
      ensures !meta.closed && t.pc == Done && Track(env, old(Now()), NewDelete(l), true, Now(), t)
      ensures r == NotFound ==> l !in old(meta.objects) && Now() == old(Now())
      ensures r == Deleted ==> CommitDone(t) && Owes(t) == None
      ensures meta.staged == old(meta.staged) && meta.buckets == old(meta.buckets)
      ensures CollisionFree(env) && Healthy(env, old(Now())) && Owes(t) == None ==>
        Healthy(env, Now()) && Contents(env, Now()) == Effect(Contents(env, old(Now())), l, t)
      ensures CollisionFree(env) && Healthy(env, old(Now())) && r != Broken ==>
        Healthy(env, Now()) && Contents(env, Now()) == Contents(env, old(Now())) - {l}
    {
      ghost var w0 := Now();
      r, t := RunDelete(l, w0);
      if r == NotFound {
        assert Contents(env, w0) == Contents(env, w0) - {l};
      }
      if CollisionFree(env) && Healthy(env, w0) && Owes(t) == None {
        TrackedEffect(env, w0, l, NewDelete(l), Now(), t);
      }
    }

    method DeleteMetaEntry(l: Loc, ghost w0: World, ghost t0: Task, ghost t: Task) returns (ok: bool, ghost t': Task)
      requires !meta.closed && t.req.loc == l && t.pc == DeleteMeta && Track(env, w0, t0, true, Now(), t)
      modifies meta
      ensures !meta.closed && Track(env, w0, t0, true, Now(), t')
      ensures t' == if ok then t.(pc := DeleteLayout, hold := Due) else t.(pc := Done)
      ensures meta.staged == old(meta.staged) && meta.buckets == old(meta.buckets)
    {
      var i: Input := *;
      var reply;
      ghost var w := Now();
      ok, reply := Propose(Command.DeleteObject(l), i);
      t' := StepDeleteMeta(w, t, i).1;
      Tracked(env, w0, t0, true, w, t, i, Now(), t', true);
    }

    method DeleteLayoutOf(l: Loc, ghost w0: World, ghost t0: Task, ghost t: Task) returns (ok: bool, ghost t': Task)
      requires t.req.loc == l && t.pc == DeleteLayout && Track(env, w0, t0, true, Now(), t)
      modifies engine
      ensures Track(env, w0, t0, true, Now(), t') && t' == t.(pc := Release)
    {
      var i: Input := *;
      ghost var w := Now();
      engine.DeleteObjectLayout(l, i);
      ok, t' := i.outcome == Success, t.(pc := Release);
      Tracked(env, w0, t0, true, w, t, i, Now(), t', true);
    }

    method LoadForDelete(l: Loc, ghost w0: World) returns (ok: bool, x: Option<Existing>, ghost t: Task)
      requires w0 == Now()
      ensures Track(env, w0, NewDelete(l), true, Now(), t)
      ensures ok ==> x == Protocol.LoadExisting(w0, l)
      ensures t == if ok && x.Some? then NewDelete(l).(pc := DeleteMeta, existing := x) else NewDelete(l).(pc := Done)
    {
      ghost var t0 := NewDelete(l);
      var i: Input := *;
      t := StepLoad(w0, t0, i).1;
      Begun(env, w0, t0);
      Tracked(env, w0, t0, true, w0, t0, i, w0, t, true);
      if i.outcome != Success || InvalidLoc(l) {
        return false, None, t;
      }
      x := LoadExisting(l);
      ok := true;
    }

    method DeleteFound(l: Loc, hash: string, ghost w0: World, ghost t0: Task, ghost t: Task) returns (ok: bool, ghost t': Task)
      requires !meta.closed && t.req.loc == l && t.req.kind == Delete && t.existing.Some? && t.existing.value.meta.hash == hash
      requires t.pc == DeleteMeta && Track(env, w0, t0, true, Now(), t)
      modifies meta, engine
      ensures !meta.closed && t'.pc == Done && t'.req == t.req && Track(env, w0, t0, true, Now(), t')
      ensures ok ==> CommitDone(t') && Owes(t') == None
      ensures meta.staged == old(meta.staged) && meta.buckets == old(meta.buckets)
    {
      ok, t' := DeleteMetaEntry(l, w0, t0, t);
      if !ok {
        return;
      }
      var layoutOk;
      layoutOk, t' := DeleteLayoutOf(l, w0, t0, t');
      ok, t' := ReleaseOld(hash, w0, t0, t');
      ok := ok && layoutOk;
    }

    method RunDelete(l: Loc, ghost w0: World) returns (r: DeleteResult, ghost t: Task)
      requires !meta.closed && w0 == Now()
      modifies meta, engine
      ensures !meta.closed && t.pc == Done && t.req == NewDelete(l).req && Track(env, w0, NewDelete(l), true, Now(), t)
      ensures r == NotFound ==> l !in old(meta.objects) && Now() == old(Now())
      ensures r == Deleted ==> CommitDone(t) && Owes(t) == None
      ensures meta.staged == old(meta.staged) && meta.buckets == old(meta.buckets)
    {
      var ok, existing;
      ok, existing, t := LoadForDelete(l, w0);
      if !ok {
        return Broken, t;
      }
      if existing.None? {
        return NotFound, t;
      }
      ok, t := DeleteFound(l, existing.value.meta.hash, w0, NewDelete(l), t);
      r := if ok then Deleted else Broken;
    }

    method CreateBucket(name: string, createdAt: nat) returns (ok: bool)
      requires !meta.closed
      modifies meta
      ensures !meta.closed
      ensures ok ==> !Blank(name) && Trim(name) !in old(meta.buckets) && meta.buckets == old(meta.buckets)[Trim(name) := Bucket(Trim(name), createdAt)]
      ensures !ok ==> meta.State() == old(meta.State())
      ensures Healthy(env, old(Now())) ==> Healthy(env, Now()) && Contents(env, Now()) == Contents(env, old(Now()))
    {
      var i: Input := *;
      var b := Trim(name);
      BlankIff(name);
      var c := Command.CreateBucket(b, Bucket(b, createdAt));
      if b == "" {
        return false;
      }
      if Healthy(env, Now()) {
        BucketsOnly(env, Now(), c);
      }
      var r;
      ok, r := Propose(c, i);
    }

    /** DeleteBucket deletes the listed objects one after the other, then the bucket. */
    method DeleteBucket(name: string) returns (ok: bool)
      requires !meta.closed && Valid(meta.State())
      modifies meta, engine
      ensures !meta.closed
      ensures ok ==> Trim(name) in old(meta.buckets) && meta.buckets == old(meta.buckets) - {Trim(name)}
      ensures ok && CollisionFree(env) && Healthy(env, old(Now())) ==>
        Healthy(env, Now()) && Contents(env, Now()) == OutsideBucket(Contents(env, old(Now())), Trim(name))
    {
      var b := Trim(name);
      if b == "" {
        return false;
      }
      var error, objects := meta.ListObjects(b, "");
      if error != NoError {
        return false;
      }
      ghost var w0, buckets := Now(), meta.buckets;
      ghost var good := CollisionFree(env) && Healthy(env, w0);
      assert Contents(env, w0) == Contents(env, w0) - LocSet(objects[..0]);
      for j := 0 to |objects|
        invariant !meta.closed && meta.buckets == buckets
        invariant good ==> Healthy(env, Now()) && Contents(env, Now()) == Contents(env, w0) - LocSet(objects[..j])
      {
        ghost var w := Now();
        var r;
        ghost var t;
        r, t := DeleteObject(objects[j].loc);
        if r == Broken {
          return false;
        }
        if good {
          OneMore(Contents(env, w0), Contents(env, w), Contents(env, Now()), objects, j);
        }
      }
      if good {
        ContentsHashes(env, w0);
        ContentsHashes(env, Now());
        AllGone(Contents(env, w0), Contents(env, Now()), w0.meta, objects, b);
        BucketsOnly(env, Now(), Command.DeleteBucket(b));
      }
      var i: Input := *;
      var r;
      ok, r := Propose(Command.DeleteBucket(b), i);
    }
  }

  /** Committed, nothing owed, nothing staged. */
  predicate CleanCommit(l: Loc, staged: map<Loc, ObjectMeta>, t: Task) {
    CommitDone(t) && Owes(t) == None && l !in staged
  }

  function LocSet(ms: seq<ObjectMeta>): set<Loc> {
    set m | m in ms :: m.loc
  }

  function OutsideBucket(c: map<Loc, Bytes>, bucket: string): map<Loc, Bytes> {
    map l | l in c && l.bucket != bucket :: c[l]
  }

  lemma {:induction false} OneMore(c0: map<Loc, Bytes>, c: map<Loc, Bytes>, c': map<Loc, Bytes>, objects: seq<ObjectMeta>, j: nat)
    requires j < |objects| && c == c0 - LocSet(objects[..j]) && c' == c - {objects[j].loc}
    ensures c' == c0 - LocSet(objects[..j + 1])
  {
    assert objects[..j + 1] == objects[..j] + [objects[j]];
    assert LocSet(objects[..j + 1]) == LocSet(objects[..j]) + {objects[j].loc};
  }

  lemma {:induction false} AllGone(c0: map<Loc, Bytes>, c: map<Loc, Bytes>, m0: Meta, objects: seq<ObjectMeta>, b: string)
    requires c0.Keys == m0.objects.Keys && Valid(m0) && IsListing(m0.objects, b, "", false, objects)
    requires c == c0 - LocSet(objects[..|objects|])
    ensures c == OutsideBucket(c0, b)
  {
    assert objects[..|objects|] == objects;
    forall l | l in c0
      ensures l in LocSet(objects) <==> l.bucket == b
    {
      assert EntryOk(m0.buckets, l, m0.objects[l], Committed);
      assert m0.objects[l] in objects <==> l.bucket == b;
    }
  }
}
