/** PutObject and DeleteObject as they run against metadata, layouts and shard sets, one
    external operation at a time. Any operation may fail; a task that stops simply takes no
    further step. */
module Protocol {
  import opened Names
  import opened Metadata

  type Bytes = seq<bv8>

  datatype Layout = Layout(hash: string, etag: string, extent: Extent, contentType: string, updatedAt: nat)

  /** A shard set by its folder below the root. */
  datatype SetKey = SetKey(dir: string, hash: string)

  /** The set that a shard directory leads to; "a/" and "a" lead to the same. */
  function SetAt(dir: string, hash: string): SetKey {
    SetKey(Folder(dir), hash)
  }

  /** What a shard set on disk decodes to; a write that stopped halfway decodes to nothing. */
  datatype ShardSet = Whole(data: Bytes) | Partial

  datatype World = World(meta: Meta, layouts: map<Loc, Layout>, shards: map<SetKey, ShardSet>)

  /** The library functions the store relies on: SHA-256 in hex, and the checksums and sizes of
      the shards a content encodes to. */
  datatype Env = Env(digest: Bytes -> string, checksums: Bytes -> seq<string>, shardSizes: Bytes -> seq<nat>)

  function ETag(hash: string): string {
    "\"" + hash + "\""
  }

  // --- engine operations ---

  /** The layout LinkObject stores: the directory is trimmed, a zero time becomes now. (Hashes are
      trimmed too, which changes nothing: they are hex digests.) */
  function LayoutOf(hash: string, etag: string, e: Extent, contentType: string, at: nat, now: nat): Layout {
    Layout(hash, etag, e.(dir := Trim(e.dir)), contentType, if at == 0 then now else at)
  }

  /** LinkObject refuses a blank hash or directory. */
  predicate Linkable(hash: string, e: Extent) {
    !Blank(hash) && !Blank(e.dir)
  }

  function Unlink(w: World, l: Loc): World {
    w.(layouts := w.layouts - {l})
  }

  /** DeleteBlob trims the directory and refuses blank arguments. */
  function DropShards(w: World, dir: string, hash: string): World {
    if Blank(dir) || Blank(hash) then w
    else w.(shards := w.shards - {SetAt(Trim(dir), hash)})
  }

  // --- tasks ---

  datatype Kind = Put | Delete

  datatype Pc =
    | Load | StageMeta | Check | Write | MarkPrepared | Link | MarkLinked | Retain | MarkRetained
    | Commit | Unstage | Release | DropReleased
    | PrepareFailed | LinkFailed
    | RbLayout | RbUnstage | RbRestore | RbRef | RbDropRef | RbBlob
    | DeleteMeta | DeleteLayout
    | Done

  datatype Existing = Existing(meta: ObjectMeta, ref: Option<BlobRef>)

  datatype Request = Request(kind: Kind, loc: Loc, hash: string, data: Bytes, contentType: string)

  /** The blob a put works with: found under an existing reference, or created by the put. */
  datatype Blob = Blob(extent: Extent, refExists: bool, created: bool)

  /** Which reference the request is answerable for: none yet, the one it retained, after its
      commit the one of the object it replaced or deleted, and that one given back. */
  datatype Hold = Nothing | Retained | Due | Settled

  /** One request with the local variables of its handler. */
  datatype Task = Task(
    req: Request, pc: Pc, existing: Option<Existing>, blob: Blob, linkedAt: nat, drop: string,
    hold: Hold, failed: bool)

  const NoBlob := Blob(Extent("", [], [], [], 0), false, false)

  function NewPut(env: Env, l: Loc, data: Bytes, contentType: string): Task {
    Task(Request(Put, l, env.digest(data), data, contentType), Load, None, NoBlob, 0, "", Nothing, false)
  }

  function NewDelete(l: Loc): Task {
    Task(Request(Delete, l, "", [], ""), Load, None, NoBlob, 0, "", Nothing, false)
  }

  datatype Outcome = Success | Failure | Partway

  /** What the environment supplies to a step: whether the operation succeeds, the clock, and the
      placement the planner would choose. */
  datatype Input = Input(outcome: Outcome, now: nat, plan: seq<Placement>)

  predicate SameBlob(t: Task) {
    t.existing.Some? && t.existing.value.meta.hash == t.req.hash
  }

  /** The task must give back the reference of the object it replaced or deleted. */
  predicate Obliged(t: Task) {
    t.existing.Some? && (t.req.kind == Delete || t.existing.value.meta.hash != t.req.hash)
  }

  predicate CommitDone(t: Task) {
    t.hold == Due || t.hold == Settled
  }

  /** The one reference a task holds that no committed object accounts for. */
  function Owes(t: Task): Option<string> {
    match t.hold
    case Retained => Some(t.req.hash)
    case Due => if Obliged(t) then Some(t.existing.value.meta.hash) else None
    case _ => None
  }

  function LoadExisting(w: World, l: Loc): Option<Existing> {
    if l !in w.meta.objects then None
    else
      var o := w.meta.objects[l];
      Some(Existing(o, if o.hash in w.meta.refs then Some(w.meta.refs[o.hash]) else None))
  }

  function StagedMeta(t: Task, stage: Stage, now: nat): ObjectMeta {
    ObjectMeta(t.req.loc, t.req.hash, ETag(t.req.hash), |t.req.data|, t.req.contentType, now, Pending, stage, [], [], [])
  }

  function CommittedMeta(t: Task): ObjectMeta {
    ObjectMeta(t.req.loc, t.req.hash, ETag(t.req.hash), t.blob.extent.size, t.req.contentType, t.linkedAt, Committed, Finished,
               t.blob.extent.placements, t.blob.extent.checksums, t.blob.extent.shardSizes)
  }

  function NewExtent(env: Env, t: Task, plan: seq<Placement>): Extent {
    Extent(ShardDir(t.req.loc.key), plan, env.checksums(t.req.data), env.shardSizes(t.req.data), |t.req.data|)
  }

  // --- steps ---

  function Roll(t: Task): Task {
    t.(pc := RbLayout, failed := true)
  }

  function StepLoad(w: World, t: Task, i: Input): (World, Task) {
    var existing := LoadExisting(w, t.req.loc);
    if i.outcome != Success || InvalidLoc(t.req.loc) then (w, t.(pc := Done))
    else if t.req.kind == Put then
      if t.req.loc.bucket !in w.meta.buckets then (w, t.(pc := Done))
      else (w, t.(pc := StageMeta, existing := existing))
    else if existing.None? then (w, t.(pc := Done))
    else (w, t.(pc := DeleteMeta, existing := existing))
  }

  /** Every StageObjectMeta: the first one just fails, the later ones roll the put back. */
  function StepMark(w: World, t: Task, i: Input): (World, Task) {
    var (stage, next) :=
      match t.pc
      case MarkPrepared => (BlobPrepared, Link)
      case MarkLinked => (LayoutLinked, Retain)
      case MarkRetained => (BlobRetained, Commit)
      case _ => (MetadataStaged, Check);
    var (m, r) := ApplyStage(w.meta, StagedMeta(t, stage, i.now));
    if i.outcome == Success && r.error == NoError then (w.(meta := m), t.(pc := next))
    else if t.pc == StageMeta then (w, t.(pc := Done))
    else (w, Roll(t))
  }

  function StepCheck(w: World, t: Task, i: Input): (World, Task) {
    if i.outcome != Success || Blank(t.req.hash) then (w, t.(pc := PrepareFailed))
    else if t.req.hash in w.meta.refs then
      (w, t.(pc := MarkPrepared, blob := Blob(w.meta.refs[t.req.hash].extent, true, false)))
    else (w, t.(pc := Write))
  }

  /** What a write that stops between its shards leaves. Over a whole set of the same content it has
      only put the same bytes into the same files. */
  function Interrupted(shards: map<SetKey, ShardSet>, key: SetKey, data: Bytes): ShardSet {
    if key in shards && shards[key] == Whole(data) then Whole(data) else Partial
  }

  function StepWrite(env: Env, w: World, t: Task, i: Input): (World, Task) {
    var e := NewExtent(env, t, i.plan);
    var key := SetAt(e.dir, t.req.hash);
    match i.outcome
    case Success =>
      (w.(shards := w.shards[key := Whole(t.req.data)]),
       t.(pc := MarkPrepared, blob := Blob(e, false, true)))
    case Partway => (w.(shards := w.shards[key := Interrupted(w.shards, key, t.req.data)]), t.(pc := PrepareFailed))
    case Failure => (w, t.(pc := PrepareFailed))
  }

  function StepLink(w: World, t: Task, i: Input): (World, Task) {
    if i.outcome != Success || !Linkable(t.req.hash, t.blob.extent) then (w, t.(pc := LinkFailed))
    else
      var layout := LayoutOf(t.req.hash, ETag(t.req.hash), t.blob.extent, t.req.contentType, i.now, i.now);
      (w.(layouts := w.layouts[t.req.loc := layout]), t.(pc := MarkLinked, linkedAt := i.now))
  }

  function StepRetain(w: World, t: Task, i: Input): (World, Task) {
    if i.outcome != Success then (w, Roll(t))
    else if t.blob.refExists && SameBlob(t) then (w, t.(pc := MarkRetained))
    else
      var (m, r) := if t.blob.refExists then ApplyIncrease(w.meta, t.req.hash) else ApplyCreateRef(w.meta, t.req.hash, t.blob.extent);
      if r.error != NoError then (w, Roll(t))
      else (w.(meta := m), t.(pc := MarkRetained, hold := Retained))
  }

  function StepCommit(w: World, t: Task, i: Input): (World, Task) {
    var (m, r) := ApplyUpsert(w.meta, CommittedMeta(t));
    if i.outcome != Success || r.error != NoError then (w, Roll(t))
    else (w.(meta := m), t.(pc := Unstage, hold := Due))
  }

  /** The three deletions of the staged entry; only the one after a commit stops on an error. */
  function StepUnstage(w: World, t: Task, i: Input): (World, Task) {
    var next := match t.pc case Unstage => Release case RbUnstage => RbRestore case _ => Done;
    if i.outcome == Success then (w.(meta := ApplyDeleteStaged(w.meta, t.req.loc).0), t.(pc := next))
    else (w, t.(pc := if t.pc == Unstage then Done else next))
  }

  function StepRelease(w: World, t: Task, i: Input): (World, Task) {
    if !Obliged(t) then (w, t.(pc := Done))
    else
      var (m, r) := ApplyDecrease(w.meta, t.existing.value.meta.hash);
      if i.outcome != Success || r.error != NoError then (w, t.(pc := Done))
      else if r.removedPath.Some? then
        (w.(meta := m), t.(pc := DropReleased, hold := Settled, drop := r.removedPath.value))
      else (w.(meta := m), t.(pc := Done, hold := Settled))
  }

  function StepDropReleased(w: World, t: Task, i: Input): (World, Task) {
    (if i.outcome == Success && t.existing.Some? then DropShards(w, t.drop, t.existing.value.meta.hash) else w,
     t.(pc := Done))
  }

  /** Deleting the shards this put wrote, after a failed link and at the end of a rollback. */
  function StepDropCreated(w: World, t: Task, i: Input): (World, Task) {
    (if i.outcome == Success && t.blob.created then DropShards(w, t.blob.extent.dir, t.req.hash) else w, t.(pc := Done))
  }

  function StepRbLayout(w: World, t: Task, i: Input): (World, Task) {
    (if i.outcome == Success then Unlink(w, t.req.loc) else w, t.(pc := RbUnstage))
  }

  /** The layout restorePreviousLayout links again. */
  function PreviousLayout(x: Existing, now: nat): Layout
    requires x.ref.Some?
  {
    LayoutOf(x.meta.hash, x.meta.etag, x.ref.value.extent, x.meta.contentType, x.meta.updatedAt, now)
  }

  function StepRbRestore(w: World, t: Task, i: Input): (World, Task) {
    if i.outcome == Success && t.existing.Some? && t.existing.value.ref.Some? &&
       Linkable(t.existing.value.meta.hash, t.existing.value.ref.value.extent)
    then (w.(layouts := w.layouts[t.req.loc := PreviousLayout(t.existing.value, i.now)]), t.(pc := RbRef))
    else (w, t.(pc := RbRef))
  }

  function StepRbRef(w: World, t: Task, i: Input): (World, Task) {
    var (m, r) := ApplyDecrease(w.meta, t.req.hash);
    if t.hold != Retained || i.outcome != Success || r.error != NoError then (w, t.(pc := RbBlob))
    else if r.removedPath.Some? then
      (w.(meta := m), t.(pc := RbDropRef, hold := Nothing, drop := r.removedPath.value))
    else (w.(meta := m), t.(pc := RbBlob, hold := Nothing))
  }

  function StepRbDropRef(w: World, t: Task, i: Input): (World, Task) {
    (if i.outcome == Success then DropShards(w, t.drop, t.req.hash) else w, t.(pc := RbBlob))
  }

  function StepDeleteMeta(w: World, t: Task, i: Input): (World, Task) {
    var (m, r) := ApplyDeleteObject(w.meta, t.req.loc);
    if i.outcome != Success || r.error != NoError then (w, t.(pc := Done))
    else (w.(meta := m), t.(pc := DeleteLayout, hold := Due))
  }

  function StepDeleteLayout(w: World, t: Task, i: Input): (World, Task) {
    (if i.outcome == Success then Unlink(w, t.req.loc) else w, t.(pc := Release))
  }

  function Step(env: Env, w: World, t: Task, i: Input): (World, Task) {
    match t.pc
    case Load => StepLoad(w, t, i)
    case StageMeta => StepMark(w, t, i)
    case Check => StepCheck(w, t, i)
    case Write => StepWrite(env, w, t, i)
    case MarkPrepared => StepMark(w, t, i)
    case Link => StepLink(w, t, i)
    case MarkLinked => StepMark(w, t, i)
    case Retain => StepRetain(w, t, i)
    case MarkRetained => StepMark(w, t, i)
    case Commit => StepCommit(w, t, i)
    case Unstage => StepUnstage(w, t, i)
    case Release => StepRelease(w, t, i)
    case DropReleased => StepDropReleased(w, t, i)
    case PrepareFailed => StepUnstage(w, t, i)
    case LinkFailed => StepDropCreated(w, t, i)
    case RbLayout => StepRbLayout(w, t, i)
    case RbUnstage => StepUnstage(w, t, i)
    case RbRestore => StepRbRestore(w, t, i)
    case RbRef => StepRbRef(w, t, i)
    case RbDropRef => StepRbDropRef(w, t, i)
    case RbBlob => StepDropCreated(w, t, i)
    case DeleteMeta => StepDeleteMeta(w, t, i)
    case DeleteLayout => StepDeleteLayout(w, t, i)
    case Done => (w, t)
  }
}
