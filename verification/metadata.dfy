/** The replicated metadata: what the Raft state machine holds and how each command changes it. */
module Metadata {
  import opened Names

  datatype Option<+T> = None | Some(value: T)

  datatype Loc = Loc(bucket: string, key: string)

  /** How far a write got, as its staged entry records it. */
  datatype Stage = Unknown | MetadataStaged | BlobPrepared | LayoutLinked | BlobRetained | Finished

  datatype ObjectState = Pending | Committed

  datatype Placement = Placement(index: nat, nodeId: string, address: string, local: bool)

  /** Where a blob's shards are and what they are: the fields BlobRef, BlobInfo and Layout share. */
  datatype Extent = Extent(
    dir: string, placements: seq<Placement>, checksums: seq<string>, shardSizes: seq<nat>, size: nat)

  datatype ObjectMeta = ObjectMeta(
    loc: Loc, hash: string, etag: string, size: nat, contentType: string, updatedAt: nat,
    state: ObjectState, stage: Stage,
    placements: seq<Placement>, checksums: seq<string>, shardSizes: seq<nat>)

  datatype BlobRef = BlobRef(extent: Extent, refCount: int)

  datatype Bucket = Bucket(name: string, createdAt: nat)

  datatype Meta = Meta(
    buckets: map<string, Bucket>,
    objects: map<Loc, ObjectMeta>,
    staged: map<Loc, ObjectMeta>,
    refs: map<string, BlobRef>)

  const EmptyMeta := Meta(map[], map[], map[], map[])

  datatype ErrorCode = NoError | BadRequest | BucketExists | BucketNotFound | ObjectNotFound

  datatype Reply = Reply(error: ErrorCode, object: Option<ObjectMeta>, removedPath: Option<string>)

  datatype Command =
    | CreateBucket(bucket: string, bucketMeta: Bucket)
    | DeleteBucket(bucket: string)
    | StageObject(meta: ObjectMeta)
    | UpsertObject(meta: ObjectMeta)
    | DeleteStaged(loc: Loc)
    | DeleteObject(loc: Loc)
    | CreateBlobRef(hash: string, extent: Extent)
    | UpdatePlacements(hash: string, placements: seq<Placement>)
    | IncreaseBlobRef(hash: string)
    | DecreaseBlobRef(hash: string)
    | UnknownCommand

  function Fail(e: ErrorCode): Reply {
    Reply(e, None, None)
  }

  predicate InvalidLoc(l: Loc) {
    Blank(l.bucket) || Blank(l.key)
  }

  // --- commands ---

  function ApplyCreateBucket(m: Meta, bucket: string, bucketMeta: Bucket): (Meta, Reply) {
    var name := if bucketMeta.name != "" then bucketMeta.name else bucket;
    if Blank(name) then (m, Fail(BadRequest))
    else if name in m.buckets then (m, Fail(BucketExists))
    else (m.(buckets := m.buckets[name := bucketMeta.(name := name)]), Fail(NoError))
  }

  function Outside(entries: map<Loc, ObjectMeta>, bucket: string): map<Loc, ObjectMeta> {
    map l | l in entries && entries[l].loc.bucket != bucket :: entries[l]
  }

  function ApplyDeleteBucket(m: Meta, bucket: string): (Meta, Reply) {
    if Blank(bucket) then (m, Fail(BadRequest))
    else if bucket !in m.buckets then (m, Fail(BucketNotFound))
    else (Meta(m.buckets - {bucket}, Outside(m.objects, bucket), Outside(m.staged, bucket), m.refs), Fail(NoError))
  }

  function CheckMeta(m: Meta, meta: ObjectMeta): ErrorCode {
    if InvalidLoc(meta.loc) || Blank(meta.hash) then BadRequest
    else if meta.loc.bucket !in m.buckets then BucketNotFound
    else NoError
  }

  function ApplyStage(m: Meta, meta: ObjectMeta): (Meta, Reply) {
    var e := CheckMeta(m, meta);
    if e != NoError then (m, Fail(e))
    else (m.(staged := m.staged[meta.loc := meta.(state := Pending)]), Fail(NoError))
  }

  function ApplyUpsert(m: Meta, meta: ObjectMeta): (Meta, Reply) {
    var e := CheckMeta(m, meta);
    if e != NoError then (m, Fail(e))
    else (m.(objects := m.objects[meta.loc := meta.(state := Committed)]), Fail(NoError))
  }

  function ApplyDeleteStaged(m: Meta, l: Loc): (Meta, Reply) {
    if InvalidLoc(l) then (m, Fail(BadRequest))
    else if l !in m.staged then (m, Fail(NoError))
    else (m.(staged := m.staged - {l}), Reply(NoError, Some(m.staged[l]), None))
  }

  function ApplyDeleteObject(m: Meta, l: Loc): (Meta, Reply) {
    if InvalidLoc(l) then (m, Fail(BadRequest))
    else if l !in m.objects then (m, Fail(NoError))
    else (m.(objects := m.objects - {l}), Reply(NoError, Some(m.objects[l]), None))
  }

  function Bump(r: BlobRef, delta: int): BlobRef {
    r.(refCount := r.refCount + delta)
  }

  /** Creating a reference that exists increments it. */
  function ApplyCreateRef(m: Meta, hash: string, e: Extent): (Meta, Reply) {
    if Blank(hash) || Blank(e.dir) then (m, Fail(BadRequest))
    else if hash in m.refs then (m.(refs := m.refs[hash := Bump(m.refs[hash], 1)]), Fail(NoError))
    else (m.(refs := m.refs[hash := BlobRef(e, 1)]), Fail(NoError))
  }

  function ApplyUpdatePlacements(m: Meta, hash: string, ps: seq<Placement>): (Meta, Reply) {
    if Blank(hash) then (m, Fail(BadRequest))
    else if hash !in m.refs then (m, Fail(ObjectNotFound))
    else
      var r := m.refs[hash];
      (m.(refs := m.refs[hash := r.(extent := r.extent.(placements := ps))]), Fail(NoError))
  }

  function ApplyIncrease(m: Meta, hash: string): (Meta, Reply) {
    if Blank(hash) then (m, Fail(BadRequest))
    else if hash !in m.refs then (m, Fail(ObjectNotFound))
    else (m.(refs := m.refs[hash := Bump(m.refs[hash], 1)]), Fail(NoError))
  }

  /** Dropping the last count removes the reference and reports its path. */
  function ApplyDecrease(m: Meta, hash: string): (Meta, Reply) {
    if Blank(hash) then (m, Fail(BadRequest))
    else if hash !in m.refs then (m, Fail(NoError))
    else if m.refs[hash].refCount <= 1 then
      (m.(refs := m.refs - {hash}), Reply(NoError, None, Some(m.refs[hash].extent.dir)))
    else (m.(refs := m.refs[hash := Bump(m.refs[hash], -1)]), Fail(NoError))
  }

  function Apply(m: Meta, c: Command): (Meta, Reply) {
    match c
    case CreateBucket(b, bm) => ApplyCreateBucket(m, b, bm)
    case DeleteBucket(b) => ApplyDeleteBucket(m, b)
    case StageObject(meta) => ApplyStage(m, meta)
    case UpsertObject(meta) => ApplyUpsert(m, meta)
    case DeleteStaged(l) => ApplyDeleteStaged(m, l)
    case DeleteObject(l) => ApplyDeleteObject(m, l)
    case CreateBlobRef(h, e) => ApplyCreateRef(m, h, e)
    case UpdatePlacements(h, ps) => ApplyUpdatePlacements(m, h, ps)
    case IncreaseBlobRef(h) => ApplyIncrease(m, h)
    case DecreaseBlobRef(h) => ApplyDecrease(m, h)
    case UnknownCommand => (m, Fail(BadRequest))
  }

  function Replay(m: Meta, log: seq<Command>): Meta
    decreases |log|
  {
    if log == [] then m else Replay(Apply(m, log[0]).0, log[1..])
  }

  // --- what every command sequence keeps ---

  predicate EntryOk(buckets: map<string, Bucket>, l: Loc, o: ObjectMeta, state: ObjectState) {
    o.loc == l && l.bucket in buckets && o.state == state && !InvalidLoc(l) && !Blank(o.hash)
  }

  predicate EntriesOk(buckets: map<string, Bucket>, entries: map<Loc, ObjectMeta>, state: ObjectState) {
    forall l <- entries :: EntryOk(buckets, l, entries[l], state)
  }

  predicate BucketsOk(buckets: map<string, Bucket>) {
    forall b <- buckets :: buckets[b].name == b && !Blank(b)
  }

  predicate CountsOk(refs: map<string, BlobRef>) {
    forall h <- refs :: refs[h].refCount >= 1
  }

  predicate RefNamesOk(refs: map<string, BlobRef>) {
    forall h <- refs :: !Blank(h) && !Blank(refs[h].extent.dir)
  }

  predicate RefsOk(refs: map<string, BlobRef>) {
    CountsOk(refs) && RefNamesOk(refs)
  }

  /** Entries live under their own location, in an existing bucket and in the right state;
      every reference is counted at least once. */
  predicate Valid(m: Meta) {
    && BucketsOk(m.buckets)
    && EntriesOk(m.buckets, m.objects, Committed)
    && EntriesOk(m.buckets, m.staged, Pending)
    && RefsOk(m.refs)
  }

  lemma {:induction false} OutsideOk(buckets: map<string, Bucket>, entries: map<Loc, ObjectMeta>, state: ObjectState, b: string)
    requires EntriesOk(buckets, entries, state)
    ensures EntriesOk(buckets - {b}, Outside(entries, b), state)
  {
    forall l | l in Outside(entries, b)
      ensures EntryOk(buckets - {b}, l, Outside(entries, b)[l], state)
    {
      assert EntryOk(buckets, l, entries[l], state);
    }
  }

  lemma {:induction false} EntriesPut(buckets: map<string, Bucket>, entries: map<Loc, ObjectMeta>, state: ObjectState, o: ObjectMeta)
    requires EntriesOk(buckets, entries, state) && EntryOk(buckets, o.loc, o, state)
    ensures EntriesOk(buckets, entries[o.loc := o], state)
  {
    var after := entries[o.loc := o];
    forall l | l in after
      ensures EntryOk(buckets, l, after[l], state)
    {
      assert l in entries ==> EntryOk(buckets, l, entries[l], state);
    }
  }

  lemma {:induction false} EntriesGrow(buckets: map<string, Bucket>, entries: map<Loc, ObjectMeta>, state: ObjectState, b: string, bm: Bucket)
    requires EntriesOk(buckets, entries, state)
    ensures EntriesOk(buckets[b := bm], entries, state)
  {
    forall l | l in entries
      ensures EntryOk(buckets[b := bm], l, entries[l], state)
    {
      assert EntryOk(buckets, l, entries[l], state);
    }
  }

  lemma {:induction false} BucketCommandValid(m: Meta, c: Command)
    requires Valid(m) && (c.CreateBucket? || c.DeleteBucket?)
    ensures Valid(Apply(m, c).0)
  {
    match c
    case CreateBucket(b, bm) =>
      var name := if bm.name != "" then bm.name else b;
      EntriesGrow(m.buckets, m.objects, Committed, name, bm.(name := name));
      EntriesGrow(m.buckets, m.staged, Pending, name, bm.(name := name));
    case DeleteBucket(b) =>
      OutsideOk(m.buckets, m.objects, Committed, b);
      OutsideOk(m.buckets, m.staged, Pending, b);
  }

  lemma {:induction false} EntryCommandValid(m: Meta, c: Command)
    requires Valid(m) && (c.StageObject? || c.UpsertObject? || c.DeleteStaged? || c.DeleteObject?)
    ensures Valid(Apply(m, c).0)
  {
    if c.StageObject? && CheckMeta(m, c.meta) == NoError {
      EntriesPut(m.buckets, m.staged, Pending, c.meta.(state := Pending));
    } else if c.UpsertObject? && CheckMeta(m, c.meta) == NoError {
      EntriesPut(m.buckets, m.objects, Committed, c.meta.(state := Committed));
    }
  }

  lemma {:induction false} RefCommandValid(m: Meta, c: Command)
    requires Valid(m)
    requires c.CreateBlobRef? || c.UpdatePlacements? || c.IncreaseBlobRef? || c.DecreaseBlobRef?
    ensures Valid(Apply(m, c).0)
  {
    if c.hash in m.refs {
      var r := m.refs[c.hash];
      RefsPut(m.refs, c.hash, Bump(r, 1));
      if r.refCount > 1 {
        RefsPut(m.refs, c.hash, Bump(r, -1));
      }
      if c.UpdatePlacements? {
        RefsPut(m.refs, c.hash, r.(extent := r.extent.(placements := c.placements)));
      }
    } else if c.CreateBlobRef? && !Blank(c.hash) && !Blank(c.extent.dir) {
      RefsPut(m.refs, c.hash, BlobRef(c.extent, 1));
    }
  }

  lemma {:induction false} RefsPut(refs: map<string, BlobRef>, h: string, r: BlobRef)
    requires RefsOk(refs) && r.refCount >= 1 && !Blank(h) && !Blank(r.extent.dir)
    ensures RefsOk(refs[h := r])
  {
  }

  /** No command breaks validity, and one that reports an error changes nothing. */
  lemma {:induction false} ApplyKeepsValid(m: Meta, c: Command)
    requires Valid(m)
    ensures Valid(Apply(m, c).0)
    ensures Apply(m, c).1.error != NoError ==> Apply(m, c).0 == m
  {
    if c.CreateBucket? || c.DeleteBucket? {
      BucketCommandValid(m, c);
    } else if c.StageObject? || c.UpsertObject? || c.DeleteStaged? || c.DeleteObject? {
      EntryCommandValid(m, c);
    } else if !c.UnknownCommand? {
      RefCommandValid(m, c);
    }
  }

  /** Every log replayed from the empty machine ends in a valid state. */
  lemma {:induction false} ReplayValid(m: Meta, log: seq<Command>)
    requires Valid(m)
    ensures Valid(Replay(m, log))
    decreases |log|
  {
    if log != [] {
      ApplyKeepsValid(m, log[0]);
      ReplayValid(Apply(m, log[0]).0, log[1..]);
    }
  }

  /** Restoring a snapshot taken after any prefix and replaying the rest equals the whole log. */
  lemma {:induction false} SnapshotPlusSuffix(m: Meta, log: seq<Command>, i: nat)
    requires i <= |log|
    ensures Replay(Replay(m, log[..i]), log[i..]) == Replay(m, log)
    decreases i
  {
    if i == 0 {
      assert log[..0] == [] && log[0..] == log;
    } else {
      SnapshotPlusSuffix(Apply(m, log[0]).0, log[1..], i - 1);
      assert log[..i][1..] == log[1..][..i - 1];
      assert log[i..] == log[1..][i - 1..];
    }
  }

  /** The reference count of a hash, zero when there is no reference. */
  function Count(refs: map<string, BlobRef>, h: string): int {
    if h in refs then refs[h].refCount else 0
  }

  /** The committed objects whose content is h. */
  function Users(objects: map<Loc, ObjectMeta>, h: string): set<Loc> {
    set l | l in objects && objects[l].hash == h
  }

  /** The counts of an idle store equal its users. */
  ghost predicate Balanced(m: Meta) {
    CountsOk(m.refs) && forall h {:trigger Count(m.refs, h)} :: Count(m.refs, h) == |Users(m.objects, h)|
  }

  /** A decrease takes one count from one hash, and the reference goes with the last. */
  lemma {:induction false} DecreaseCounts(m: Meta, g: string)
    requires CountsOk(m.refs) && g in m.refs
    ensures var (m', r) := ApplyDecrease(m, g);
      && m' == m.(refs := m'.refs) && CountsOk(m'.refs)
      && (r.error == NoError ==>
           && (forall h {:trigger Count(m'.refs, h)} :: Count(m'.refs, h) == Count(m.refs, h) - One(g == h))
           && (r.removedPath.Some? <==> g !in m'.refs)
           && (r.removedPath.Some? ==> r.removedPath.value == m.refs[g].extent.dir))
  {
  }

  /** Creating or increasing adds one count to one hash. */
  lemma {:induction false} IncreaseCounts(m: Meta, g: string, e: Extent, create: bool)
    requires CountsOk(m.refs)
    ensures var (m', r) := if create then ApplyCreateRef(m, g, e) else ApplyIncrease(m, g);
      CountsOk(m'.refs) && m' == m.(refs := m'.refs) &&
      (r.error == NoError ==> forall h {:trigger Count(m'.refs, h)} :: Count(m'.refs, h) == Count(m.refs, h) + One(g == h))
  {
  }

  function One(b: bool): nat {
    if b then 1 else 0
  }

  lemma {:induction false} UsersPut(objects: map<Loc, ObjectMeta>, l: Loc, o: ObjectMeta, h: string)
    ensures |Users(objects[l := o], h)| ==
            |Users(objects, h)| - One(l in objects && objects[l].hash == h) + One(o.hash == h)
  {
    var before, after := Users(objects, h), Users(objects[l := o], h);
    if o.hash == h {
      assert after == before + {l};
    } else {
      assert after == before - {l};
    }
  }

  lemma {:induction false} UsersDrop(objects: map<Loc, ObjectMeta>, l: Loc, h: string)
    ensures |Users(objects - {l}, h)| == |Users(objects, h)| - One(l in objects && objects[l].hash == h)
  {
    assert Users(objects - {l}, h) == Users(objects, h) - {l};
  }
}
