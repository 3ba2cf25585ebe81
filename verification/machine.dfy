/** The metadata state machine of one replica, as Raft drives it. */
module StateMachine {
  import opened Names
  import opened Metadata
  import opened Order

  predicate HasPrefix(s: string, prefix: string) {
    prefix <= s
  }

  /** matchesStagedObject, with the empty bucket as a wildcard; the listing of objects requires one. */
  predicate Matches(m: ObjectMeta, bucket: string, prefix: string, anyBucket: bool) {
    (anyBucket || m.loc.bucket == bucket) && HasPrefix(m.loc.key, prefix)
  }

  function Matching(entries: map<Loc, ObjectMeta>, bucket: string, prefix: string, anyBucket: bool): set<Loc> {
    set l | l in entries && Matches(entries[l], bucket, prefix, anyBucket)
  }

  /** The listing holds exactly the matching entries, strictly sorted. */
  ghost predicate IsListing(entries: map<Loc, ObjectMeta>, bucket: string, prefix: string, anyBucket: bool, r: seq<ObjectMeta>) {
    Sorted(r) && forall m :: m in r <==> m.loc in Matching(entries, bucket, prefix, anyBucket) && entries[m.loc] == m
  }

  /** There is only one such listing, so replicas answer alike whatever order their maps iterate in. */
  lemma {:induction false} ListingUnique(entries: map<Loc, ObjectMeta>, bucket: string, prefix: string, anyBucket: bool, a: seq<ObjectMeta>, b: seq<ObjectMeta>)
    requires IsListing(entries, bucket, prefix, anyBucket, a) && IsListing(entries, bucket, prefix, anyBucket, b)
    ensures a == b
  {
    forall l
      ensures l in Locs(a) <==> l in Locs(b)
    {
      ListedLocs(a, l);
      ListedLocs(b, l);
    }
    AscendingUnique(Locs(a), Locs(b));
    forall i | 0 <= i < |a|
      ensures a[i] == b[i]
    {
      assert a[i] in a && b[i] in b;
      assert Locs(a)[i] == Locs(b)[i];
    }
    assert |Locs(a)| == |Locs(b)|;
  }

  lemma {:induction false} ListedLocs(a: seq<ObjectMeta>, l: Loc)
    ensures l in Locs(a) <==> exists m <- a :: m.loc == l
  {
    if m :| m in a && m.loc == l {
      var i :| 0 <= i < |a| && a[i] == m;
      assert Locs(a)[i] == l;
    }
    if l in Locs(a) {
      var i :| 0 <= i < |Locs(a)| && Locs(a)[i] == l;
      assert a[i] in a;
    }
  }

  predicate OwnLocs(entries: map<Loc, ObjectMeta>) {
    forall l <- entries :: entries[l].loc == l
  }

  /** Range over the map, keep what matches, sort. */
  method List(entries: map<Loc, ObjectMeta>, bucket: string, prefix: string, anyBucket: bool) returns (r: seq<ObjectMeta>)
    requires OwnLocs(entries)
    ensures IsListing(entries, bucket, prefix, anyBucket, r)
  {
    r := [];
    var rest := entries.Keys;
    while rest != {}
      invariant rest <= entries.Keys && Sorted(r)
      invariant forall m :: m in r <==> m.loc in Matching(entries, bucket, prefix, anyBucket) && m.loc !in rest && entries[m.loc] == m
      decreases |rest|
    {
      var l :| l in rest;
      var m := entries[l];
      if Matches(m, bucket, prefix, anyBucket) {
        InsertSorted(r, m);
        r := Insert(r, m);
      }
      rest := rest - {l};
    }
  }

  /** One of the two deletion loops of deleteBucket. */
  method DropBucketEntries(entries: map<Loc, ObjectMeta>, bucket: string) returns (r: map<Loc, ObjectMeta>)
    ensures r == Outside(entries, bucket)
  {
    r := entries;
    var rest := entries.Keys;
    while rest != {}
      invariant rest <= entries.Keys && r.Keys <= entries.Keys
      invariant forall l <- entries :: l in r <==> l in rest || entries[l].loc.bucket != bucket
      invariant forall l <- r :: r[l] == entries[l]
      decreases |rest|
    {
      var l :| l in rest;
      if entries[l].loc.bucket == bucket {
        r := r - {l};
      }
      rest := rest - {l};
    }
  }

  class Machine {
    var closed: bool
    var buckets: map<string, Bucket>
    var objects: map<Loc, ObjectMeta>
    var staged: map<Loc, ObjectMeta>
    var refs: map<string, BlobRef>

    ghost function State(): Meta
      reads this
    {
      Meta(buckets, objects, staged, refs)
    }

    constructor ()
      ensures !closed && State() == EmptyMeta && Valid(State())
    {
      closed, buckets, objects, staged, refs := false, map[], map[], map[], map[];
    }

    /** Update: a closed machine refuses, an open one applies the command; either way it stays valid. */
    method Update(c: Command) returns (r: Reply)
      modifies this
      ensures closed == old(closed)
      ensures (State(), r) == if closed then (old(State()), Fail(BadRequest)) else Apply(old(State()), c)
      ensures Valid(old(State())) ==> Valid(State())
    {
      if Valid(State()) {
        ApplyKeepsValid(State(), c);
      }
      if closed {
        return Fail(BadRequest);
      }
      match c
      case CreateBucket(b, bm) => r := CreateBucketEntry(b, bm);
      case DeleteBucket(b) => r := DeleteBucketEntry(b);
      case StageObject(m) => r := PutEntry(m, Pending);
      case UpsertObject(m) => r := PutEntry(m, Committed);
      case DeleteStaged(l) => r := DeleteEntry(l, Pending);
      case DeleteObject(l) => r := DeleteEntry(l, Committed);
      case CreateBlobRef(h, e) => r := CreateRef(h, e);
      case UpdatePlacements(h, ps) => r := SetPlacements(h, ps);
      case IncreaseBlobRef(h) => r := IncreaseRef(h);
      case DecreaseBlobRef(h) => r := DecreaseRef(h);
      case UnknownCommand => r := Fail(BadRequest);
    }

    method CreateBucketEntry(bucket: string, bucketMeta: Bucket) returns (r: Reply)
      modifies this`buckets
      ensures (State(), r) == ApplyCreateBucket(old(State()), bucket, bucketMeta)
    {
      var name := bucket;
      if bucketMeta.name != "" {
        name := bucketMeta.name;
      }
      if Blank(name) {
        return Fail(BadRequest);
      }
      if name in buckets {
        return Fail(BucketExists);
      }
      buckets := buckets[name := bucketMeta.(name := name)];
      r := Fail(NoError);
    }

    method DeleteBucketEntry(bucket: string) returns (r: Reply)
      modifies this`buckets, this`objects, this`staged
      ensures (State(), r) == ApplyDeleteBucket(old(State()), bucket)
    {
      if Blank(bucket) {
        return Fail(BadRequest);
      }
      if bucket !in buckets {
        return Fail(BucketNotFound);
      }
      buckets := buckets - {bucket};
      objects := DropBucketEntries(objects, bucket);
      staged := DropBucketEntries(staged, bucket);
      r := Fail(NoError);
    }

    /** stageObjectMeta and upsertObjectMeta. */
    method PutEntry(m: ObjectMeta, state: ObjectState) returns (r: Reply)
      modifies this`objects, this`staged
      ensures (State(), r) == if state == Pending then ApplyStage(old(State()), m) else ApplyUpsert(old(State()), m)
    {
      if InvalidLoc(m.loc) || Blank(m.hash) {
        return Fail(BadRequest);
      }
      if m.loc.bucket !in buckets {
        return Fail(BucketNotFound);
      }
      if state == Pending {
        staged := staged[m.loc := m.(state := Pending)];
      } else {
        objects := objects[m.loc := m.(state := Committed)];
      }
      r := Fail(NoError);
    }

    /** deleteStagedObjectMeta and deleteObjectMeta. */
    method DeleteEntry(l: Loc, state: ObjectState) returns (r: Reply)
      modifies this`objects, this`staged
      ensures (State(), r) == if state == Pending then ApplyDeleteStaged(old(State()), l) else ApplyDeleteObject(old(State()), l)
    {
      if InvalidLoc(l) {
        return Fail(BadRequest);
      }
      if state == Pending && l in staged {
        r := Reply(NoError, Some(staged[l]), None);
        staged := staged - {l};
      } else if state == Committed && l in objects {
        r := Reply(NoError, Some(objects[l]), None);
        objects := objects - {l};
      } else {
        r := Fail(NoError);
      }
    }

    method CreateRef(hash: string, e: Extent) returns (r: Reply)
      modifies this`refs
      ensures (State(), r) == ApplyCreateRef(old(State()), hash, e)
    {
      if Blank(hash) || Blank(e.dir) {
        return Fail(BadRequest);
      }
      if hash in refs {
        refs := refs[hash := Bump(refs[hash], 1)];
      } else {
        refs := refs[hash := BlobRef(e, 1)];
      }
      r := Fail(NoError);
    }

    method SetPlacements(hash: string, ps: seq<Placement>) returns (r: Reply)
      modifies this`refs
      ensures (State(), r) == ApplyUpdatePlacements(old(State()), hash, ps)
    {
      if Blank(hash) {
        return Fail(BadRequest);
      }
      if hash !in refs {
        return Fail(ObjectNotFound);
      }
      refs := refs[hash := refs[hash].(extent := refs[hash].extent.(placements := ps))];
      r := Fail(NoError);
    }

    method IncreaseRef(hash: string) returns (r: Reply)
      modifies this`refs
      ensures (State(), r) == ApplyIncrease(old(State()), hash)
    {
      if Blank(hash) {
        return Fail(BadRequest);
      }
      if hash !in refs {
        return Fail(ObjectNotFound);
      }
      refs := refs[hash := Bump(refs[hash], 1)];
      r := Fail(NoError);
    }

    method DecreaseRef(hash: string) returns (r: Reply)
      modifies this`refs
      ensures (State(), r) == ApplyDecrease(old(State()), hash)
    {
      if Blank(hash) {
        return Fail(BadRequest);
      }
      if hash !in refs {
        return Fail(NoError);
      }
      if refs[hash].refCount <= 1 {
        r := Reply(NoError, None, Some(refs[hash].extent.dir));
        refs := refs - {hash};
        return;
      }
      refs := refs[hash := Bump(refs[hash], -1)];
      r := Fail(NoError);
    }

    method ListObjects(bucket: string, prefix: string) returns (error: ErrorCode, r: seq<ObjectMeta>)
      requires Valid(State())
      ensures error == if closed then BadRequest else if bucket in buckets then NoError else BucketNotFound
      ensures error == NoError ==> IsListing(objects, bucket, prefix, false, r)
    {
      if closed {
        return BadRequest, [];
      }
      if bucket !in buckets {
        return BucketNotFound, [];
      }
      error := NoError;
      assert OwnLocs(objects) by {
        forall l | l in objects
          ensures objects[l].loc == l
        {
          assert EntryOk(buckets, l, objects[l], Committed);
        }
      }
      r := List(objects, bucket, prefix, false);
    }

    method ListStaged(bucket: string, prefix: string) returns (error: ErrorCode, r: seq<ObjectMeta>)
      requires Valid(State())
      ensures error == if closed then BadRequest else if bucket == "" || bucket in buckets then NoError else BucketNotFound
      ensures error == NoError ==> IsListing(staged, bucket, prefix, bucket == "", r)
    {
      if closed {
        return BadRequest, [];
      }
      if bucket != "" && bucket !in buckets {
        return BucketNotFound, [];
      }
      error := NoError;
      assert OwnLocs(staged) by {
        forall l | l in staged
          ensures staged[l].loc == l
        {
          assert EntryOk(buckets, l, staged[l], Pending);
        }
      }
      r := List(staged, bucket, prefix, bucket == "");
    }

    /** listBuckets, by name. */
    method ListBuckets() returns (error: ErrorCode, r: seq<string>)
      ensures error == if closed then BadRequest else NoError
      ensures forall b :: b in r <==> b in buckets && !closed
      ensures forall i, j | 0 <= i < j < |r| :: Less(r[i], r[j])
    {
      if closed {
        return BadRequest, [];
      }
      error, r := NoError, [];
      var rest := buckets.Keys;
      while rest != {}
        invariant rest <= buckets.Keys
        invariant forall b :: b in r <==> b in buckets && b !in rest
        invariant NamesSorted(r)
        decreases |rest|
      {
        var b :| b in rest;
        InsertNameSorted(r, b);
        r := InsertName(r, b);
        rest := rest - {b};
      }
    }

    /** listBlobRefs: every hash once, in no particular order. */
    method ListRefs() returns (error: ErrorCode, r: seq<string>)
      ensures error == if closed then BadRequest else NoError
      ensures forall h :: h in r <==> h in refs && !closed
      ensures forall i, j | 0 <= i < j < |r| :: r[i] != r[j]
    {
      if closed {
        return BadRequest, [];
      }
      error, r := NoError, [];
      var rest := refs.Keys;
      while rest != {}
        invariant rest <= refs.Keys
        invariant forall h :: h in r <==> h in refs && h !in rest
        invariant forall i, j | 0 <= i < j < |r| :: r[i] != r[j]
        decreases |rest|
      {
        var h :| h in rest;
        r := r + [h];
        rest := rest - {h};
      }
    }

    method SaveSnapshot() returns (m: Meta)
      ensures m == State()
    {
      m := Meta(buckets, objects, staged, refs);
    }

    method RecoverFromSnapshot(m: Meta)
      modifies this`buckets, this`objects, this`staged, this`refs
      ensures State() == m
    {
      buckets, objects, staged, refs := m.buckets, m.objects, m.staged, m.refs;
    }

    method Close()
      modifies this`closed
      ensures closed
    {
      closed := true;
    }
  }

  /** A replica that restores a snapshot taken after any prefix of the log and applies the rest
      ends in the state of one that applied the whole log. */
  method CatchUp(machine: Machine, log: seq<Command>, i: nat) returns (late: Machine)
    requires i <= |log| && !machine.closed && machine.State() == Replay(EmptyMeta, log[..i])
    ensures fresh(late) && !late.closed && late.State() == Replay(EmptyMeta, log) && Valid(late.State())
  {
    var snapshot := machine.SaveSnapshot();
    late := new Machine();
    ReplayValid(EmptyMeta, log[..i]);
    late.RecoverFromSnapshot(snapshot);
    SnapshotPlusSuffix(EmptyMeta, log, i);
    ApplyLog(late, log[i..]);
  }

  /** The commands of a log, one after the other. */
  method ApplyLog(machine: Machine, log: seq<Command>)
    requires !machine.closed && Valid(machine.State())
    modifies machine
    ensures !machine.closed && Valid(machine.State()) && machine.State() == Replay(old(machine.State()), log)
  {
    for j := 0 to |log|
      invariant !machine.closed && Valid(machine.State())
      invariant Replay(machine.State(), log[j..]) == Replay(old(machine.State()), log)
    {
      assert log[j..][0] == log[j] && log[j..][1..] == log[j + 1..];
      var r := machine.Update(log[j]);
    }
    assert log[|log|..] == [];
  }
}
