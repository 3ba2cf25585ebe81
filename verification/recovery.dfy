/** Recover: expired staged entries are rolled back by the stage they record, then shard sets that
    no reference and no staged entry names are deleted. */
module Recovery {
  import opened Names
  import opened Metadata
  import opened Protocol

  predicate Expired(o: ObjectMeta, cutoff: nat) {
    o.state == Pending && (o.updatedAt == 0 || o.updatedAt <= cutoff)
  }

  /** restoreCommittedLayout, or removal of the layout when nothing is committed. */
  function RollbackLayout(w: World, l: Loc, now: nat): Option<World> {
    if l !in w.meta.objects then Some(Unlink(w, l))
    else
      var o := w.meta.objects[l];
      if o.hash !in w.meta.refs || !Linkable(o.hash, w.meta.refs[o.hash].extent) then None
      else
        var layout := PreviousLayout(Existing(o, Some(w.meta.refs[o.hash])), now);
        Some(w.(layouts := w.layouts[l := layout]))
  }

  /** shouldReleasePendingBlob: the entry's blob is not the committed object's. */
  predicate ShouldRelease(m: Meta, l: Loc, hash: string) {
    l !in m.objects || m.objects[l].hash != hash
  }

  /** releaseBlob: one count less, and the shards go with the last one. */
  function ReleaseBlob(w: World, hash: string): World {
    var (m, r) := ApplyDecrease(w.meta, hash);
    var w' := w.(meta := m);
    if r.removedPath.Some? then DropShards(w', r.removedPath.value, hash) else w'
  }

  function Unstaged(w: World, l: Loc): World {
    w.(meta := ApplyDeleteStaged(w.meta, l).0)
  }

  /** deleteExpiredPendingObject; None when the rollback reports an error. */
  function RecoverOne(w: World, l: Loc, now: nat): Option<World>
    requires l in w.meta.staged
  {
    var o := w.meta.staged[l];
    match o.stage
    case LayoutLinked =>
      var r := RollbackLayout(w, l, now);
      if r.None? then None else Some(Unstaged(r.value, l))
    case BlobRetained =>
      var r := RollbackLayout(w, l, now);
      if r.None? then None
      else if ShouldRelease(r.value.meta, l, o.hash) then Some(Unstaged(ReleaseBlob(r.value, o.hash), l))
      else Some(Unstaged(r.value, l))
    case _ => Some(Unstaged(w, l))
  }

  /** cleanupPendingObjects over the listed entries. */
  function RecoverPending(w: World, order: seq<Loc>, cutoff: nat, now: nat): Option<World>
    decreases |order|
  {
    if order == [] then Some(w)
    else if order[0] in w.meta.staged && Expired(w.meta.staged[order[0]], cutoff) then
      var r := RecoverOne(w, order[0], now);
      if r.None? then None else RecoverPending(r.value, order[1..], cutoff, now)
    else RecoverPending(w, order[1..], cutoff, now)
  }

  /** The names of shard sets that references and staged entries give: directories as they stand,
      only trimmed. */
  function Live(m: Meta): set<SetKey> {
    (set h | h in m.refs && !Blank(h) && !Blank(m.refs[h].extent.dir) :: SetKey(Trim(m.refs[h].extent.dir), h)) +
    (set l | l in m.staged && !Blank(l.key) && !Blank(m.staged[l].hash) ::
       SetKey(Trim(ShardDir(l.key)), m.staged[l].hash))
  }

  /** The sweep lists the sets in folders right below the root and compares the names it finds. */
  predicate Orphan(w: World, k: SetKey) {
    k in w.shards && Listable(k.dir) && k !in Live(w.meta)
  }

  /** A set goes when some orphan's directory, trimmed, leads to it. */
  predicate Swept(w: World, k: SetKey) {
    exists u <- w.shards :: Orphan(w, u) && k == SetAt(Trim(u.dir), u.hash)
  }

  /** An orphan whose name is blank cannot be deleted and fails the sweep. */
  predicate SweepFails(w: World) {
    exists u <- w.shards :: Orphan(w, u) && (Blank(u.dir) || Blank(u.hash))
  }

  function CleanupOrphans(w: World): Option<World> {
    if SweepFails(w) then None else Some(w.(shards := map k | k in w.shards && !Swept(w, k) :: w.shards[k]))
  }

  function Recover(w: World, order: seq<Loc>, cutoff: nat, now: nat): Option<World> {
    var r := RecoverPending(w, order, cutoff, now);
    if r.None? then None else CleanupOrphans(r.value)
  }

  // --- reference counts stay above the users ---

  /** The staged entries whose rollback will give back one reference to h. */
  function Claims(m: Meta, h: string): set<Loc> {
    set l | l in m.staged && m.staged[l].stage == BlobRetained && m.staged[l].hash == h && ShouldRelease(m, l, h)
  }

  /** There are enough counts for every user and every rollback still to come. */
  ghost predicate Covered(m: Meta) {
    RefsOk(m.refs) &&
    forall h {:trigger Count(m.refs, h)} :: Count(m.refs, h) >= |Users(m.objects, h)| + |Claims(m, h)|
  }

  lemma {:induction false} CoveredRefs(m: Meta)
    requires Covered(m)
    ensures forall l <- m.objects :: m.objects[l].hash in m.refs
  {
    forall l | l in m.objects
      ensures m.objects[l].hash in m.refs
    {
      var h := m.objects[l].hash;
      assert l in Users(m.objects, h);
      assert Count(m.refs, h) >= 1;
    }
  }

  /** Forgetting an entry drops at most its own claim. */
  lemma {:induction false} ClaimsWithout(m: Meta, l: Loc, h: string)
    requires l in m.staged
    ensures |Claims(m.(staged := m.staged - {l}), h)| == |Claims(m, h)| - One(l in Claims(m, h))
  {
    assert Claims(m.(staged := m.staged - {l}), h) == Claims(m, h) - {l};
  }

  lemma {:induction false} CoveredWithout(m: Meta, l: Loc)
    requires Covered(m) && l in m.staged
    ensures Covered(m.(staged := m.staged - {l}))
  {
    var m' := m.(staged := m.staged - {l});
    forall h
      ensures Count(m'.refs, h) >= |Users(m'.objects, h)| + |Claims(m', h)|
    {
      ClaimsWithout(m, l, h);
      assert Count(m.refs, h) >= |Users(m.objects, h)| + |Claims(m, h)|;
    }
  }

  /** Giving back the claimed reference and forgetting the entry keeps the rest covered. */
  lemma {:induction false} CoveredRelease(m: Meta, l: Loc)
    requires Covered(m) && l in m.staged && m.staged[l].stage == BlobRetained && ShouldRelease(m, l, m.staged[l].hash)
    ensures var g := m.staged[l].hash;
      g in m.refs && Covered(ApplyDecrease(m, g).0.(staged := m.staged - {l}))
  {
    var g := m.staged[l].hash;
    assert l in Claims(m, g);
    assert Count(m.refs, g) >= 1;
    var d := ApplyDecrease(m, g).0;
    var m' := d.(staged := m.staged - {l});
    DecreaseCounts(m, g);
    forall h
      ensures Count(m'.refs, h) >= |Users(m'.objects, h)| + |Claims(m', h)|
    {
      ClaimsWithout(m, l, h);
      assert Claims(m', h) == Claims(m.(staged := m.staged - {l}), h);
      assert Count(m.refs, h) >= |Users(m.objects, h)| + |Claims(m, h)|;
      assert Count(d.refs, h) == Count(m.refs, h) - One(g == h);
    }
  }

  // --- one entry ---

  /** Rolling this entry back gives back a reference. */
  predicate Releases(m: Meta, l: Loc)
    requires l in m.staged
  {
    m.staged[l].stage == BlobRetained && ShouldRelease(m, l, m.staged[l].hash)
  }

  predicate Relinks(m: Meta, l: Loc)
    requires l in m.staged
  {
    m.staged[l].stage == BlobRetained || m.staged[l].stage == LayoutLinked
  }

  function ReleasedMeta(m: Meta, l: Loc): Meta
    requires l in m.staged
  {
    (if Releases(m, l) then ApplyDecrease(m, m.staged[l].hash).0 else m).(staged := m.staged - {l})
  }

  /** The shard sets left when references disappear together with their sets. */
  function WithoutDropped(shards: map<SetKey, ShardSet>, before: map<string, BlobRef>, after: map<string, BlobRef>): map<SetKey, ShardSet> {
    map k | k in shards && !Dropped(k, before, after) :: shards[k]
  }

  predicate Dropped(k: SetKey, before: map<string, BlobRef>, after: map<string, BlobRef>) {
    k.hash in before && k.hash !in after && k == SetAt(Trim(before[k.hash].extent.dir), k.hash)
  }

  /** The layouts after rolling back one entry. */
  function RelinkedLayouts(w: World, l: Loc, now: nat): map<Loc, Layout>
    requires l in w.meta.staged
  {
    if !Relinks(w.meta, l) then w.layouts
    else if l !in w.meta.objects then w.layouts - {l}
    else if w.meta.objects[l].hash !in w.meta.refs then w.layouts
    else
      var o := w.meta.objects[l];
      w.layouts[l := PreviousLayout(Existing(o, Some(w.meta.refs[o.hash])), now)]
  }

  lemma {:induction false} ReleaseBlobFacts(w: World, g: string)
    requires RefsOk(w.meta.refs) && !Blank(g)
    ensures var w' := ReleaseBlob(w, g);
      && w'.meta == ApplyDecrease(w.meta, g).0
      && w'.layouts == w.layouts
      && w'.shards == WithoutDropped(w.shards, w.meta.refs, w'.meta.refs)
  {
    var w' := ReleaseBlob(w, g);
    forall k | k in w.shards
      ensures k in w'.shards <==> !Dropped(k, w.meta.refs, w'.meta.refs)
    {
    }
  }

  /** What one rollback does to each part of the world. */
  lemma {:induction false} RecoverOneFacts(w: World, l: Loc, now: nat)
    requires l in w.meta.staged && !InvalidLoc(l) && !Blank(w.meta.staged[l].hash) && RefsOk(w.meta.refs)
    requires RecoverOne(w, l, now).Some?
    ensures var w' := RecoverOne(w, l, now).value;
      && w'.meta == ReleasedMeta(w.meta, l)
      && w'.shards == WithoutDropped(w.shards, w.meta.refs, w'.meta.refs)
      && w'.layouts == RelinkedLayouts(w, l, now)
  {
    if Releases(w.meta, l) {
      ReleasingFacts(w, l, now);
    } else {
      KeepingFacts(w, l, now);
    }
  }

  lemma {:induction false} RollbackFacts(w: World, l: Loc, now: nat)
    requires RollbackLayout(w, l, now).Some?
    ensures RollbackLayout(w, l, now).value == w.(layouts := RollbackLayout(w, l, now).value.layouts)
    ensures l in w.meta.staged && Relinks(w.meta, l) ==> RollbackLayout(w, l, now).value.layouts == RelinkedLayouts(w, l, now)
  {
  }

  lemma {:induction false} ReleasingFacts(w: World, l: Loc, now: nat)
    requires l in w.meta.staged && !InvalidLoc(l) && !Blank(w.meta.staged[l].hash) && RefsOk(w.meta.refs)
    requires RecoverOne(w, l, now).Some? && Releases(w.meta, l)
    ensures var w' := RecoverOne(w, l, now).value;
      && w'.meta == ReleasedMeta(w.meta, l)
      && w'.shards == WithoutDropped(w.shards, w.meta.refs, w'.meta.refs)
      && w'.layouts == RelinkedLayouts(w, l, now)
  {
    RollbackFacts(w, l, now);
    var r := RollbackLayout(w, l, now).value;
    ReleaseBlobFacts(r, w.meta.staged[l].hash);
    assert RecoverOne(w, l, now).value == Unstaged(ReleaseBlob(r, w.meta.staged[l].hash), l);
  }

  lemma {:induction false} KeepingFacts(w: World, l: Loc, now: nat)
    requires l in w.meta.staged && !InvalidLoc(l) && RecoverOne(w, l, now).Some? && !Releases(w.meta, l)
    ensures var w' := RecoverOne(w, l, now).value;
      && w'.meta == ReleasedMeta(w.meta, l)
      && w'.shards == WithoutDropped(w.shards, w.meta.refs, w'.meta.refs)
      && w'.layouts == RelinkedLayouts(w, l, now)
  {
    if Relinks(w.meta, l) {
      RollbackFacts(w, l, now);
    }
    assert WithoutDropped(w.shards, w.meta.refs, w.meta.refs) == w.shards;
  }

  /** Rolling back an entry of a covered store succeeds and leaves it covered. */
  lemma {:induction false} RecoverOneCovered(w: World, l: Loc, now: nat)
    requires Covered(w.meta) && l in w.meta.staged
    ensures RecoverOne(w, l, now).Some? && Covered(ReleasedMeta(w.meta, l))
  {
    CoveredRefs(w.meta);
    if Releases(w.meta, l) {
      CoveredRelease(w.meta, l);
    } else {
      CoveredWithout(w.meta, l);
    }
  }

  // --- all entries ---

  predicate StagedNamesOk(staged: map<Loc, ObjectMeta>) {
    forall l <- staged :: !InvalidLoc(l) && !Blank(staged[l].hash)
  }

  /** References only disappear or lose counts; where they point stays. */
  predicate Shrinks(before: map<string, BlobRef>, after: map<string, BlobRef>) {
    after.Keys <= before.Keys && forall h <- after :: after[h].extent == before[h].extent
  }

  predicate Distinct(order: seq<Loc>) {
    forall i, j | 0 <= i < j < |order| :: order[i] != order[j]
  }

  predicate IsDue(m: Meta, l: Loc, cutoff: nat) {
    l in m.staged && Expired(m.staged[l], cutoff)
  }

  /** The expired entries among these whose rollback gives back a reference to h. */
  function ExpiredClaims(m: Meta, order: seq<Loc>, cutoff: nat, h: string): set<Loc> {
    set l | l in order && IsDue(m, l, cutoff) && Releases(m, l) && m.staged[l].hash == h
  }

  function Less0(n: int, d: nat): nat {
    if n <= d then 0 else n - d
  }

  lemma {:induction false} ReleasedMetaShrinks(m: Meta, l: Loc)
    requires l in m.staged && RefsOk(m.refs)
    ensures var m' := ReleasedMeta(m, l);
      && m'.buckets == m.buckets && m'.objects == m.objects && m'.staged == m.staged - {l}
      && RefsOk(m'.refs) && Shrinks(m.refs, m'.refs)
  {
  }

  lemma {:induction false} ReleasedMetaCount(m: Meta, l: Loc, h: string)
    requires l in m.staged && RefsOk(m.refs) && !Blank(m.staged[l].hash)
    ensures Count(ReleasedMeta(m, l).refs, h) == Less0(Count(m.refs, h), One(Releases(m, l) && m.staged[l].hash == h))
  {
    var g := m.staged[l].hash;
    if g in m.refs {
      DecreaseCounts(m, g);
      assert ApplyDecrease(m, g).1.error == NoError;
      assert Count(ApplyDecrease(m, g).0.refs, h) == Count(m.refs, h) - One(g == h);
    }
    assert h in m.refs ==> m.refs[h].refCount >= 1;
  }

  lemma {:induction false} ExpiredClaimsStep(m: Meta, order: seq<Loc>, cutoff: nat, h: string)
    requires order != [] && Distinct(order)
    ensures !IsDue(m, order[0], cutoff) ==> ExpiredClaims(m, order[1..], cutoff, h) == ExpiredClaims(m, order, cutoff, h)
    ensures IsDue(m, order[0], cutoff) && RefsOk(m.refs) ==>
      |ExpiredClaims(ReleasedMeta(m, order[0]), order[1..], cutoff, h)| ==
      |ExpiredClaims(m, order, cutoff, h)| - One(Releases(m, order[0]) && m.staged[order[0]].hash == h)
  {
    var l, rest := order[0], order[1..];
    assert forall k :: k in order <==> k == l || k in rest;
    if IsDue(m, l, cutoff) && RefsOk(m.refs) {
      ExpiredClaimsDue(m, order, cutoff, h);
    }
  }

  lemma {:induction false} ExpiredClaimsDue(m: Meta, order: seq<Loc>, cutoff: nat, h: string)
    requires order != [] && Distinct(order) && IsDue(m, order[0], cutoff) && RefsOk(m.refs)
    ensures ExpiredClaims(ReleasedMeta(m, order[0]), order[1..], cutoff, h) == ExpiredClaims(m, order, cutoff, h) - {order[0]}
  {
    var l, rest := order[0], order[1..];
    assert forall k :: k in order <==> k == l || k in rest;
    assert l !in rest;
    ReleasedMetaShrinks(m, l);
  }

  lemma {:induction false} WithoutDroppedTwice(shards: map<SetKey, ShardSet>, r0: map<string, BlobRef>, r1: map<string, BlobRef>, r2: map<string, BlobRef>)
    requires Shrinks(r0, r1) && Shrinks(r1, r2)
    ensures WithoutDropped(WithoutDropped(shards, r0, r1), r1, r2) == WithoutDropped(shards, r0, r2)
  {
    forall k
      ensures Dropped(k, r0, r2) <==> Dropped(k, r0, r1) || Dropped(k, r1, r2)
    {
    }
  }

  function Remaining(m: Meta, order: seq<Loc>, cutoff: nat): map<Loc, ObjectMeta> {
    map l | l in m.staged && !(l in order && IsDue(m, l, cutoff)) :: m.staged[l]
  }

  lemma {:induction false} RemainingStep(m: Meta, order: seq<Loc>, cutoff: nat)
    requires order != [] && Distinct(order)
    ensures !IsDue(m, order[0], cutoff) ==> Remaining(m, order[1..], cutoff) == Remaining(m, order, cutoff)
    ensures IsDue(m, order[0], cutoff) && RefsOk(m.refs) ==>
      Remaining(ReleasedMeta(m, order[0]), order[1..], cutoff) == Remaining(m, order, cutoff)
  {
    var l, rest := order[0], order[1..];
    assert forall k :: k in order <==> k == l || k in rest;
    if IsDue(m, l, cutoff) && RefsOk(m.refs) {
      ReleasedMetaShrinks(m, l);
    }
  }

  /** The first listed entry, if due, is rolled back before the rest is looked at. */
  lemma {:induction false} RecoverPendingUnfold(w: World, order: seq<Loc>, cutoff: nat, now: nat)
    requires RefsOk(w.meta.refs) && StagedNamesOk(w.meta.staged) && order != []
    requires RecoverPending(w, order, cutoff, now).Some?
    ensures IsDue(w.meta, order[0], cutoff) ==>
      && RecoverOne(w, order[0], now).Some?
      && var w1 := RecoverOne(w, order[0], now).value;
         && RecoverPending(w, order, cutoff, now) == RecoverPending(w1, order[1..], cutoff, now)
         && w1.meta == ReleasedMeta(w.meta, order[0])
         && w1.shards == WithoutDropped(w.shards, w.meta.refs, w1.meta.refs)
         && RefsOk(w1.meta.refs) && StagedNamesOk(w1.meta.staged) && Shrinks(w.meta.refs, w1.meta.refs)
    ensures !IsDue(w.meta, order[0], cutoff) ==>
      RecoverPending(w, order, cutoff, now) == RecoverPending(w, order[1..], cutoff, now)
  {
    if IsDue(w.meta, order[0], cutoff) {
      RecoverOneFacts(w, order[0], now);
      ReleasedMetaShrinks(w.meta, order[0]);
    }
  }

  /** The listed expired entries go; committed objects stay, and references only shrink. */
  lemma {:induction false} RecoverPendingMeta(w: World, order: seq<Loc>, cutoff: nat, now: nat)
    requires RefsOk(w.meta.refs) && StagedNamesOk(w.meta.staged) && Distinct(order)
    requires RecoverPending(w, order, cutoff, now).Some?
    ensures var m' := RecoverPending(w, order, cutoff, now).value.meta;
      && m'.buckets == w.meta.buckets && m'.objects == w.meta.objects
      && m'.staged == Remaining(w.meta, order, cutoff)
      && RefsOk(m'.refs) && Shrinks(w.meta.refs, m'.refs)
    decreases |order|
  {
    if order != [] {
      RecoverPendingUnfold(w, order, cutoff, now);
      RemainingStep(w.meta, order, cutoff);
      if IsDue(w.meta, order[0], cutoff) {
        ReleasedMetaShrinks(w.meta, order[0]);
        RecoverPendingMeta(RecoverOne(w, order[0], now).value, order[1..], cutoff, now);
      } else {
        RecoverPendingMeta(w, order[1..], cutoff, now);
      }
    }
  }

  /** Each hash loses as many counts as expired entries claim it, never below zero. */
  lemma {:induction false} RecoverPendingCount(w: World, order: seq<Loc>, cutoff: nat, now: nat, h: string)
    requires RefsOk(w.meta.refs) && StagedNamesOk(w.meta.staged) && Distinct(order)
    requires RecoverPending(w, order, cutoff, now).Some?
    ensures Count(RecoverPending(w, order, cutoff, now).value.meta.refs, h) ==
            Less0(Count(w.meta.refs, h), |ExpiredClaims(w.meta, order, cutoff, h)|)
    decreases |order|
  {
    if order == [] {
      assert ExpiredClaims(w.meta, order, cutoff, h) == {};
      assert h in w.meta.refs ==> w.meta.refs[h].refCount >= 1;
    } else {
      RecoverPendingUnfold(w, order, cutoff, now);
      ExpiredClaimsStep(w.meta, order, cutoff, h);
      if IsDue(w.meta, order[0], cutoff) {
        ReleasedMetaCount(w.meta, order[0], h);
        RecoverPendingCount(RecoverOne(w, order[0], now).value, order[1..], cutoff, now, h);
      } else {
        RecoverPendingCount(w, order[1..], cutoff, now, h);
      }
    }
  }

  /** Exactly the sets of the references that disappeared are deleted. */
  lemma {:induction false} RecoverPendingShards(w: World, order: seq<Loc>, cutoff: nat, now: nat)
    requires RefsOk(w.meta.refs) && StagedNamesOk(w.meta.staged) && Distinct(order)
    requires RecoverPending(w, order, cutoff, now).Some?
    ensures var w' := RecoverPending(w, order, cutoff, now).value;
      w'.shards == WithoutDropped(w.shards, w.meta.refs, w'.meta.refs)
    decreases |order|
  {
    if order == [] {
      assert WithoutDropped(w.shards, w.meta.refs, w.meta.refs) == w.shards;
    } else {
      RecoverPendingUnfold(w, order, cutoff, now);
      if IsDue(w.meta, order[0], cutoff) {
        var w1 := RecoverOne(w, order[0], now).value;
        RecoverPendingShards(w1, order[1..], cutoff, now);
        RecoverPendingMeta(w1, order[1..], cutoff, now);
        WithoutDroppedTwice(w.shards, w.meta.refs, w1.meta.refs, RecoverPending(w1, order[1..], cutoff, now).value.meta.refs);
      } else {
        RecoverPendingShards(w, order[1..], cutoff, now);
      }
    }
  }

  /** From a covered store, cleaning up succeeds and stays covered. */
  lemma {:induction false} RecoverPendingCovered(w: World, order: seq<Loc>, cutoff: nat, now: nat)
    requires Covered(w.meta) && StagedNamesOk(w.meta.staged)
    ensures RecoverPending(w, order, cutoff, now).Some?
    ensures Covered(RecoverPending(w, order, cutoff, now).value.meta)
    decreases |order|
  {
    if order != [] {
      if IsDue(w.meta, order[0], cutoff) {
        RecoverOneCovered(w, order[0], now);
        RecoverOneFacts(w, order[0], now);
        ReleasedMetaShrinks(w.meta, order[0]);
        RecoverPendingCovered(RecoverOne(w, order[0], now).value, order[1..], cutoff, now);
      } else {
        RecoverPendingCovered(w, order[1..], cutoff, now);
      }
    }
  }

  // --- which shard sets Recover removes ---

  predicate TrimmedName(k: SetKey) {
    (Listable(k.dir) ==> Trim(k.dir) == k.dir && !Blank(k.dir)) && !Blank(k.hash)
  }

  /** Names on disk carry no surrounding white space. */
  predicate TrimmedDirs(w: World) {
    forall k <- w.shards :: TrimmedName(k)
  }

  /** The sweep does not come to the set, or finds its name among the live ones. */
  predicate Spared(m: Meta, k: SetKey) {
    !Listable(k.dir) || k in Live(m)
  }

  /** With such names, orphan collection goes through and keeps exactly the spared sets. */
  lemma {:induction false} CleanupExact(w: World, k: SetKey)
    requires TrimmedDirs(w)
    ensures CleanupOrphans(w).Some?
    ensures var w' := CleanupOrphans(w).value;
      && w' == w.(shards := w'.shards)
      && (k in w'.shards <==> k in w.shards && Spared(w.meta, k))
      && (k in w'.shards ==> w'.shards[k] == w.shards[k])
  {
    if k in w.shards && !Spared(w.meta, k) {
      ListableLeadsHome(k.dir);
      assert Orphan(w, k) && k == SetAt(Trim(k.dir), k.hash);
    }
    if Swept(w, k) {
      var u :| u in w.shards && Orphan(w, u) && k == SetAt(Trim(u.dir), u.hash);
      ListableLeadsHome(u.dir);
    }
  }

  lemma {:induction false} RecoverSweeps(w: World, order: seq<Loc>, cutoff: nat, now: nat)
    requires RefsOk(w.meta.refs) && StagedNamesOk(w.meta.staged) && Distinct(order) && TrimmedDirs(w)
    requires RecoverPending(w, order, cutoff, now).Some?
    ensures Recover(w, order, cutoff, now).Some?
    ensures TrimmedDirs(RecoverPending(w, order, cutoff, now).value) && TrimmedDirs(Recover(w, order, cutoff, now).value)
  {
    var w1 := RecoverPending(w, order, cutoff, now).value;
    RecoverPendingShards(w, order, cutoff, now);
    assert w1.shards.Keys <= w.shards.Keys;
    CleanupExact(w1, SetKey("", ""));
  }

  /** A set survives Recover exactly when no reference loses its last count to expired entries and
      takes the set with it, and the sweep spares it: an expired blob_retained entry can take away
      the set a fresh put of the same content relies on. */
  lemma {:induction false} RecoverKeepsSetIff(w: World, order: seq<Loc>, cutoff: nat, now: nat, k: SetKey)
    requires RefsOk(w.meta.refs) && StagedNamesOk(w.meta.staged) && Distinct(order) && TrimmedDirs(w)
    requires RecoverPending(w, order, cutoff, now).Some? && k in w.shards
    ensures Recover(w, order, cutoff, now).Some?
    ensures var w' := Recover(w, order, cutoff, now).value;
      && (k in w'.shards <==> Spared(w'.meta, k) && !TakenAway(w.meta, order, cutoff, k))
      && (k in w'.shards ==> w'.shards[k] == w.shards[k])
  {
    var w1 := RecoverPending(w, order, cutoff, now).value;
    RecoverSweeps(w, order, cutoff, now);
    RecoverPendingShards(w, order, cutoff, now);
    RecoverPendingMeta(w, order, cutoff, now);
    RecoverPendingCount(w, order, cutoff, now, k.hash);
    CleanupExact(w1, k);
    assert k.hash in w1.meta.refs ==> w1.meta.refs[k.hash].refCount >= 1;
  }

  /** Expired entries give back the last counts of the reference whose set this is. */
  predicate TakenAway(m: Meta, order: seq<Loc>, cutoff: nat, k: SetKey) {
    && k.hash in m.refs && k == SetAt(Trim(m.refs[k.hash].extent.dir), k.hash)
    && |ExpiredClaims(m, order, cutoff, k.hash)| >= m.refs[k.hash].refCount
  }

  /** A staged entry names the set. */
  predicate EntryNames(m: Meta, k: SetKey) {
    exists l <- m.staged :: !Blank(l.key) && !Blank(m.staged[l].hash) && k == SetKey(Trim(ShardDir(l.key)), m.staged[l].hash)
  }

  lemma {:induction false} SparedIff(m: Meta, h: string)
    requires RefsOk(m.refs) && h in m.refs
    ensures var d := Trim(m.refs[h].extent.dir); Spared(m, SetAt(d, h)) <==> Sheltered(d) || EntryNames(m, SetAt(d, h))
  {
    var d := Trim(m.refs[h].extent.dir);
    var k := SetAt(d, h);
    if Folder(d) == d {
      assert k == SetKey(Trim(m.refs[h].extent.dir), h);
    }
  }

  /** The set of a reference that is left survives exactly when the reference's directory is the name
      of its folder or leads where the sweep does not come, or a staged entry names the folder. */
  lemma {:induction false} RecoverKeepsReferencedSetIff(w: World, order: seq<Loc>, cutoff: nat, now: nat, h: string)
    requires RefsOk(w.meta.refs) && StagedNamesOk(w.meta.staged) && Distinct(order) && TrimmedDirs(w)
    requires RecoverPending(w, order, cutoff, now).Some? && h in RecoverPending(w, order, cutoff, now).value.meta.refs
    requires h in w.meta.refs && SetAt(Trim(w.meta.refs[h].extent.dir), h) in w.shards
    ensures Recover(w, order, cutoff, now).Some?
    ensures var w' := Recover(w, order, cutoff, now).value; var d := Trim(w.meta.refs[h].extent.dir); var k := SetAt(d, h);
      && h in w'.meta.refs && w'.meta.refs[h].extent == w.meta.refs[h].extent
      && (k in w'.shards <==> Sheltered(d) || EntryNames(w'.meta, k))
      && (k in w'.shards ==> w'.shards[k] == w.shards[k])
  {
    var w1 := RecoverPending(w, order, cutoff, now).value;
    var k := SetAt(Trim(w.meta.refs[h].extent.dir), h);
    RecoverSweeps(w, order, cutoff, now);
    RecoverKeepsSetIff(w, order, cutoff, now, k);
    RecoverPendingMeta(w, order, cutoff, now);
    RecoverPendingCount(w, order, cutoff, now, h);
    CleanupExact(w1, k);
    SparedIff(w1.meta, h);
  }

  /** Recover leaves a hash at least as many counts as committed users exactly when it starts with
      one more for every expired entry that will give one back. */
  lemma {:induction false} RecoverKeepsUsersIff(w: World, order: seq<Loc>, cutoff: nat, now: nat, h: string)
    requires RefsOk(w.meta.refs) && StagedNamesOk(w.meta.staged) && Distinct(order)
    requires Recover(w, order, cutoff, now).Some?
    ensures var m := Recover(w, order, cutoff, now).value.meta; var n := |Users(w.meta.objects, h)|;
      Count(m.refs, h) >= |Users(m.objects, h)| <==> n == 0 || Count(w.meta.refs, h) >= n + |ExpiredClaims(w.meta, order, cutoff, h)|
  {
    RecoverPendingCount(w, order, cutoff, now, h);
    RecoverPendingMeta(w, order, cutoff, now);
  }
}
