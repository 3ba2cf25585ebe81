/** Dedupe as it runs: collect, create missing references, correct counts, relink layouts. */
module Dedupe {
  import opened Names
  import opened Metadata
  import opened Order
  import opened StateMachine
  import opened Protocol
  import opened Reconcile
  import opened ObjectStore
  import opened Maintenance

  /** Some run of n fixes leads from one world to the other. */
  ghost predicate Fixed(w0: World, n: nat, w: World) {
    exists fs :: |fs| == n && FixesEnabled(w0, fs) && ApplyFixes(w0, fs) == w
  }

  lemma {:induction false} NoFix(w: World)
    ensures Fixed(w, 0, w)
  {
    assert FixesEnabled(w, []) && ApplyFixes(w, []) == w;
  }

  lemma {:induction false} FixesThen(w0: World, fs: seq<Fix>, f: Fix)
    requires FixesEnabled(w0, fs) && FixEnabled(ApplyFixes(w0, fs), f)
    ensures FixesEnabled(w0, fs + [f]) && ApplyFixes(w0, fs + [f]) == ApplyFix(ApplyFixes(w0, fs), f)
    decreases |fs|
  {
    var all := fs + [f];
    if fs == [] {
      assert all == [f] && all[1..] == [];
    } else {
      FixesThen(ApplyFix(w0, fs[0]), fs[1..], f);
      assert all[0] == fs[0] && all[1..] == fs[1..] + [f];
    }
  }

  lemma {:induction false} OneMoreFix(w0: World, n: nat, w: World, f: Fix)
    requires Fixed(w0, n, w) && FixEnabled(w, f)
    ensures Fixed(w0, n + 1, ApplyFix(w, f))
  {
    var fs :| |fs| == n && FixesEnabled(w0, fs) && ApplyFixes(w0, fs) == w;
    FixesThen(w0, fs, f);
    assert |fs + [f]| == n + 1;
  }

  lemma {:induction false} FixedProgress(w0: World, n: nat, w: World)
    requires Ready(w0) && Fixed(w0, n, w)
    ensures Ready(w) && Progress(w0, w)
  {
    var fs :| |fs| == n && FixesEnabled(w0, fs) && ApplyFixes(w0, fs) == w;
    FixesProgress(w0, fs);
  }

  /** The counters of one run. */
  class Result {
    const dryRun: bool
    const maxFixes: int
    var fixes: nat
    var created: nat
    var increased: nat
    var decreased: nat
    var relinked: nat
    var limited: bool

    /** Every fix is counted once by kind, and a limit is reached, never passed. */
    ghost predicate Sums()
      reads this
    {
      && fixes == created + increased + decreased + relinked
      && (maxFixes > 0 ==> fixes <= maxFixes)
      && (limited ==> maxFixes > 0 && fixes == maxFixes)
    }

    constructor (dryRun: bool, maxFixes: int)
      ensures Sums() && fixes == 0 && !limited && this.dryRun == dryRun && this.maxFixes == maxFixes
    {
      this.dryRun, this.maxFixes := dryRun, maxFixes;
      fixes, created, increased, decreased, relinked, limited := 0, 0, 0, 0, 0, false;
    }

    method ReachedLimit() returns (b: bool)
      requires Sums()
      modifies this`limited
      ensures Sums() && b == (maxFixes > 0 && fixes >= maxFixes) && limited == (old(limited) || b)
    {
      if maxFixes <= 0 || fixes < maxFixes {
        return false;
      }
      limited := true;
      b := true;
    }

    /** Every fix is followed by its two counters. */
    method Record(f: Fix)
      requires Sums() && !limited && (maxFixes > 0 ==> fixes < maxFixes)
      modifies this
      ensures Sums() && fixes == old(fixes) + 1 && !limited
      ensures created == old(created) + One(f.CreateRef?) && increased == old(increased) + One(f.IncreaseRef?)
      ensures decreased == old(decreased) + One(f.DecreaseRef?) && relinked == old(relinked) + One(f.Relink?)
    {
      fixes := fixes + 1;
      match f
      case CreateRef(_, _) => created := created + 1;
      case IncreaseRef(_) => increased := increased + 1;
      case DecreaseRef(_) => decreased := decreased + 1;
      case Relink(_, _) => relinked := relinked + 1;
    }
  }

  // --- single fixes ---

  method FixCreate(s: Store, h: string, l: Loc)
    requires !s.meta.closed && FixEnabled(s.Now(), CreateRef(h, l))
    modifies s.meta
    ensures !s.meta.closed && s.Now() == ApplyFix(old(s.Now()), CreateRef(h, l))
  {
    var r := Issue(s, CreateBlobRef(h, s.engine.layouts[l].extent));
  }

  /** One count up, or one down with the shards after the last. */
  method FixCount(s: Store, h: string, up: bool)
    requires !s.meta.closed && FixEnabled(s.Now(), if up then IncreaseRef(h) else DecreaseRef(h))
    modifies s.meta, s.engine
    ensures !s.meta.closed && s.Now() == ApplyFix(old(s.Now()), if up then IncreaseRef(h) else DecreaseRef(h))
  {
    if up {
      var r := Issue(s, IncreaseBlobRef(h));
    } else {
      ReleaseEntryBlob(s, h);
    }
  }

  /** canonicalizeDedupeLayout. */
  method FixRelink(s: Store, o: ObjectMeta, e: Extent, now: nat)
    requires !s.meta.closed && Ready(s.Now()) && FixEnabled(s.Now(), Relink(o.loc, now))
    requires s.meta.objects[o.loc] == o && s.meta.refs[o.hash].extent == e
    modifies s.meta, s.engine
    ensures !s.meta.closed && s.Now() == ApplyFix(old(s.Now()), Relink(o.loc, now))
  {
    var w := Meta(s.meta.buckets, s.meta.objects, s.meta.staged, s.meta.refs);
    assert EntryOk(w.buckets, o.loc, o, Committed);
    var ok := s.engine.LinkObject(o.loc, o.hash, ETag(o.hash), e, o.contentType, o.updatedAt, Input(Success, now, []));
    var r := Issue(s, UpsertObject(o.(etag := ETag(o.hash), size := e.size, state := Committed, placements := e.placements,
                                    checksums := e.checksums, shardSizes := e.shardSizes)));
  }

  // --- the counts of one hash ---

  /** Only the count of this hash may have changed. */
  ghost predicate OnlyHash(w: World, h: string, w': World) {
    && w'.meta.objects == w.meta.objects && w'.layouts == w.layouts
    && w'.meta.refs - {h} == w.meta.refs - {h}
    && (h in w.meta.refs && h in w'.meta.refs ==> w'.meta.refs[h].extent == w.meta.refs[h].extent)
  }

  lemma {:induction false} RefFixOnly(w: World, f: Fix)
    requires Ready(w) && FixEnabled(w, f) && !f.Relink?
    ensures var w' := ApplyFix(w, f);
      && OnlyHash(w, f.hash, w')
      && Count(w'.meta.refs, f.hash) == Count(w.meta.refs, f.hash) + (if f.DecreaseRef? then -1 else 1)
      && (f.hash in w'.meta.refs <==> Count(w'.meta.refs, f.hash) > 0)
      && Ready(w')
  {
    var w' := ApplyFix(w, f);
    RefFixEffect(w, f);
    FixKeepsReady(w, f);
    assert Count(w'.meta.refs, f.hash) == Count(w.meta.refs, f.hash) + (if f.DecreaseRef? then -1 else 1);
    RefFixElsewhere(w, f);
    assert f.hash in w'.meta.refs ==> w'.meta.refs[f.hash].refCount >= 1;
  }

  lemma {:induction false} RefFixElsewhere(w: World, f: Fix)
    requires FixEnabled(w, f) && !f.Relink?
    ensures ApplyFix(w, f).meta.refs - {f.hash} == w.meta.refs - {f.hash}
  {
    match f
    case CreateRef(h, l) => CreateElsewhere(w.meta, h, w.layouts[l].extent);
    case IncreaseRef(h) => IncreaseElsewhere(w.meta, h);
    case DecreaseRef(h) => ReleasedBlob(w, h); DecreaseElsewhere(w.meta, h);
  }

  lemma CreateElsewhere(m: Meta, h: string, e: Extent)
    ensures ApplyCreateRef(m, h, e).0.refs - {h} == m.refs - {h}
  {
  }

  lemma IncreaseElsewhere(m: Meta, h: string)
    ensures ApplyIncrease(m, h).0.refs - {h} == m.refs - {h}
  {
  }

  lemma DecreaseElsewhere(m: Meta, h: string)
    ensures ApplyDecrease(m, h).0.refs - {h} == m.refs - {h}
  {
  }

  /** The run so far: as many fixes as counted, and the store still in order. */
  ghost predicate Going(s: Store, run: Result, w0: World)
    reads s.meta, s.engine, run
  {
    !s.meta.closed && run.Sums() && Ready(s.Now()) && Fixed(w0, run.fixes, s.Now())
  }

  /** One count up or down, unless the limit is reached. */
  method Nudge(s: Store, run: Result, h: string, up: bool, ghost w0: World) returns (stop: bool)
    requires Going(s, run, w0) && FixEnabled(s.Now(), if up then IncreaseRef(h) else DecreaseRef(h))
    modifies s.meta, s.engine, run
    ensures Going(s, run, w0) && OnlyHash(old(s.Now()), h, s.Now())
    ensures run.limited == (old(run.limited) || stop)
    ensures !stop ==> Count(s.meta.refs, h) == old(Count(s.meta.refs, h)) + (if up then 1 else -1)
    ensures !stop ==> (h in s.meta.refs <==> Count(s.meta.refs, h) > 0)
  {
    stop := run.ReachedLimit();
    if stop {
      return;
    }
    var f := if up then IncreaseRef(h) else DecreaseRef(h);
    RefFixOnly(s.Now(), f);
    OneMoreFix(w0, run.fixes, s.Now(), f);
    FixCount(s, h, up);
    run.Record(f);
  }

  /** increaseBlobRef: one step per missing count, until the limit. */
  method IncreaseTimes(s: Store, run: Result, h: string, delta: nat, ghost w0: World)
    requires Going(s, run, w0) && h in s.meta.refs && s.meta.refs[h].refCount + delta == |Users(s.meta.objects, h)|
    modifies s.meta, s.engine, run
    ensures Going(s, run, w0) && OnlyHash(old(s.Now()), h, s.Now())
    ensures old(run.limited) ==> run.limited
    ensures run.limited || Count(s.meta.refs, h) == |Users(s.meta.objects, h)|
  {
    for j := 0 to delta
      invariant Going(s, run, w0) && OnlyHash(old(s.Now()), h, s.Now())
      invariant old(run.limited) ==> run.limited
      invariant h in s.meta.refs && s.meta.refs[h].refCount + (delta - j) == |Users(s.meta.objects, h)|
    {
      var stop := Nudge(s, run, h, true, w0);
      if stop {
        return;
      }
    }
  }

  /** decreaseBlobRefToExpected and removeOrphanBlobRef: the last decrease of an orphan removes it
      and its shards, so the loop ends. */
  method DecreaseTimes(s: Store, run: Result, h: string, delta: nat, ghost w0: World)
    requires Going(s, run, w0) && h in s.meta.refs && s.meta.refs[h].refCount - delta == |Users(s.meta.objects, h)|
    modifies s.meta, s.engine, run
    ensures Going(s, run, w0) && OnlyHash(old(s.Now()), h, s.Now())
    ensures old(run.limited) ==> run.limited
    ensures run.limited || Count(s.meta.refs, h) == |Users(s.meta.objects, h)|
  {
    for j := 0 to delta
      invariant Going(s, run, w0) && OnlyHash(old(s.Now()), h, s.Now())
      invariant old(run.limited) ==> run.limited
      invariant Count(s.meta.refs, h) - (delta - j) == |Users(s.meta.objects, h)|
      invariant h in s.meta.refs <==> Count(s.meta.refs, h) > 0
    {
      var stop := Nudge(s, run, h, false, w0);
      if stop {
        return;
      }
    }
  }

  // --- collecting ---

  /** What dedupeHashStat keeps per content: its users and the first of them. */
  datatype Stat = Stat(count: nat, first: Loc)

  /** All objects in listing order. */
  ghost predicate AllListed(objects: map<Loc, ObjectMeta>, buckets: seq<string>, r: seq<ObjectMeta>) {
    Sorted(r) && forall m :: m in r <==> m.loc in objects && m.loc.bucket in buckets && objects[m.loc] == m
  }

  lemma {:induction false} ListNext(objects: map<Loc, ObjectMeta>, buckets: seq<string>, j: nat, r: seq<ObjectMeta>, items: seq<ObjectMeta>)
    requires j < |buckets| && AllListed(objects, buckets[..j], r) && IsListing(objects, buckets[j], "", false, items) && OwnLocs(objects)
    requires forall i | 0 <= i < j :: Less(buckets[i], buckets[j])
    ensures AllListed(objects, buckets[..j + 1], r + items)
  {
    assert buckets[..j + 1] == buckets[..j] + [buckets[j]];
    var all := r + items;
    forall a, b | 0 <= a < b < |all|
      ensures LocLess(all[a].loc, all[b].loc)
    {
      if a < |r| && b >= |r| {
        assert r[a] in r && items[b - |r|] in items;
      }
    }
    forall m
      ensures m in all <==> m.loc in objects && m.loc.bucket in buckets[..j + 1] && objects[m.loc] == m
    {
      assert m in all <==> m in r || m in items;
    }
  }

  /** Bucket by bucket, in name order. */
  method CollectObjects(s: Store) returns (r: seq<ObjectMeta>)
    requires Valid(s.meta.State()) && !s.meta.closed
    ensures Sorted(r) && forall m :: m in r <==> m.loc in s.meta.objects && s.meta.objects[m.loc] == m
  {
    var e, buckets := s.meta.ListBuckets();
    r := [];
    ObjectsOwn(s.meta.State());
    for j := 0 to |buckets|
      invariant AllListed(s.meta.objects, buckets[..j], r)
    {
      var error, items := s.meta.ListObjects(buckets[j], "");
      assert buckets[j] in buckets;
      ListNext(s.meta.objects, buckets, j, r, items);
      r := r + items;
    }
    assert buckets[..|buckets|] == buckets;
  }

  lemma {:induction false} ObjectsOwn(m: Meta)
    requires Valid(m)
    ensures OwnLocs(m.objects) && forall l <- m.objects :: l.bucket in m.buckets
  {
    forall l | l in m.objects
      ensures m.objects[l].loc == l && l.bucket in m.buckets
    {
      assert EntryOk(m.buckets, l, m.objects[l], Committed);
    }
  }

  /** The users among the first objects. */
  function UsersAmong(objects: seq<ObjectMeta>, n: nat, h: string): set<Loc>
    requires n <= |objects|
  {
    set k | 0 <= k < n && objects[k].hash == h :: objects[k].loc
  }

  predicate StatOk(objects: seq<ObjectMeta>, n: nat, h: string, stats: map<string, Stat>)
    requires n <= |objects|
  {
    if h in stats then
      var users := UsersAmong(objects, n, h);
      stats[h].count == |users| && stats[h].first in users && forall k <- users :: k == stats[h].first || LocLess(stats[h].first, k)
    else UsersAmong(objects, n, h) == {}
  }

  lemma {:induction false} StatNext(objects: seq<ObjectMeta>, n: nat, stats: map<string, Stat>, stats': map<string, Stat>, h: string)
    requires n < |objects| && Sorted(objects) && StatOk(objects, n, h, stats)
    requires var o := objects[n];
      stats' == stats[o.hash := if o.hash in stats then stats[o.hash].(count := stats[o.hash].count + 1) else Stat(1, o.loc)]
    ensures StatOk(objects, n + 1, h, stats')
  {
    UsersNext(objects, n, h);
    if objects[n].hash == h {
      NotYet(objects, n, h);
    }
  }

  lemma {:induction false} UsersNext(objects: seq<ObjectMeta>, n: nat, h: string)
    requires n < |objects|
    ensures UsersAmong(objects, n + 1, h) == UsersAmong(objects, n, h) + if objects[n].hash == h then {objects[n].loc} else {}
  {
  }

  lemma {:induction false} NotYet(objects: seq<ObjectMeta>, n: nat, h: string)
    requires n < |objects| && Sorted(objects)
    ensures objects[n].loc !in UsersAmong(objects, n, h)
    ensures forall k <- UsersAmong(objects, n, h) :: LocLess(k, objects[n].loc)
  {
    LocLessOrder(objects[n].loc, objects[n].loc, objects[n].loc);
  }

  method CollectStats(objects: seq<ObjectMeta>) returns (stats: map<string, Stat>)
    requires Sorted(objects)
    ensures forall h :: StatOk(objects, |objects|, h, stats)
  {
    stats := map[];
    for n := 0 to |objects|
      invariant forall h :: StatOk(objects, n, h, stats)
    {
      var o := objects[n];
      var stat := Stat(1, o.loc);
      if o.hash in stats {
        stat := stats[o.hash].(count := stats[o.hash].count + 1);
      }
      ghost var before := stats;
      stats := stats[o.hash := stat];
      ghost var next := n + 1;
      forall h
        ensures StatOk(objects, next, h, stats)
      {
        StatNext(objects, n, before, stats, h);
      }
    }
  }

  /** The statistics are right: a hash has an entry exactly when it has users. */
  ghost predicate StatsOk(objects: map<Loc, ObjectMeta>, stats: map<string, Stat>) {
    && (forall h <- stats :: stats[h].count == |Users(objects, h)| && IsFirst(objects, h, stats[h].first))
    && (forall h {:trigger h in stats} :: h !in stats ==> Users(objects, h) == {})
  }

  lemma {:induction false} StatsRight(objects: map<Loc, ObjectMeta>, r: seq<ObjectMeta>, stats: map<string, Stat>)
    requires OwnLocs(objects) && (forall m :: m in r <==> m.loc in objects && objects[m.loc] == m)
    requires forall h :: StatOk(r, |r|, h, stats)
    ensures StatsOk(objects, stats)
  {
    forall h
      ensures UsersAmong(r, |r|, h) == Users(objects, h)
    {
      forall l | l in Users(objects, h)
        ensures l in UsersAmong(r, |r|, h)
      {
        assert objects[l] in r;
        var k :| 0 <= k < |r| && r[k] == objects[l];
      }
      forall l | l in UsersAmong(r, |r|, h)
        ensures l in Users(objects, h)
      {
        var k :| 0 <= k < |r| && r[k].hash == h && r[k].loc == l;
        assert r[k] in r;
      }
    }
    forall h
      ensures h in stats ==> stats[h].count == |Users(objects, h)| && IsFirst(objects, h, stats[h].first)
      ensures h !in stats ==> Users(objects, h) == {}
    {
      assert StatOk(r, |r|, h, stats);
    }
  }

  // --- the phases ---

  /** The count of h is right, or nothing can be done about it. */
  ghost predicate HashOk(w: World, h: string) {
    if h in w.meta.refs then w.meta.refs[h].refCount == |Users(w.meta.objects, h)|
    else !Sourced(Users(w.meta.objects, h), w.layouts.Keys)
  }

  /** Objects, layouts and these references are as they were. */
  ghost predicate Kept(w: World, w': World, hashes: set<string>) {
    && w'.meta.objects == w.meta.objects && w'.layouts == w.layouts
    && forall h <- hashes :: (h in w'.meta.refs <==> h in w.meta.refs) && (h in w.meta.refs ==> w'.meta.refs[h] == w.meta.refs[h])
  }

  lemma {:induction false} KeptStep(w: World, w1: World, w2: World, hashes: set<string>, g: string)
    requires Kept(w, w1, hashes) && OnlyHash(w1, g, w2)
    ensures Kept(w, w2, hashes - {g})
    ensures forall h :: h != g && HashOk(w1, h) ==> HashOk(w2, h)
  {
    var r1, r2 := w1.meta.refs, w2.meta.refs;
    forall h | h != g
      ensures (h in r2 <==> h in r1) && (h in r1 ==> r2[h] == r1[h])
    {
      assert h in r1 <==> h in r1 - {g};
      assert h in r2 <==> h in r2 - {g};
      if h in r1 {
        assert (r1 - {g})[h] == (r2 - {g})[h];
      }
    }
  }

  /** The reference itself, with its first count, unless the limit is reached. */
  method CreateMissing(s: Store, run: Result, h: string, l: Loc, ghost w0: World) returns (stop: bool)
    requires Going(s, run, w0) && FixEnabled(s.Now(), CreateRef(h, l))
    modifies s.meta, s.engine, run
    ensures Going(s, run, w0) && OnlyHash(old(s.Now()), h, s.Now())
    ensures run.limited == (old(run.limited) || stop)
    ensures !stop ==> h in s.meta.refs && s.meta.refs[h].refCount == 1
  {
    stop := run.ReachedLimit();
    if stop {
      return;
    }
    var f := CreateRef(h, l);
    RefFixOnly(s.Now(), f);
    OneMoreFix(w0, run.fixes, s.Now(), f);
    FixCreate(s, h, l);
    run.Record(f);
  }

  /** fixMissingBlobRef for a hash without a reference. */
  method FixMissing(s: Store, run: Result, h: string, stat: Stat, ghost w0: World)
    requires Going(s, run, w0) && !run.dryRun && h !in s.meta.refs
    requires stat.count == |Users(s.meta.objects, h)| && IsFirst(s.meta.objects, h, stat.first)
    modifies s.meta, s.engine, run
    ensures Going(s, run, w0) && OnlyHash(old(s.Now()), h, s.Now())
    ensures old(run.limited) ==> run.limited
    ensures run.limited || HashOk(s.Now(), h)
  {
    if stat.first !in s.engine.layouts {
      FirstUnique(Users(s.meta.objects, h), s.engine.layouts.Keys, stat.first);
      return;
    }
    var stop := CreateMissing(s, run, h, stat.first, w0);
    if stop {
      return;
    }
    assert stat.first in Users(s.meta.objects, h);
    IncreaseTimes(s, run, h, stat.count - 1, w0);
    if !run.limited {
      Counted(s.Now(), h);
    }
  }

  lemma {:induction false} Counted(w: World, h: string)
    requires Ready(w) && Users(w.meta.objects, h) != {}
    requires Count(w.meta.refs, h) == |Users(w.meta.objects, h)|
    ensures HashOk(w, h)
  {
  }

  /** fixBlobRefCount for a listed reference. */
  method FixExisting(s: Store, run: Result, h: string, count: int, expected: nat, ghost w0: World)
    requires Going(s, run, w0) && !run.dryRun && h in s.meta.refs && s.meta.refs[h].refCount == count
    requires expected == |Users(s.meta.objects, h)|
    modifies s.meta, s.engine, run
    ensures Going(s, run, w0) && OnlyHash(old(s.Now()), h, s.Now())
    ensures old(run.limited) ==> run.limited
    ensures run.limited || HashOk(s.Now(), h)
  {
    if count < expected {
      IncreaseTimes(s, run, h, expected - count, w0);
    } else if count > expected {
      DecreaseTimes(s, run, h, count - expected, w0);
    }
    if !run.limited {
      BalancedHash(s.Now(), h);
    }
  }

  lemma {:induction false} BalancedHash(w: World, h: string)
    requires Ready(w) && Count(w.meta.refs, h) == |Users(w.meta.objects, h)|
    ensures HashOk(w, h)
  {
    if h !in w.meta.refs {
      assert Users(w.meta.objects, h) == {};
    }
  }

  /** Which references are there and where they point, as a map built from listings tells it. */
  ghost predicate MapsRefs(refMap: map<string, BlobRef>, refs: map<string, BlobRef>) {
    refMap.Keys == refs.Keys && forall h <- refs :: refMap[h].extent == refs[h].extent
  }

  lemma {:induction false} MissingStep(w: World, w': World, h: string, refs0: map<string, BlobRef>, refMap: map<string, BlobRef>)
    requires OnlyHash(w, h, w') && h !in refs0 && h !in w.meta.refs && MapsRefs(refMap, w.meta.refs)
    ensures w'.meta.refs.Keys <= w.meta.refs.Keys + {h}
    ensures MapsRefs(if h in w'.meta.refs then refMap[h := w'.meta.refs[h]] else refMap, w'.meta.refs)
  {
    var r, r' := w.meta.refs, w'.meta.refs;
    forall g | g != h
      ensures (g in r' <==> g in r) && (g in r ==> r'[g] == r[g])
    {
      SameRefElsewhere(r, r', h, g);
    }
  }

  lemma {:induction false} SameRefElsewhere(r: map<string, BlobRef>, r': map<string, BlobRef>, h: string, g: string)
    requires r - {h} == r' - {h} && g != h
    ensures (g in r' <==> g in r) && (g in r ==> r'[g] == r[g])
  {
    assert g in r <==> g in r - {h};
    assert g in r' <==> g in r' - {h};
    if g in r {
      assert (r - {h})[g] == (r' - {h})[g];
    }
  }

  /** Where fixMissingBlobRefs stands: the hashes in rest are still to be looked at. */
  ghost predicate MissingDone(w: World, now: World, refs0: map<string, BlobRef>, stats: map<string, Stat>, rest: set<string>,
      refMap: map<string, BlobRef>, limited: bool) {
    && Kept(w, now, refs0.Keys) && MapsRefs(refMap, now.meta.refs)
    && rest <= stats.Keys && now.meta.refs.Keys <= refs0.Keys + (stats.Keys - rest)
    && (limited || forall h <- stats :: h in rest || h in refs0 || HashOk(now, h))
  }

  lemma {:induction false} MissingAdvance(w: World, now: World, now': World, refs0: map<string, BlobRef>, stats: map<string, Stat>, rest: set<string>,
      refMap: map<string, BlobRef>, limited: bool, limited': bool, h: string)
    requires MissingDone(w, now, refs0, stats, rest, refMap, limited) && h in rest && h !in refMap && h !in refs0
    requires OnlyHash(now, h, now') && (limited ==> limited') && (limited' || HashOk(now', h))
    ensures MissingDone(w, now', refs0, stats, rest - {h}, if h in now'.meta.refs then refMap[h := now'.meta.refs[h]] else refMap, limited')
  {
    KeptStep(w, now, now', refs0.Keys, h);
    MissingStep(now, now', h, refs0, refMap);
    assert refs0.Keys - {h} == refs0.Keys;
  }

  lemma {:induction false} MissingSkips(w: World, now: World, refs0: map<string, BlobRef>, stats: map<string, Stat>, rest: set<string>,
      refMap: map<string, BlobRef>, limited: bool, h: string)
    requires MissingDone(w, now, refs0, stats, rest, refMap, limited) && h in rest
    requires w.meta.refs == refs0
    ensures h in refMap ==> MissingDone(w, now, refs0, stats, rest - {h}, refMap, limited)
    ensures h !in refMap ==> h !in refs0 && h !in now.meta.refs && h in stats
    ensures now.meta.objects == w.meta.objects
  {
  }

  /** One hash of fixMissingBlobRefs; the map gains the reference if it was created. */
  method FixMissingNext(s: Store, run: Result, stats: map<string, Stat>, refs0: map<string, BlobRef>, refMap: map<string, BlobRef>,
      ghost rest: set<string>, h: string, ghost w: World, ghost w0: World) returns (refMap': map<string, BlobRef>)
    requires Going(s, run, w0) && !run.dryRun && StatsOk(w.meta.objects, stats) && w.meta.refs == refs0 && h in rest
    requires MissingDone(w, s.Now(), refs0, stats, rest, refMap, run.limited)
    modifies s.meta, s.engine, run
    ensures Going(s, run, w0) && MissingDone(w, s.Now(), refs0, stats, rest - {h}, refMap', run.limited)
  {
    refMap' := refMap;
    MissingSkips(w, s.Now(), refs0, stats, rest, refMap, run.limited, h);
    if h in refMap {
      return;
    }
    ghost var before, limited := s.Now(), run.limited;
    FixMissing(s, run, h, stats[h], w0);
    MissingAdvance(w, before, s.Now(), refs0, stats, rest, refMap, limited, run.limited, h);
    if h in s.meta.refs {
      refMap' := refMap[h := s.meta.refs[h]];
    }
  }

  lemma {:induction false} MissingStarts(w: World, stats: map<string, Stat>, limited: bool)
    ensures MissingDone(w, w, w.meta.refs, stats, stats.Keys, w.meta.refs, limited)
  {
  }

  /** fixMissingBlobRefs. */
  method FixAllMissing(s: Store, run: Result, stats: map<string, Stat>, refs0: map<string, BlobRef>, ghost w: World, ghost w0: World) returns (refMap: map<string, BlobRef>)
    requires Going(s, run, w0) && !run.dryRun && StatsOk(w.meta.objects, stats) && w == s.Now() && w.meta.refs == refs0
    modifies s.meta, s.engine, run
    ensures Going(s, run, w0) && MissingDone(w, s.Now(), refs0, stats, {}, refMap, run.limited)
  {
    refMap := refs0;
    MissingStarts(w, stats, run.limited);
    refMap := FixMissingRest(s, run, stats, refs0, refMap, stats.Keys, w, w0);
  }

  method FixMissingRest(s: Store, run: Result, stats: map<string, Stat>, refs0: map<string, BlobRef>, refMap0: map<string, BlobRef>,
      rest0: set<string>, ghost w: World, ghost w0: World) returns (refMap: map<string, BlobRef>)
    requires Going(s, run, w0) && !run.dryRun && StatsOk(w.meta.objects, stats) && w.meta.refs == refs0
    requires MissingDone(w, s.Now(), refs0, stats, rest0, refMap0, run.limited)
    modifies s.meta, s.engine, run
    ensures Going(s, run, w0) && MissingDone(w, s.Now(), refs0, stats, {}, refMap, run.limited)
  {
    refMap := refMap0;
    var rest := rest0;
    while rest != {}
      invariant Going(s, run, w0) && MissingDone(w, s.Now(), refs0, stats, rest, refMap, run.limited)
      decreases |rest|
    {
      var h :| h in rest;
      refMap := FixMissingNext(s, run, stats, refs0, refMap, rest, h, w, w0);
      rest := rest - {h};
    }
  }

  /** What is there was there before and points where it did. */
  ghost predicate SameExtents(r: map<string, BlobRef>, r': map<string, BlobRef>) {
    forall h <- r' :: h in r && r'[h].extent == r[h].extent
  }

  lemma {:induction false} ExtentsStep(w: World, w': World, h: string, r: map<string, BlobRef>)
    requires OnlyHash(w, h, w') && h in w.meta.refs && SameExtents(r, w.meta.refs)
    ensures SameExtents(r, w'.meta.refs)
  {
    forall g | g in w'.meta.refs
      ensures g in r && w'.meta.refs[g].extent == r[g].extent
    {
      if g != h { SameRefElsewhere(w.meta.refs, w'.meta.refs, h, g); }
    }
  }

  /** Where fixExistingBlobRefs stands after j listed references. */
  ghost predicate ExistingDone(w: World, now: World, listed: seq<string>, j: nat, refs0: map<string, BlobRef>, limited: bool)
    requires j <= |listed|
  {
    && now.meta.objects == w.meta.objects && now.layouts == w.layouts && SameExtents(w.meta.refs, now.meta.refs)
    && (forall h <- w.meta.refs :: h in refs0 || h in now.meta.refs)
    && (forall i | j <= i < |listed| :: listed[i] in now.meta.refs && listed[i] in refs0 && now.meta.refs[listed[i]] == refs0[listed[i]])
    && (limited || forall h :: h in listed[..j] || (h !in refs0 && HashOk(w, h)) ==> HashOk(now, h))
  }

  predicate ListsOnce(listed: seq<string>, refs0: map<string, BlobRef>) {
    (forall h <- refs0 :: h in listed) && (forall h <- listed :: h in refs0) && (forall i, j | 0 <= i < j < |listed| :: listed[i] != listed[j])
  }

  lemma {:induction false} ExistingStep(w: World, w': World, listed: seq<string>, j: nat)
    requires j < |listed| && OnlyHash(w, listed[j], w') && (forall i, k | 0 <= i < k < |listed| :: listed[i] != listed[k])
    ensures forall i | j < i < |listed| :: (listed[i] in w'.meta.refs <==> listed[i] in w.meta.refs) && (listed[i] in w.meta.refs ==> w'.meta.refs[listed[i]] == w.meta.refs[listed[i]])
    ensures forall h :: h in listed[..j + 1] <==> h in listed[..j] || h == listed[j]
    ensures forall h :: h != listed[j] && HashOk(w, h) ==> HashOk(w', h)
    ensures forall h <- w.meta.refs :: h != listed[j] ==> h in w'.meta.refs
  {
    assert listed[..j + 1] == listed[..j] + [listed[j]];
    forall g | g != listed[j]
      ensures (g in w'.meta.refs <==> g in w.meta.refs) && (g in w.meta.refs ==> w'.meta.refs[g] == w.meta.refs[g])
    {
      SameRefElsewhere(w.meta.refs, w'.meta.refs, listed[j], g);
    }
  }

  lemma {:induction false} ExistingAdvance(w: World, now: World, now': World, listed: seq<string>, j: nat, refs0: map<string, BlobRef>, limited: bool, limited': bool)
    requires j < |listed| && ListsOnce(listed, refs0) && ExistingDone(w, now, listed, j, refs0, limited)
    requires OnlyHash(now, listed[j], now') && (limited ==> limited') && (limited' || HashOk(now', listed[j]))
    ensures ExistingDone(w, now', listed, j + 1, refs0, limited')
  {
    ExistingStep(now, now', listed, j);
    ExtentsStep(now, now', listed[j], w.meta.refs);
    assert listed[j] in listed;
  }

  /** fixExistingBlobRefs over the references listed at the start. */
  method FixAllExisting(s: Store, run: Result, stats: map<string, Stat>, listed: seq<string>, refs0: map<string, BlobRef>, ghost w: World, ghost w0: World)
    requires Going(s, run, w0) && !run.dryRun && StatsOk(w.meta.objects, stats) && w == s.Now() && ListsOnce(listed, refs0)
    requires ExistingDone(w, w, listed, 0, refs0, run.limited)
    modifies s.meta, s.engine, run
    ensures Going(s, run, w0) && (old(run.limited) ==> run.limited) && ExistingDone(w, s.Now(), listed, |listed|, refs0, run.limited)
  {
    for j := 0 to |listed|
      invariant Going(s, run, w0) && (old(run.limited) ==> run.limited) && ExistingDone(w, s.Now(), listed, j, refs0, run.limited)
    {
      var h := listed[j];
      ghost var before, limited := s.Now(), run.limited;
      var expected := if h in stats then stats[h].count else 0;
      FixExisting(s, run, h, refs0[h].refCount, expected, w0);
      ExistingAdvance(w, before, s.Now(), listed, j, refs0, limited, run.limited);
    }
  }

  lemma {:induction false} ExistingStarts(w1: World, w: World, listed: seq<string>, refs0: map<string, BlobRef>, limited: bool)
    requires ListsOnce(listed, refs0) && w1.meta.refs == refs0 && Kept(w1, w, refs0.Keys)
    ensures ExistingDone(w, w, listed, 0, refs0, limited)
  {
  }

  // --- relinking ---

  predicate Crooked(w: World, l: Loc) {
    FixEnabled(w, Relink(l, 0))
  }

  /** A relink straightens its own object and touches no other. */
  lemma {:induction false} RelinkStep(w: World, l: Loc, now: nat)
    requires Ready(w) && FixEnabled(w, Relink(l, now))
    ensures var w' := ApplyFix(w, Relink(l, now));
      && Ready(w') && w'.meta.refs == w.meta.refs && !Crooked(w', l)
      && SameContents(w.meta.objects, w'.meta.objects) && w'.layouts.Keys == w.layouts.Keys
      && (forall k :: k != l ==> (Crooked(w', k) <==> Crooked(w, k)))
      && (forall k <- w.meta.objects :: k != l ==> w'.meta.objects[k] == w.meta.objects[k])
  {
    var f := Relink(l, now);
    FixKeepsReady(w, f);
    FixKeepsContents(w, f);
    RelinkOthers(w, l, now);
  }

  lemma {:induction false} RelinkOthers(w: World, l: Loc, now: nat)
    requires Ready(w) && FixEnabled(w, Relink(l, now))
    ensures var w' := ApplyFix(w, Relink(l, now));
      && w'.meta.refs == w.meta.refs && !Crooked(w', l)
      && (forall k :: k != l ==> (Crooked(w', k) <==> Crooked(w, k)))
      && (forall k <- w.meta.objects :: k != l ==> w'.meta.objects[k] == w.meta.objects[k])
  {
    var f := Relink(l, now);
    var w' := ApplyFix(w, f);
    RelinkEffect(w, f);
    RelinkMatches(w, f);
    forall k | k != l
      ensures Crooked(w', k) <==> Crooked(w, k)
    {
      CrookedAlike(w, w', k);
    }
  }

  lemma CrookedAlike(w: World, w': World, k: Loc)
    requires w'.meta.refs == w.meta.refs
    requires (k in w'.meta.objects <==> k in w.meta.objects) && (k in w.meta.objects ==> w'.meta.objects[k] == w.meta.objects[k])
    requires (k in w'.layouts <==> k in w.layouts) && (k in w.layouts ==> w'.layouts[k] == w.layouts[k])
    ensures Crooked(w', k) <==> Crooked(w, k)
  {
  }

  lemma {:induction false} RelinkKeepsCounts(w: World, w': World, h: string)
    requires w'.meta.refs == w.meta.refs && SameContents(w.meta.objects, w'.meta.objects) && w'.layouts.Keys == w.layouts.Keys
    ensures HashOk(w, h) <==> HashOk(w', h)
  {
    SameUsers(w.meta.objects, w'.meta.objects, h);
  }

  /** One object of canonicalizeDedupeLayouts. */
  method RelinkOne(s: Store, run: Result, o: ObjectMeta, ref: BlobRef, now: nat, ghost w0: World)
    requires Going(s, run, w0) && !run.dryRun && Crooked(s.Now(), o.loc)
    requires s.meta.objects[o.loc] == o && s.meta.refs[o.hash].extent == ref.extent
    modifies s.meta, s.engine, run
    ensures Going(s, run, w0) && (old(run.limited) ==> run.limited)
    ensures (s.Now() == old(s.Now()) && run.limited) || s.Now() == ApplyFix(old(s.Now()), Relink(o.loc, now))
  {
    var stop := run.ReachedLimit();
    if stop {
      return;
    }
    var f := Relink(o.loc, now);
    FixKeepsReady(s.Now(), f);
    OneMoreFix(w0, run.fixes, s.Now(), f);
    FixRelink(s, o, ref.extent, now);
    run.Record(f);
  }

  /** Where canonicalizeDedupeLayouts stands after n objects. */
  ghost predicate RelinkDone(w: World, now: World, objects: seq<ObjectMeta>, n: nat, limited: bool)
    requires n <= |objects|
  {
    && now.meta.refs == w.meta.refs && SameContents(w.meta.objects, now.meta.objects) && now.layouts.Keys == w.layouts.Keys
    && (forall i | n <= i < |objects| :: objects[i].loc in now.meta.objects && now.meta.objects[objects[i].loc] == objects[i])
    && (limited || forall i | 0 <= i < n :: !Crooked(now, objects[i].loc))
  }

  lemma {:induction false} RelinkAdvance(w: World, now: World, now': World, objects: seq<ObjectMeta>, n: nat, limited: bool, limited': bool, at: nat)
    requires n < |objects| && Sorted(objects) && Ready(now) && RelinkDone(w, now, objects, n, limited) && (limited ==> limited')
    requires || (now' == now && (limited' || !Crooked(now, objects[n].loc)))
             || (FixEnabled(now, Relink(objects[n].loc, at)) && now' == ApplyFix(now, Relink(objects[n].loc, at)))
    ensures RelinkDone(w, now', objects, n + 1, limited')
  {
    if now' != now {
      RelinkMoves(w, now, now', objects, n, limited, at);
    }
  }

  lemma {:induction false} RelinkMoves(w: World, now: World, now': World, objects: seq<ObjectMeta>, n: nat, limited: bool, at: nat)
    requires n < |objects| && Sorted(objects) && Ready(now) && RelinkDone(w, now, objects, n, limited)
    requires FixEnabled(now, Relink(objects[n].loc, at)) && now' == ApplyFix(now, Relink(objects[n].loc, at))
    ensures RelinkDone(w, now', objects, n + 1, limited)
  {
    OtherLocs(objects, n);
    RelinkStep(now, objects[n].loc, at);
  }

  lemma {:induction false} OtherLocs(objects: seq<ObjectMeta>, n: nat)
    requires n < |objects| && Sorted(objects)
    ensures forall i | 0 <= i < |objects| && i != n :: objects[i].loc != objects[n].loc
  {
    var l := objects[n].loc;
    forall i | 0 <= i < |objects| && i != n
      ensures objects[i].loc != l
    {
      LocLessOrder(l, l, l);
      assert LocLess(objects[i].loc, l) || LocLess(l, objects[i].loc);
    }
  }

  /** canonicalizeDedupeLayouts over the collected objects. */
  method RelinkAll(s: Store, run: Result, objects: seq<ObjectMeta>, refMap: map<string, BlobRef>, now: nat, ghost w: World, ghost w0: World)
    requires Going(s, run, w0) && !run.dryRun && w == s.Now() && Sorted(objects)
    requires forall o <- objects :: o.loc in w.meta.objects && w.meta.objects[o.loc] == o
    requires forall o <- objects :: o.hash in refMap <==> o.hash in w.meta.refs
    requires forall o <- objects :: o.hash in refMap ==> refMap[o.hash].extent == w.meta.refs[o.hash].extent
    modifies s.meta, s.engine, run
    ensures Going(s, run, w0) && (old(run.limited) ==> run.limited) && RelinkDone(w, s.Now(), objects, |objects|, run.limited)
  {
    for n := 0 to |objects|
      invariant Going(s, run, w0) && (old(run.limited) ==> run.limited) && RelinkDone(w, s.Now(), objects, n, run.limited)
    {
      var o := objects[n];
      assert o in objects;
      ghost var before, limited := s.Now(), run.limited;
      if o.hash in refMap && o.loc in s.engine.layouts && Mismatch(s.engine.layouts[o.loc], refMap[o.hash]) {
        RelinkOne(s, run, o, refMap[o.hash], now, w0);
      }
      RelinkAdvance(w, before, s.Now(), objects, n, limited, run.limited, now);
    }
  }

  // --- the whole run ---

  lemma {:induction false} AllDone(w: World)
    requires (forall h :: HashOk(w, h)) && (forall l <- w.meta.objects :: !Crooked(w, l))
    ensures Terminal(w)
  {
    forall f
      ensures !FixEnabled(w, f)
    {
      if !f.Relink? {
        assert HashOk(w, f.hash);
      } else {
        assert f.loc in w.meta.objects ==> !Crooked(w, f.loc);
      }
    }
  }

  lemma {:induction false} CountsDone(w1: World, w2: World, w3: World, refs0: map<string, BlobRef>, stats: map<string, Stat>, refMap: map<string, BlobRef>, listed: seq<string>)
    requires StatsOk(w1.meta.objects, stats) && MissingDone(w1, w2, refs0, stats, {}, refMap, false)
    requires ListsOnce(listed, refs0) && ExistingDone(w2, w3, listed, |listed|, refs0, false)
    ensures forall h :: HashOk(w3, h)
  {
    assert listed[..|listed|] == listed;
    forall h
      ensures HashOk(w3, h)
    {
      if h !in refs0 && h !in stats {
        assert Users(w1.meta.objects, h) == {};
        assert HashOk(w2, h);
      }
    }
  }

  /** The collected reference map still describes the references of the collected objects. */
  lemma {:induction false} MapHolds(w0: World, w2: World, w3: World, refMap: map<string, BlobRef>, objects: seq<ObjectMeta>)
    requires Progress(w0, w3) && MapsRefs(refMap, w2.meta.refs) && SameExtents(w2.meta.refs, w3.meta.refs)
    requires forall h <- w2.meta.refs :: h in w0.meta.refs || h in w3.meta.refs
    requires forall o <- objects :: o.loc in w0.meta.objects && w0.meta.objects[o.loc] == o
    ensures forall o <- objects :: o.hash in refMap <==> o.hash in w3.meta.refs
    ensures forall o <- objects :: o.hash in refMap ==> refMap[o.hash].extent == w3.meta.refs[o.hash].extent
  {
    forall o | o in objects
      ensures o.hash in refMap <==> o.hash in w3.meta.refs
      ensures o.hash in refMap ==> refMap[o.hash].extent == w3.meta.refs[o.hash].extent
    {
      assert o.loc in Users(w0.meta.objects, o.hash);
    }
  }

  /** The three phases that change something. */
  method FixAll(s: Store, run: Result, objects: seq<ObjectMeta>, stats: map<string, Stat>, listed: seq<string>, refs0: map<string, BlobRef>, now: nat, ghost w0: World)
    requires Going(s, run, w0) && !run.dryRun && Ready(w0) && s.Now() == w0 && StatsOk(w0.meta.objects, stats) && w0.meta.refs == refs0
    requires Sorted(objects) && forall m :: m in objects <==> m.loc in w0.meta.objects && w0.meta.objects[m.loc] == m
    requires ListsOnce(listed, refs0)
    modifies s.meta, s.engine, run
    ensures Going(s, run, w0) && (run.limited || Terminal(s.Now()))
  {
    var refMap := FixAllMissing(s, run, stats, refs0, w0, w0);
    ghost var w2 := s.Now();
    ExistingStarts(w0, w2, listed, refs0, run.limited);
    FixAllExisting(s, run, stats, listed, refs0, w2, w0);
    ghost var w3 := s.Now();
    FixedProgress(w0, run.fixes, w3);
    MapHolds(w0, w2, w3, refMap, objects);
    if !run.limited {
      CountsDone(w0, w2, w3, refs0, stats, refMap, listed);
    }
    RelinkAll(s, run, objects, refMap, now, w3, w0);
    if !run.limited {
      NothingLeft(w0, w3, s.Now(), objects);
    }
  }

  lemma {:induction false} NothingLeft(w0: World, w3: World, w: World, objects: seq<ObjectMeta>)
    requires forall h :: HashOk(w3, h)
    requires forall m :: m in objects <==> m.loc in w0.meta.objects && w0.meta.objects[m.loc] == m
    requires w3.meta.objects == w0.meta.objects && RelinkDone(w3, w, objects, |objects|, false) && OwnLocs(w0.meta.objects)
    ensures Terminal(w)
  {
    forall h
      ensures HashOk(w, h)
    {
      RelinkKeepsCounts(w3, w, h);
    }
    forall l | l in w.meta.objects
      ensures !Crooked(w, l)
    {
      assert w0.meta.objects[l] in objects;
      var i :| 0 <= i < |objects| && objects[i] == w0.meta.objects[l];
    }
    AllDone(w);
  }

  /** Dedupe. It makes as many fixes as it counts, never more than the limit; a dry run changes
      nothing; a run that does not report a limit leaves nothing to fix. */
  method RunDedupe(s: Store, dryRun: bool, maxFixes: int, now: nat) returns (run: Result)
    requires !s.meta.closed && Ready(s.Now())
    modifies s.meta, s.engine
    ensures fresh(run) && run.Sums() && run.maxFixes == maxFixes && !s.meta.closed
    ensures Ready(s.Now()) && Fixed(old(s.Now()), run.fixes, s.Now())
    ensures dryRun ==> s.Now() == old(s.Now()) && run.fixes == 0
    ensures !dryRun ==> run.limited || Terminal(s.Now())
    ensures !dryRun && !run.limited && Rebuildable(old(s.Now())) ==>
      Balanced(s.meta.State()) && Reclaimed(old(s.Now()), s.Now()) && LiveKept(old(s.Now()), s.Now())
  {
    ghost var w0 := s.Now();
    run := new Result(dryRun, maxFixes);
    NoFix(w0);
    var objects := CollectObjects(s);
    var stats := CollectStats(objects);
    ObjectsOwn(s.meta.State());
    StatsRight(s.meta.objects, objects, stats);
    var error, listed := s.meta.ListRefs();
    if dryRun {
      return;
    }
    FixAll(s, run, objects, stats, listed, s.meta.refs, now, w0);
    if !run.limited && Rebuildable(w0) {
      FixedComplete(w0, run.fixes, s.Now());
    }
  }

  lemma {:induction false} FixedComplete(w0: World, n: nat, w: World)
    requires Ready(w0) && Rebuildable(w0) && Fixed(w0, n, w) && Terminal(w)
    ensures Balanced(w.meta) && Reclaimed(w0, w) && LiveKept(w0, w)
  {
    var fs :| |fs| == n && FixesEnabled(w0, fs) && ApplyFixes(w0, fs) == w;
    CompleteRun(w0, fs, w);
  }

  /** Limited runs converge: with a limit of at least one, a run that reports no fix found nothing
      to fix. */
  method DedupeUntilDone(s: Store, maxFixes: int, now: nat) returns (runs: nat)
    requires !s.meta.closed && Ready(s.Now()) && maxFixes >= 1
    modifies s.meta, s.engine
    ensures !s.meta.closed && Ready(s.Now()) && Terminal(s.Now()) && runs <= Measure(old(s.Now())) + 1
  {
    runs := 0;
    ghost var w0 := s.Now();
    var again := true;
    while again
      invariant !s.meta.closed && Ready(s.Now()) && (again || Terminal(s.Now()))
      invariant runs + Measure(s.Now()) <= Measure(w0) + One(!again)
      decreases Measure(s.Now()) + One(again)
    {
      ghost var w := s.Now();
      var run := RunDedupe(s, false, maxFixes, now);
      MeasureFalls(w, run.fixes, s.Now());
      again, runs := run.limited, runs + 1;
    }
  }

  lemma {:induction false} MeasureFalls(w: World, n: nat, w': World)
    requires Ready(w) && Fixed(w, n, w')
    ensures n + Measure(w') <= Measure(w)
  {
    var fs :| |fs| == n && FixesEnabled(w, fs) && ApplyFixes(w, fs) == w';
    FixesBounded(w, fs);
  }
}
