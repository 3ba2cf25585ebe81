/** Dedupe as a set of single fixes: which fixes exist, what each one improves, and where any
    sequence of them ends. */
module Reconcile {
  import opened Names
  import opened Metadata
  import opened Protocol
  import opened Recovery
  import opened Order

  datatype Fix =
    | CreateRef(hash: string, from: Loc)
    | IncreaseRef(hash: string)
    | DecreaseRef(hash: string)
    | Relink(loc: Loc, now: nat)

  /** dedupeLayoutMismatch: neither hash nor size is compared. */
  predicate Mismatch(layout: Layout, ref: BlobRef) {
    layout.extent.dir != ref.extent.dir || layout.extent.placements != ref.extent.placements ||
    layout.extent.checksums != ref.extent.checksums || layout.extent.shardSizes != ref.extent.shardSizes
  }

  /** The first collected object with content h. */
  predicate IsFirst(objects: map<Loc, ObjectMeta>, h: string, l: Loc) {
    l in Users(objects, h) && forall k <- Users(objects, h) :: k == l || LocLess(l, k)
  }

  predicate FixEnabled(w: World, f: Fix) {
    match f
    case CreateRef(h, l) => h !in w.meta.refs && IsFirst(w.meta.objects, h, l) && l in w.layouts
    case IncreaseRef(h) => h in w.meta.refs && w.meta.refs[h].refCount < |Users(w.meta.objects, h)|
    case DecreaseRef(h) => h in w.meta.refs && w.meta.refs[h].refCount > |Users(w.meta.objects, h)|
    case Relink(l, _) =>
      && l in w.meta.objects && l in w.layouts && w.meta.objects[l].hash in w.meta.refs
      && Mismatch(w.layouts[l], w.meta.refs[w.meta.objects[l].hash])
  }

  function CanonicalLayout(o: ObjectMeta, ref: BlobRef, now: nat): Layout {
    LayoutOf(o.hash, ETag(o.hash), ref.extent, o.contentType, o.updatedAt, now)
  }

  /** The metadata canonicalizeDedupeLayout stores with the new layout. */
  function CanonicalMeta(o: ObjectMeta, ref: BlobRef): ObjectMeta {
    o.(etag := ETag(o.hash), size := ref.extent.size, state := Committed, placements := ref.extent.placements,
       checksums := ref.extent.checksums, shardSizes := ref.extent.shardSizes)
  }

  function ApplyFix(w: World, f: Fix): World
    requires FixEnabled(w, f)
  {
    match f
    case CreateRef(h, l) => w.(meta := ApplyCreateRef(w.meta, h, w.layouts[l].extent).0)
    case IncreaseRef(h) => w.(meta := ApplyIncrease(w.meta, h).0)
    case DecreaseRef(h) => ReleaseBlob(w, h)
    case Relink(l, now) =>
      var o := w.meta.objects[l];
      var ref := w.meta.refs[o.hash];
      w.(layouts := w.layouts[l := CanonicalLayout(o, ref, now)],
         meta := ApplyUpsert(w.meta, CanonicalMeta(o, ref)).0)
  }

  ghost predicate FixesEnabled(w: World, fs: seq<Fix>)
    decreases |fs|
  {
    fs != [] ==> FixEnabled(w, fs[0]) && FixesEnabled(ApplyFix(w, fs[0]), fs[1..])
  }

  ghost function ApplyFixes(w: World, fs: seq<Fix>): World
    requires FixesEnabled(w, fs)
    decreases |fs|
  {
    if fs == [] then w else ApplyFixes(ApplyFix(w, fs[0]), fs[1..])
  }

  /** Nothing is left to fix. */
  ghost predicate Terminal(w: World) {
    forall f :: !FixEnabled(w, f)
  }

  // --- the worlds Dedupe works on ---

  predicate DirsOk(w: World) {
    && (forall h <- w.meta.refs :: Trim(w.meta.refs[h].extent.dir) == w.meta.refs[h].extent.dir)
    && (forall l <- w.layouts :: Trim(w.layouts[l].extent.dir) == w.layouts[l].extent.dir && !Blank(w.layouts[l].extent.dir))
  }

  predicate Ready(w: World) {
    Valid(w.meta) && DirsOk(w)
  }

  /** Only references change: one hash by one count, with its extent kept. */
  ghost predicate RefFixed(w: World, f: Fix, w': World)
    requires !f.Relink?
  {
    && w'.meta == w.meta.(refs := w'.meta.refs) && w'.layouts == w.layouts
    && (forall h {:trigger Count(w'.meta.refs, h)} ::
          Count(w'.meta.refs, h) == Count(w.meta.refs, h) + (if h != f.hash then 0 else if f.DecreaseRef? then -1 else 1))
    && (forall h <- w'.meta.refs :: h in w.meta.refs ==> w'.meta.refs[h].extent == w.meta.refs[h].extent)
    && (forall h <- w'.meta.refs :: h !in w.meta.refs ==>
          f.CreateRef? && h == f.hash && f.from in w.layouts && w'.meta.refs[h].extent == w.layouts[f.from].extent)
    && (f.CreateRef? ==> f.hash in w'.meta.refs)
  }

  lemma {:induction false} CreateRefEffect(w: World, f: Fix)
    requires FixEnabled(w, f) && f.CreateRef? && CountsOk(w.meta.refs)
    requires !Blank(f.hash) && !Blank(w.layouts[f.from].extent.dir)
    ensures RefFixed(w, f, ApplyFix(w, f)) && ApplyFix(w, f).shards == w.shards
  {
  }

  lemma {:induction false} IncreaseRefEffect(w: World, f: Fix)
    requires FixEnabled(w, f) && f.IncreaseRef? && CountsOk(w.meta.refs) && !Blank(f.hash)
    ensures RefFixed(w, f, ApplyFix(w, f)) && ApplyFix(w, f).shards == w.shards
  {
  }

  lemma {:induction false} DecreaseRefEffect(w: World, f: Fix)
    requires FixEnabled(w, f) && f.DecreaseRef? && CountsOk(w.meta.refs) && !Blank(f.hash)
    ensures RefFixed(w, f, ApplyFix(w, f))
    ensures ApplyFix(w, f).meta == ApplyDecrease(w.meta, f.hash).0
  {
    ReleasedBlob(w, f.hash);
    DecreaseCounts(w.meta, f.hash);
    DecreaseExtents(w.meta, f.hash);
  }

  lemma ReleasedBlob(w: World, h: string)
    ensures ReleaseBlob(w, h).meta == ApplyDecrease(w.meta, h).0 && ReleaseBlob(w, h).layouts == w.layouts
  {
  }

  lemma DecreaseExtents(m: Meta, h: string)
    ensures var r := ApplyDecrease(m, h).0.refs; r.Keys <= m.refs.Keys && forall g <- r :: r[g].extent == m.refs[g].extent
  {
  }

  /** Every fix of a count: references change by one count of one hash. */
  lemma {:induction false} RefFixEffect(w: World, f: Fix)
    requires Ready(w) && FixEnabled(w, f) && !f.Relink?
    ensures RefFixed(w, f, ApplyFix(w, f))
    ensures ApplyFix(w, f).shards == WithoutDropped(w.shards, w.meta.refs, ApplyFix(w, f).meta.refs)
  {
    match f
    case CreateRef(h, l) =>
      assert EntryOk(w.meta.buckets, l, w.meta.objects[l], Committed);
      CreateRefEffect(w, f);
      RefsKeptShards(w, ApplyFix(w, f));
    case IncreaseRef(h) =>
      IncreaseRefEffect(w, f);
      RefsKeptShards(w, ApplyFix(w, f));
    case DecreaseRef(h) =>
      DecreaseRefEffect(w, f);
      ReleaseBlobFacts(w, h);
  }

  lemma RefsKeptShards(w: World, w': World)
    requires w'.shards == w.shards && w.meta.refs.Keys <= w'.meta.refs.Keys
    ensures w'.shards == WithoutDropped(w.shards, w.meta.refs, w'.meta.refs)
  {
    assert WithoutDropped(w.shards, w.meta.refs, w'.meta.refs) == w.shards;
  }

  /** Only one layout and its object's metadata change; the content stays. */
  lemma {:induction false} RelinkEffect(w: World, f: Fix)
    requires Ready(w) && FixEnabled(w, f) && f.Relink?
    ensures var w' := ApplyFix(w, f);
      var o := w.meta.objects[f.loc];
      && w'.meta == w.meta.(objects := w.meta.objects[f.loc := CanonicalMeta(o, w.meta.refs[o.hash])])
      && w'.layouts == w.layouts[f.loc := CanonicalLayout(o, w.meta.refs[o.hash], f.now)]
      && w'.shards == w.shards
  {
    assert EntryOk(w.meta.buckets, f.loc, w.meta.objects[f.loc], Committed);
  }

  lemma {:induction false} FixKeepsReady(w: World, f: Fix)
    requires Ready(w) && FixEnabled(w, f)
    ensures Ready(ApplyFix(w, f))
  {
    FixKeepsValid(w, f);
    if f.Relink? {
      RelinkDirs(w, f);
    } else {
      RefFixEffect(w, f);
    }
  }

  /** The metadata command a fix issues. */
  function FixCommand(w: World, f: Fix): Command
    requires FixEnabled(w, f)
  {
    match f
    case CreateRef(h, l) => CreateBlobRef(h, w.layouts[l].extent)
    case IncreaseRef(h) => IncreaseBlobRef(h)
    case DecreaseRef(h) => DecreaseBlobRef(h)
    case Relink(l, _) => UpsertObject(CanonicalMeta(w.meta.objects[l], w.meta.refs[w.meta.objects[l].hash]))
  }

  lemma {:induction false} FixIsCommand(w: World, f: Fix)
    requires FixEnabled(w, f)
    ensures ApplyFix(w, f).meta == Apply(w.meta, FixCommand(w, f)).0
  {
  }

  lemma {:induction false} FixKeepsValid(w: World, f: Fix)
    requires Ready(w) && FixEnabled(w, f)
    ensures Valid(ApplyFix(w, f).meta)
  {
    FixIsCommand(w, f);
    ApplyKeepsValid(w.meta, FixCommand(w, f));
  }

  lemma {:induction false} RelinkDirs(w: World, f: Fix)
    requires Ready(w) && FixEnabled(w, f) && f.Relink?
    ensures DirsOk(ApplyFix(w, f))
  {
    RelinkEffect(w, f);
    var w' := ApplyFix(w, f);
    forall l | l in w'.layouts
      ensures Trim(w'.layouts[l].extent.dir) == w'.layouts[l].extent.dir && !Blank(w'.layouts[l].extent.dir)
    {
      assert l != f.loc ==> w'.layouts[l] == w.layouts[l];
    }
  }

  // --- users and hashes stay ---

  /** Same keys, same contents. */
  predicate SameContents(a: map<Loc, ObjectMeta>, b: map<Loc, ObjectMeta>) {
    a.Keys == b.Keys && forall l <- a :: a[l].hash == b[l].hash
  }

  lemma {:induction false} SameUsers(a: map<Loc, ObjectMeta>, b: map<Loc, ObjectMeta>, h: string)
    requires SameContents(a, b)
    ensures Users(a, h) == Users(b, h)
  {
  }

  lemma {:induction false} FixKeepsContents(w: World, f: Fix)
    requires Ready(w) && FixEnabled(w, f)
    ensures SameContents(w.meta.objects, ApplyFix(w, f).meta.objects)
    ensures ApplyFix(w, f).layouts.Keys == w.layouts.Keys
    ensures ApplyFix(w, f).meta.staged == w.meta.staged && ApplyFix(w, f).meta.buckets == w.meta.buckets
  {
    if f.Relink? {
      RelinkEffect(w, f);
    } else {
      RefFixEffect(w, f);
    }
  }

  // --- the measure ---

  /** How far the count of h is from its users. */
  function Gap(m: Meta, h: string): nat {
    var d := Count(m.refs, h) - |Users(m.objects, h)|;
    if d < 0 then -d else d
  }

  ghost function GapSum(s: set<string>, m: Meta): nat {
    if s == {} then 0
    else
      var h :| h in s;
      Gap(m, h) + GapSum(s - {h}, m)
  }

  lemma {:induction false} GapSumPick(s: set<string>, m: Meta, h: string)
    requires h in s
    ensures GapSum(s, m) == Gap(m, h) + GapSum(s - {h}, m)
    decreases |s|
  {
    var g :| g in s && GapSum(s, m) == Gap(m, g) + GapSum(s - {g}, m);
    if g != h {
      GapSumPick(s - {g}, m, h);
      GapSumPick(s - {h}, m, g);
      assert s - {g} - {h} == s - {h} - {g};
    }
  }

  lemma {:induction false} GapSumSame(s: set<string>, m: Meta, m': Meta)
    requires forall h <- s :: Gap(m, h) == Gap(m', h)
    ensures GapSum(s, m) == GapSum(s, m')
    decreases |s|
  {
    if s != {} {
      var h :| h in s;
      GapSumPick(s, m, h);
      GapSumPick(s, m', h);
      GapSumSame(s - {h}, m, m');
    }
  }

  lemma {:induction false} GapSumGrow(s: set<string>, t: set<string>, m: Meta)
    requires s <= t && forall h <- t :: h !in s ==> Gap(m, h) == 0
    ensures GapSum(s, m) == GapSum(t, m)
    decreases |t|
  {
    if s != t {
      var h :| h in t && h !in s;
      GapSumPick(t, m, h);
      GapSumGrow(s, t - {h}, m);
    } else {
      assert s == t;
    }
  }

  function Hashes(m: Meta): set<string> {
    m.refs.Keys + set l | l in m.objects :: m.objects[l].hash
  }

  /** The total distance between counts and users. */
  ghost function Drift(m: Meta): nat {
    GapSum(Hashes(m), m)
  }

  lemma {:induction false} NoHashNoGap(m: Meta, h: string)
    requires h !in Hashes(m)
    ensures Gap(m, h) == 0
  {
    assert Users(m.objects, h) == {};
  }

  lemma {:induction false} DriftOver(m: Meta, t: set<string>)
    requires Hashes(m) <= t
    ensures Drift(m) == GapSum(t, m)
  {
    forall h | h in t && h !in Hashes(m)
      ensures Gap(m, h) == 0
    {
      NoHashNoGap(m, h);
    }
    GapSumGrow(Hashes(m), t, m);
  }

  /** If one gap moves and the others stay, the drift moves with it. */
  lemma {:induction false} DriftMoves(m: Meta, m': Meta, g: string)
    requires forall h {:trigger Gap(m, h)} {:trigger Gap(m', h)} :: h != g ==> Gap(m, h) == Gap(m', h)
    ensures Drift(m') - Drift(m) == Gap(m', g) - Gap(m, g)
  {
    var t := Hashes(m) + Hashes(m') + {g};
    DriftOver(m, t);
    DriftOver(m', t);
    GapSumPick(t, m, g);
    GapSumPick(t, m', g);
    GapSumSame(t - {g}, m, m');
  }

  /** Objects whose layout differs from their reference. */
  function Mismatched(w: World): set<Loc> {
    set l | l in w.meta.objects && l in w.layouts && w.meta.objects[l].hash in w.meta.refs
            && Mismatch(w.layouts[l], w.meta.refs[w.meta.objects[l].hash])
  }

  /** Those, and the ones that have no reference to compare with yet. */
  function Unsettled(w: World): set<Loc> {
    set l | l in w.meta.objects && l in w.layouts && (w.meta.objects[l].hash !in w.meta.refs
            || Mismatch(w.layouts[l], w.meta.refs[w.meta.objects[l].hash]))
  }

  ghost function Measure(w: World): nat {
    Drift(w.meta) + |Unsettled(w)|
  }

  lemma {:induction false} RefFixDrift(w: World, f: Fix)
    requires Ready(w) && FixEnabled(w, f) && !f.Relink?
    ensures Drift(ApplyFix(w, f).meta) == Drift(w.meta) - 1
  {
    var m' := ApplyFix(w, f).meta;
    RefFixEffect(w, f);
    assert f.CreateRef? ==> f.from in Users(w.meta.objects, f.hash);
    forall h | h != f.hash
      ensures Gap(w.meta, h) == Gap(m', h)
    {
      assert Count(m'.refs, h) == Count(w.meta.refs, h);
    }
    assert Count(m'.refs, f.hash) == Count(w.meta.refs, f.hash) + (if f.DecreaseRef? then -1 else 1);
    DriftMoves(w.meta, m', f.hash);
  }

  lemma {:induction false} RefFixUnsettled(w: World, f: Fix)
    requires Ready(w) && FixEnabled(w, f) && !f.Relink?
    ensures Unsettled(ApplyFix(w, f)) <= Unsettled(w)
  {
    var w' := ApplyFix(w, f);
    RefFixEffect(w, f);
    forall l | l in Unsettled(w')
      ensures l in Unsettled(w)
    {
      var h := w.meta.objects[l].hash;
      assert l in Users(w.meta.objects, h);
      assert Count(w'.meta.refs, h) == Count(w.meta.refs, h) + (if h != f.hash then 0 else if f.DecreaseRef? then -1 else 1);
    }
  }

  lemma {:induction false} RelinkDrift(w: World, f: Fix)
    requires Ready(w) && FixEnabled(w, f) && f.Relink?
    ensures Drift(ApplyFix(w, f).meta) == Drift(w.meta)
  {
    var m' := ApplyFix(w, f).meta;
    RelinkEffect(w, f);
    FixKeepsContents(w, f);
    forall h
      ensures Gap(w.meta, h) == Gap(m', h)
    {
      SameUsers(w.meta.objects, m'.objects, h);
    }
    DriftMoves(w.meta, m', "");
  }

  /** Contents, references and the other layouts stay; this layout now matches. */
  ghost predicate Relinked(w: World, w': World, l: Loc) {
    && w'.meta.refs == w.meta.refs && w'.meta.objects.Keys == w.meta.objects.Keys && w'.layouts.Keys == w.layouts.Keys
    && (forall k <- w.meta.objects :: w'.meta.objects[k].hash == w.meta.objects[k].hash)
    && (forall k <- w.layouts :: k != l ==> w'.layouts[k] == w.layouts[k])
    && l in Mismatched(w) && !Mismatch(w'.layouts[l], w.meta.refs[w.meta.objects[l].hash])
  }

  lemma {:induction false} RelinkMatches(w: World, f: Fix)
    requires Ready(w) && FixEnabled(w, f) && f.Relink?
    ensures Relinked(w, ApplyFix(w, f), f.loc)
  {
    RelinkEffect(w, f);
    CanonicalMatches(w.meta.objects[f.loc], w.meta.refs[w.meta.objects[f.loc].hash], f.now);
    CanonicalRelinks(w, ApplyFix(w, f), f.loc, f.now);
  }

  lemma CanonicalMatches(o: ObjectMeta, ref: BlobRef, now: nat)
    requires Trim(ref.extent.dir) == ref.extent.dir
    ensures !Mismatch(CanonicalLayout(o, ref, now), ref) && CanonicalMeta(o, ref).hash == o.hash
  {
  }

  lemma CanonicalRelinks(w: World, w': World, l: Loc, now: nat)
    requires l in w.meta.objects && l in w.layouts && w.meta.objects[l].hash in w.meta.refs && l in Mismatched(w)
    requires var o := w.meta.objects[l];
      && w'.meta == w.meta.(objects := w.meta.objects[l := CanonicalMeta(o, w.meta.refs[o.hash])])
      && w'.layouts == w.layouts[l := CanonicalLayout(o, w.meta.refs[o.hash], now)]
      && CanonicalMeta(o, w.meta.refs[o.hash]).hash == o.hash
      && !Mismatch(CanonicalLayout(o, w.meta.refs[o.hash], now), w.meta.refs[o.hash])
    ensures Relinked(w, w', l)
  {
    assert w'.layouts.Keys == w.layouts.Keys;
    assert w'.meta.objects.Keys == w.meta.objects.Keys;
  }

  lemma {:induction false} RelinkSettles(w: World, w': World, l: Loc)
    requires Relinked(w, w', l)
    ensures |Unsettled(w')| == |Unsettled(w)| - 1
  {
    assert Unsettled(w') == Unsettled(w) - {l} && l in Unsettled(w);
  }

  lemma {:induction false} RelinkUnmismatches(w: World, w': World, l: Loc)
    requires Relinked(w, w', l)
    ensures |Mismatched(w')| == |Mismatched(w)| - 1
  {
    assert Mismatched(w') == Mismatched(w) - {l} && l in Mismatched(w);
  }

  /** Each fix either lowers the drift by one, or keeps it and removes one mismatch; so the
      measure falls with every fix. */
  lemma {:induction false} FixImproves(w: World, f: Fix)
    requires Ready(w) && FixEnabled(w, f)
    ensures var w' := ApplyFix(w, f);
      || Drift(w'.meta) == Drift(w.meta) - 1
      || (Drift(w'.meta) == Drift(w.meta) && |Mismatched(w')| == |Mismatched(w)| - 1)
    ensures Measure(ApplyFix(w, f)) < Measure(w)
  {
    var w' := ApplyFix(w, f);
    if f.Relink? {
      RelinkMatches(w, f);
      RelinkSettles(w, w', f.loc);
      RelinkUnmismatches(w, w', f.loc);
      RelinkDrift(w, f);
    } else {
      RefFixDrift(w, f);
      RefFixUnsettled(w, f);
      SubsetCard(Unsettled(w'), Unsettled(w));
    }
  }

  lemma {:induction false} SubsetCard(a: set<Loc>, b: set<Loc>)
    requires a <= b
    ensures |a| <= |b|
  {
    assert b == a + (b - a);
  }

  /** So no run makes more fixes than the measure it starts from. */
  lemma {:induction false} FixesBounded(w: World, fs: seq<Fix>)
    requires Ready(w) && FixesEnabled(w, fs)
    ensures Ready(ApplyFixes(w, fs)) && |fs| + Measure(ApplyFixes(w, fs)) <= Measure(w)
    decreases |fs|
  {
    if fs != [] {
      FixImproves(w, fs[0]);
      FixKeepsReady(w, fs[0]);
      FixesBounded(ApplyFix(w, fs[0]), fs[1..]);
    }
  }

  /** Runs in a row, each of which makes at least one fix unless nothing is left to fix. */
  ghost predicate Runs(w: World, runs: seq<seq<Fix>>)
    decreases |runs|
  {
    runs != [] ==>
      && FixesEnabled(w, runs[0]) && (runs[0] == [] ==> Terminal(w))
      && Runs(ApplyFixes(w, runs[0]), runs[1..])
  }

  ghost function AfterRuns(w: World, runs: seq<seq<Fix>>): World
    requires Runs(w, runs)
    decreases |runs|
  {
    if runs == [] then w else AfterRuns(ApplyFixes(w, runs[0]), runs[1..])
  }

  lemma {:induction false} TerminalHasNoFixes(w: World, fs: seq<Fix>)
    requires Terminal(w) && fs != []
    ensures !FixesEnabled(w, fs)
  {
    assert !FixEnabled(w, fs[0]);
  }

  lemma {:induction false} TerminalStays(w: World, runs: seq<seq<Fix>>)
    requires Terminal(w) && Runs(w, runs)
    ensures AfterRuns(w, runs) == w
    decreases |runs|
  {
    if runs != [] {
      if runs[0] != [] {
        TerminalHasNoFixes(w, runs[0]);
      }
      TerminalStays(w, runs[1..]);
    }
  }

  /** Repeated limited runs converge: as many runs as the measure are always enough. */
  lemma {:induction false} LimitedRunsConverge(w: World, runs: seq<seq<Fix>>)
    requires Ready(w) && Runs(w, runs) && |runs| > Measure(w)
    ensures Terminal(AfterRuns(w, runs))
    decreases |runs|
  {
    FixesBounded(w, runs[0]);
    if runs[0] == [] {
      TerminalStays(w, runs);
    } else {
      LimitedRunsConverge(ApplyFixes(w, runs[0]), runs[1..]);
    }
  }

  // --- where a complete run ends ---

  /** The first object with content h has a layout. */
  predicate Sourced(users: set<Loc>, linked: set<Loc>) {
    exists l <- users :: l in linked && forall k <- users :: k == l || LocLess(l, k)
  }

  /** References of used hashes stay, new ones come from a first object's layout, and what stays
      points where it did. */
  predicate Tracks(objects: map<Loc, ObjectMeta>, linked: set<Loc>, r: map<string, BlobRef>, r': map<string, BlobRef>) {
    && (forall h <- r :: Users(objects, h) != {} ==> h in r')
    && (forall h <- r' :: h !in r ==> Sourced(Users(objects, h), linked))
    && (forall h <- r :: h in r' ==> r'[h].extent == r[h].extent)
  }

  predicate Progress(w: World, w': World) {
    && w'.meta.buckets == w.meta.buckets && w'.meta.staged == w.meta.staged
    && SameContents(w.meta.objects, w'.meta.objects) && w'.layouts.Keys == w.layouts.Keys
    && Tracks(w.meta.objects, w.layouts.Keys, w.meta.refs, w'.meta.refs)
    && w'.shards == WithoutDropped(w.shards, w.meta.refs, w'.meta.refs)
  }

  lemma {:induction false} FixTracks(w: World, f: Fix)
    requires Ready(w) && FixEnabled(w, f)
    ensures Tracks(w.meta.objects, w.layouts.Keys, w.meta.refs, ApplyFix(w, f).meta.refs)
  {
    if f.Relink? {
      RelinkEffect(w, f);
    } else {
      RefFixEffect(w, f);
      if f.CreateRef? {
        FirstIsSource(w, f.hash, f.from);
      }
      RefFixTracks(w, f, ApplyFix(w, f));
    }
  }

  lemma {:induction false} FirstIsSource(w: World, h: string, l: Loc)
    requires IsFirst(w.meta.objects, h, l) && l in w.layouts
    ensures Sourced(Users(w.meta.objects, h), w.layouts.Keys)
  {
  }

  lemma {:induction false} RefFixTracks(w: World, f: Fix, w': World)
    requires CountsOk(w.meta.refs) && FixEnabled(w, f) && !f.Relink? && RefFixed(w, f, w')
    requires f.CreateRef? ==> Sourced(Users(w.meta.objects, f.hash), w.layouts.Keys)
    ensures Tracks(w.meta.objects, w.layouts.Keys, w.meta.refs, w'.meta.refs)
  {
    forall h | h in w.meta.refs && Users(w.meta.objects, h) != {}
      ensures h in w'.meta.refs
    {
      assert Count(w'.meta.refs, h) == Count(w.meta.refs, h) + (if h != f.hash then 0 else if f.DecreaseRef? then -1 else 1);
      assert w.meta.refs[h].refCount >= 1 && |Users(w.meta.objects, h)| >= 1;
    }
  }

  lemma {:induction false} FixProgress(w: World, f: Fix)
    requires Ready(w) && FixEnabled(w, f)
    ensures Progress(w, ApplyFix(w, f))
  {
    FixKeepsContents(w, f);
    FixTracks(w, f);
    FixDrops(w, f);
  }

  lemma {:induction false} FixDrops(w: World, f: Fix)
    requires Ready(w) && FixEnabled(w, f)
    ensures ApplyFix(w, f).shards == WithoutDropped(w.shards, w.meta.refs, ApplyFix(w, f).meta.refs)
  {
    if f.Relink? {
      RelinkEffect(w, f);
      RefsKeptShards(w, ApplyFix(w, f));
    } else {
      RefFixEffect(w, f);
    }
  }

  lemma {:induction false} TracksTransitive(a: map<Loc, ObjectMeta>, b: map<Loc, ObjectMeta>, linked: set<Loc>, r0: map<string, BlobRef>, r1: map<string, BlobRef>, r2: map<string, BlobRef>)
    requires SameContents(a, b) && Tracks(a, linked, r0, r1) && Tracks(b, linked, r1, r2)
    ensures Tracks(a, linked, r0, r2)
    ensures forall k :: Dropped(k, r0, r2) <==> Dropped(k, r0, r1) || (Dropped(k, r1, r2) && k.hash in r0)
    ensures forall h <- r1 :: h !in r0 ==> h in r2
  {
    forall h
      ensures Users(a, h) == Users(b, h)
    {
      SameUsers(a, b, h);
    }
  }

  lemma {:induction false} ProgressTransitive(w0: World, w1: World, w2: World)
    requires Progress(w0, w1) && Progress(w1, w2)
    ensures Progress(w0, w2)
  {
    TracksTransitive(w0.meta.objects, w1.meta.objects, w0.layouts.Keys, w0.meta.refs, w1.meta.refs, w2.meta.refs);
    assert SameContents(w0.meta.objects, w2.meta.objects);
  }

  lemma {:induction false} FixesProgress(w: World, fs: seq<Fix>)
    requires Ready(w) && FixesEnabled(w, fs)
    ensures Ready(ApplyFixes(w, fs)) && Progress(w, ApplyFixes(w, fs))
    decreases |fs|
  {
    if fs == [] {
      assert WithoutDropped(w.shards, w.meta.refs, w.meta.refs) == w.shards;
    } else {
      var w1 := ApplyFix(w, fs[0]);
      FixProgress(w, fs[0]);
      FixKeepsReady(w, fs[0]);
      FixesProgress(w1, fs[1..]);
      ProgressTransitive(w, w1, ApplyFixes(w1, fs[1..]));
    }
  }

  /** Every used hash without a reference has a layout to rebuild it from: that of its first object. */
  predicate Rebuildable(w: World) {
    forall l <- w.meta.objects ::
      w.meta.objects[l].hash !in w.meta.refs && IsFirst(w.meta.objects, w.meta.objects[l].hash, l) ==> l in w.layouts
  }

  lemma {:induction false} TerminalCounts(w: World, h: string)
    requires Terminal(w) && h in w.meta.refs
    ensures w.meta.refs[h].refCount == |Users(w.meta.objects, h)|
  {
    assert !FixEnabled(w, IncreaseRef(h)) && !FixEnabled(w, DecreaseRef(h));
  }

  lemma {:induction false} TerminalLayouts(w: World, l: Loc)
    requires Terminal(w) && l in w.meta.objects && l in w.layouts && w.meta.objects[l].hash in w.meta.refs
    ensures !Mismatch(w.layouts[l], w.meta.refs[w.meta.objects[l].hash])
  {
    assert !FixEnabled(w, Relink(l, 0));
  }

  lemma {:induction false} TerminalUnsourced(w: World, h: string)
    requires Terminal(w) && h !in w.meta.refs
    ensures !Sourced(Users(w.meta.objects, h), w.layouts.Keys)
  {
    forall l | l in Users(w.meta.objects, h) && l in w.layouts
      ensures exists k <- Users(w.meta.objects, h) :: k != l && !LocLess(l, k)
    {
      assert !FixEnabled(w, CreateRef(h, l));
    }
  }

  lemma {:induction false} RebuildableSourced(w: World, h: string)
    requires Rebuildable(w) && h !in w.meta.refs && Users(w.meta.objects, h) != {}
    ensures Sourced(Users(w.meta.objects, h), w.layouts.Keys)
  {
    var l := LeastLoc(Users(w.meta.objects, h));
    assert IsFirst(w.meta.objects, h, l);
  }

  lemma {:induction false} RebuildableBalances(w: World, w': World, h: string)
    requires Terminal(w') && Progress(w, w') && Rebuildable(w)
    ensures Count(w'.meta.refs, h) == |Users(w'.meta.objects, h)|
  {
    SameUsers(w.meta.objects, w'.meta.objects, h);
    if h in w'.meta.refs {
      TerminalCounts(w', h);
    } else {
      TerminalUnsourced(w', h);
      if Users(w'.meta.objects, h) != {} {
        RebuildableSourced(w, h);
      }
    }
  }

  lemma {:induction false} FirstUnique(users: set<Loc>, linked: set<Loc>, l: Loc)
    requires l in users && l !in linked && forall k <- users :: k == l || LocLess(l, k)
    ensures !Sourced(users, linked)
  {
    forall k | k in users && k in linked
      ensures exists j <- users :: j != k && !LocLess(k, j)
    {
      LocLessOrder(l, k, l);
    }
  }

  lemma {:induction false} UnrebuildableUnbalanced(w: World, w': World)
    requires Progress(w, w') && !Rebuildable(w)
    ensures !Balanced(w'.meta)
  {
    var l :| l in w.meta.objects && w.meta.objects[l].hash !in w.meta.refs
             && IsFirst(w.meta.objects, w.meta.objects[l].hash, l) && l !in w.layouts;
    var h := w.meta.objects[l].hash;
    SameUsers(w.meta.objects, w'.meta.objects, h);
    FirstUnique(Users(w.meta.objects, h), w.layouts.Keys, l);
    assert l in Users(w'.meta.objects, h);
    assert Count(w'.meta.refs, h) == 0;
  }

  /** A finished run leaves the counts balanced exactly when it started with something to rebuild
      each missing reference from. */
  lemma {:induction false} TerminalBalancedIff(w: World, w': World)
    requires Ready(w') && Terminal(w') && Progress(w, w')
    ensures Balanced(w'.meta) <==> Rebuildable(w)
  {
    if Rebuildable(w) {
      forall h
        ensures Count(w'.meta.refs, h) == |Users(w'.meta.objects, h)|
      {
        RebuildableBalances(w, w', h);
      }
    } else {
      UnrebuildableUnbalanced(w, w');
    }
  }

  /** References without users are gone, and their shard sets with them. */
  predicate Reclaimed(w: World, w': World) {
    forall h <- w.meta.refs :: Users(w.meta.objects, h) == {} ==>
      h !in w'.meta.refs && SetAt(w.meta.refs[h].extent.dir, h) !in w'.shards
  }

  /** Every other shard set is as it was. */
  predicate LiveKept(w: World, w': World) {
    forall k <- w.shards :: k.hash !in w.meta.refs || Users(w.meta.objects, k.hash) != {} ==>
      k in w'.shards && w'.shards[k] == w.shards[k]
  }

  /** The object has a layout, and it points where its reference does. */
  predicate Agrees(w: World, l: Loc)
    requires l in w.meta.objects
  {
    && l in w.layouts && w.meta.objects[l].hash in w.meta.refs
    && !Mismatch(w.layouts[l], w.meta.refs[w.meta.objects[l].hash])
  }

  lemma {:induction false} RunReclaims(w: World, w': World)
    requires Ready(w) && Progress(w, w') && Balanced(w'.meta)
    ensures Reclaimed(w, w') && LiveKept(w, w')
  {
    forall h | h in w.meta.refs && Users(w.meta.objects, h) == {}
      ensures h !in w'.meta.refs && SetAt(w.meta.refs[h].extent.dir, h) !in w'.shards
    {
      SameUsers(w.meta.objects, w'.meta.objects, h);
      assert Count(w'.meta.refs, h) == 0;
    }
  }

  lemma {:induction false} RunAligns(w': World)
    requires Terminal(w') && Balanced(w'.meta)
    ensures forall l <- w'.meta.objects :: Agrees(w', l) <==> l in w'.layouts
  {
    forall l | l in w'.meta.objects && l in w'.layouts
      ensures Agrees(w', l)
    {
      var h := w'.meta.objects[l].hash;
      assert l in Users(w'.meta.objects, h);
      assert Count(w'.meta.refs, h) >= 1;
      TerminalLayouts(w', l);
    }
  }

  /** A complete run: counts equal users, no reference is left without a user and its shard set is
      gone, contents and live sets stay, every object that has a layout has one that agrees with its
      reference in directory, placements, checksums and shard sizes (hash and size are not compared,
      see Healing.AgreesLinked), and a second run would make no fix. */
  lemma {:induction false} CompleteRun(w: World, fs: seq<Fix>, w': World)
    requires Ready(w) && Rebuildable(w) && FixesEnabled(w, fs) && w' == ApplyFixes(w, fs) && Terminal(w')
    ensures Balanced(w'.meta) && SameContents(w.meta.objects, w'.meta.objects)
    ensures Reclaimed(w, w') && LiveKept(w, w')
    ensures forall l <- w'.meta.objects :: Agrees(w', l) <==> l in w.layouts
    ensures forall gs :: FixesEnabled(w', gs) ==> gs == []
  {
    FixesProgress(w, fs);
    TerminalBalancedIff(w, w');
    RunReclaims(w, w');
    RunAligns(w');
    forall gs | gs != []
      ensures !FixesEnabled(w', gs)
    {
      TerminalHasNoFixes(w', gs);
    }
  }
}
