/** How an object's layout is found: in a cache, else in the file of its home directory, else by
    walking all layout files. */
module LayoutCache {
  import opened Names
  import opened Metadata
  import opened Protocol

  /** A layout file: the folder its shard directory leads to, and its layout id. */
  datatype File = File(folder: string, id: string)

  datatype Record = Record(loc: Loc, layout: Layout)

  /** The hash behind layout ids, where a shard directory leads to on disk, the folders below the
      engine's root, and the order in which a walk comes to files. */
  datatype Disk = Disk(idOf: string -> string, folder: string -> string, inRoot: string -> bool, walk: set<File> -> seq<File>)

  ghost predicate Sound(d: Disk) {
    && (forall a, b :: d.idOf(a) == d.idOf(b) ==> a == b)
    && (forall fs, f :: f in d.walk(fs) <==> f in fs && d.inRoot(f.folder))
  }

  datatype State = State(files: map<File, Record>, cache: map<string, Record>)

  function LayoutKey(l: Loc): string {
    JoinKey(l.bucket, '/', l.key)
  }

  predicate Plain(l: Loc) {
    '/' !in l.bucket
  }

  function FileIn(d: Disk, l: Loc, dir: string): File {
    File(d.folder(dir), d.idOf(LayoutKey(l)))
  }

  function FileOf(d: Disk, r: Record): File {
    FileIn(d, r.loc, r.layout.extent.dir)
  }

  function Home(d: Disk, l: Loc): File {
    FileIn(d, l, ShardDir(l.key))
  }

  // --- looking up ---

  predicate Hits(files: map<File, Record>, f: File, l: Loc) {
    f in files && files[f].loc == l
  }

  function FirstHit(files: map<File, Record>, order: seq<File>, l: Loc): Option<Record> {
    if order == [] then None
    else if Hits(files, order[0], l) then Some(files[order[0]])
    else FirstHit(files, order[1..], l)
  }

  function OnDisk(d: Disk, files: map<File, Record>, l: Loc): Option<Record> {
    if Home(d, l) in files then Some(files[Home(d, l)]) else FirstHit(files, d.walk(files.Keys), l)
  }

  function Lookup(d: Disk, s: State, l: Loc): Option<Record> {
    if LayoutKey(l) in s.cache then Some(s.cache[LayoutKey(l)]) else OnDisk(d, s.files, l)
  }

  // --- what happens to layouts ---

  /** A restart drops the cache. A removal that fails still drops the cached layout. */
  datatype Op = Linked(loc: Loc, layout: Layout) | Removed(loc: Loc, deleted: bool) | Sought(loc: Loc) | Restarted

  function Next(d: Disk, s: State, op: Op): State {
    match op
    case Linked(l, x) =>
      var r := Record(l, x);
      State(s.files[FileOf(d, r) := r], s.cache[LayoutKey(l) := r])
    case Removed(l, deleted) =>
      (match Lookup(d, s, l)
       case None => s
       case Some(r) => State(if deleted then s.files - {FileIn(d, l, r.layout.extent.dir)} else s.files, s.cache - {LayoutKey(l)}))
    case Sought(l) =>
      (match Lookup(d, s, l)
       case None => s
       case Some(r) => s.(cache := s.cache[LayoutKey(l) := r]))
    case Restarted => s.(cache := map[])
  }

  const Empty := State(map[], map[])

  function After(d: Disk, ops: seq<Op>): State {
    if ops == [] then Empty else Next(d, After(d, ops[..|ops| - 1]), ops[|ops| - 1])
  }

  /** The same history on a plain map. */
  function Told(m: map<Loc, Layout>, op: Op): map<Loc, Layout> {
    match op
    case Linked(l, x) => m[l := x]
    case Removed(l, deleted) => if deleted then m - {l} else m
    case _ => m
  }

  function Model(ops: seq<Op>): map<Loc, Layout> {
    if ops == [] then map[] else Told(Model(ops[..|ops| - 1]), ops[|ops| - 1])
  }

  /** The buckets of a history have no slash in their names. */
  predicate PlainOps(ops: seq<Op>) {
    forall i | 0 <= i < |ops| :: ops[i].Restarted? || Plain(ops[i].loc)
  }

  /** A walk or the home directory leads to the file of a layout. */
  predicate Findable(d: Disk, r: Record) {
    FileOf(d, r) == Home(d, r.loc) || d.inRoot(FileOf(d, r).folder)
  }

  /** Between removals a location is linked in one folder only, and where it can be found. */
  predicate OneFolder(d: Disk, ops: seq<Op>) {
    ops == [] ||
    var before, op := ops[..|ops| - 1], ops[|ops| - 1];
    && OneFolder(d, before)
    && (op.Linked? ==>
          && Findable(d, Record(op.loc, op.layout))
          && (op.loc in Model(before) ==> d.folder(Model(before)[op.loc].extent.dir) == d.folder(op.layout.extent.dir)))
  }

  // --- what always holds ---

  lemma SameLoc(d: Disk, a: Loc, b: Loc)
    requires Sound(d) && Plain(a) && Plain(b) && d.idOf(LayoutKey(a)) == d.idOf(LayoutKey(b))
    ensures a == b
  {
    JoinKeyInjective(a.bucket, a.key, b.bucket, b.key, '/');
  }

  /** Files lie where their layouts say, and what is cached is on disk. */
  ghost predicate Coherent(d: Disk, s: State) {
    && (forall f <- s.files :: Plain(s.files[f].loc) && f == FileOf(d, s.files[f]))
    && (forall k <- s.cache :: Cached(d, s, k, s.cache[k]))
  }

  ghost predicate Cached(d: Disk, s: State, k: string, r: Record) {
    LayoutKey(r.loc) == k && Plain(r.loc) && FileOf(d, r) in s.files && s.files[FileOf(d, r)] == r
  }

  lemma {:induction false} FirstHitIs(files: map<File, Record>, order: seq<File>, l: Loc)
    ensures FirstHit(files, order, l).None? <==> forall f <- order :: !Hits(files, f, l)
    ensures FirstHit(files, order, l).Some? ==> exists f :: f in order && Hits(files, f, l) && files[f] == FirstHit(files, order, l).value
  {
    if order != [] && !Hits(files, order[0], l) {
      FirstHitIs(files, order[1..], l);
      assert order == [order[0]] + order[1..];
    } else if order != [] {
      assert order[0] in order;
    }
  }

  /** A layout that is found lies on disk, filed for the location asked for. */
  lemma {:induction false} FoundIsCached(d: Disk, s: State, l: Loc)
    requires Sound(d) && Plain(l) && Coherent(d, s) && Lookup(d, s, l).Some?
    ensures var r := Lookup(d, s, l).value; r.loc == l && Cached(d, s, LayoutKey(l), r)
  {
    var k := LayoutKey(l);
    if k in s.cache {
      SameLoc(d, s.cache[k].loc, l);
    } else if Home(d, l) in s.files {
      SameLoc(d, s.files[Home(d, l)].loc, l);
    } else {
      FirstHitIs(s.files, d.walk(s.files.Keys), l);
    }
  }

  lemma {:induction false} CoherentLink(d: Disk, s: State, l: Loc, x: Layout)
    requires Sound(d) && Coherent(d, s) && Plain(l)
    ensures Coherent(d, Next(d, s, Linked(l, x)))
  {
    var s' := Next(d, s, Linked(l, x));
    forall k | k in s'.cache
      ensures Cached(d, s', k, s'.cache[k])
    {
      assert k != LayoutKey(l) ==> d.idOf(k) != d.idOf(LayoutKey(l));
    }
  }

  lemma {:induction false} CoherentRemove(d: Disk, s: State, l: Loc, deleted: bool)
    requires Sound(d) && Coherent(d, s) && Plain(l)
    ensures Coherent(d, Next(d, s, Removed(l, deleted)))
  {
    if Lookup(d, s, l).Some? {
      FoundIsCached(d, s, l);
      var s' := Next(d, s, Removed(l, deleted));
      forall k | k in s'.cache
        ensures Cached(d, s', k, s'.cache[k])
      {
        assert d.idOf(k) != d.idOf(LayoutKey(l));
      }
    }
  }

  lemma {:induction false} CoherentStep(d: Disk, s: State, op: Op)
    requires Sound(d) && Coherent(d, s) && (op.Restarted? || Plain(op.loc))
    ensures Coherent(d, Next(d, s, op))
  {
    match op
    case Linked(l, x) =>
      CoherentLink(d, s, l, x);
    case Removed(l, deleted) =>
      CoherentRemove(d, s, l, deleted);
    case Sought(l) =>
      if Lookup(d, s, l).Some? {
        FoundIsCached(d, s, l);
      }
    case Restarted =>
  }

  lemma {:induction false} AlwaysCoherent(d: Disk, ops: seq<Op>)
    requires Sound(d) && PlainOps(ops)
    ensures Coherent(d, After(d, ops))
  {
    if ops != [] {
      var n := |ops| - 1;
      AlwaysCoherent(d, ops[..n]);
      CoherentStep(d, After(d, ops[..n]), ops[n]);
    }
  }

  // --- when a restart changes nothing ---

  /** A walk comes to this file before any other one of the location. */
  predicate WalkedFirst(files: map<File, Record>, order: seq<File>, l: Loc, p: File) {
    exists i | 0 <= i < |order| :: order[i] == p && Hits(files, p, l) && forall j | 0 <= j < i :: !Hits(files, order[j], l)
  }

  lemma {:induction false} FirstHitWalked(d: Disk, files: map<File, Record>, order: seq<File>, l: Loc, p: File)
    requires p in files && (forall f <- files :: f == FileOf(d, files[f]))
    ensures FirstHit(files, order, l) == Some(files[p]) <==> WalkedFirst(files, order, l, p)
  {
    if order != [] && !Hits(files, order[0], l) {
      var rest := order[1..];
      FirstHitWalked(d, files, rest, l, p);
      if WalkedFirst(files, rest, l, p) {
        var i :| 0 <= i < |rest| && rest[i] == p && Hits(files, p, l) && forall j | 0 <= j < i :: !Hits(files, rest[j], l);
        assert order[i + 1] == p;
        assert forall j | 0 <= j < i + 1 :: j == 0 || order[j] == rest[j - 1];
      }
      if WalkedFirst(files, order, l, p) {
        var i :| 0 <= i < |order| && order[i] == p && Hits(files, p, l) && forall j | 0 <= j < i :: !Hits(files, order[j], l);
        assert rest[i - 1] == p;
        assert forall j | 0 <= j < i - 1 :: rest[j] == order[j + 1];
      }
    } else if order != [] {
      if p == order[0] {
        assert order[0] == p && Hits(files, p, l);
      }
    }
  }

  /** Dropping the cache changes what a lookup finds unless the location is not cached, or the file of
      the cached layout is the one in the home directory, or there is none there and a walk comes to
      it first. */
  lemma {:induction false} RestartKeepsIff(d: Disk, s: State, l: Loc)
    requires Sound(d) && Plain(l) && Coherent(d, s)
    ensures Lookup(d, Next(d, s, Restarted), l) == Lookup(d, s, l) <==>
      LayoutKey(l) in s.cache ==>
        var p := FileOf(d, s.cache[LayoutKey(l)]);
        p == Home(d, l) || (Home(d, l) !in s.files && WalkedFirst(s.files, d.walk(s.files.Keys), l, p))
  {
    if LayoutKey(l) in s.cache {
      FoundIsCached(d, s, l);
      FirstHitWalked(d, s.files, d.walk(s.files.Keys), l, FileOf(d, s.cache[LayoutKey(l)]));
    }
  }

  /** A removal leaves nothing to be found exactly when no other file is left for the location. */
  lemma {:induction false} RemoveClearsIff(d: Disk, s: State, l: Loc)
    requires Sound(d) && Plain(l) && Coherent(d, s) && Lookup(d, s, l).Some?
    ensures var p := FileOf(d, Lookup(d, s, l).value);
      Lookup(d, Next(d, s, Removed(l, true)), l).None? <==>
      forall f <- s.files :: f != p && s.files[f].loc == l ==> f != Home(d, l) && !d.inRoot(f.folder)
  {
    FoundIsCached(d, s, l);
    var p := FileOf(d, Lookup(d, s, l).value);
    FoundIff(d, s.files - {p}, l);
  }

  /** Without the cache something is found exactly when some file of the location can be found. */
  lemma {:induction false} FoundIff(d: Disk, files: map<File, Record>, l: Loc)
    requires Sound(d) && Plain(l) && forall f <- files :: Plain(files[f].loc) && f == FileOf(d, files[f])
    ensures OnDisk(d, files, l).None? <==> forall f <- files :: files[f].loc == l ==> f != Home(d, l) && !d.inRoot(f.folder)
  {
    FirstHitIs(files, d.walk(files.Keys), l);
    if Home(d, l) in files {
      SameLoc(d, files[Home(d, l)].loc, l);
    }
    if f :| f in files && files[f].loc == l && d.inRoot(f.folder) {
      assert f in d.walk(files.Keys) && Hits(files, f, l);
    }
  }

  // --- histories with one folder at a time ---

  /** The files are the plain map, one file for each location, and the cache is part of it. */
  ghost predicate Mirrors(d: Disk, s: State, m: map<Loc, Layout>) {
    && (forall f <- s.files :: s.files[f].loc in m && m[s.files[f].loc] == s.files[f].layout)
    && (forall l <- m :: Plain(l) && Findable(d, Record(l, m[l])) && FileIn(d, l, m[l].extent.dir) in s.files)
  }

  lemma {:induction false} MirrorsLookup(d: Disk, s: State, m: map<Loc, Layout>, l: Loc)
    requires Sound(d) && Coherent(d, s) && Mirrors(d, s, m) && Plain(l)
    ensures Lookup(d, s, l) == if l in m then Some(Record(l, m[l])) else None
  {
    if Lookup(d, s, l).Some? {
      FoundIsCached(d, s, l);
    } else if l in m {
      var r := Record(l, m[l]);
      var f := FileOf(d, r);
      SameLoc(d, s.files[f].loc, l);
      FirstHitIs(s.files, d.walk(s.files.Keys), l);
      assert Hits(s.files, f, l);
    }
  }

  lemma {:induction false} MirrorsStep(d: Disk, s: State, m: map<Loc, Layout>, op: Op)
    requires Sound(d) && Coherent(d, s) && Mirrors(d, s, m) && (op.Restarted? || Plain(op.loc))
    requires op.Linked? ==> Findable(d, Record(op.loc, op.layout))
    requires op.Linked? && op.loc in m ==> d.folder(m[op.loc].extent.dir) == d.folder(op.layout.extent.dir)
    ensures Mirrors(d, Next(d, s, op), Told(m, op))
  {
    if op.Linked? {
      MirrorsLink(d, s, m, op.loc, op.layout);
    } else if op.Removed? {
      MirrorsRemove(d, s, m, op.loc, op.deleted);
    }
  }

  lemma {:induction false} MirrorsLink(d: Disk, s: State, m: map<Loc, Layout>, l: Loc, x: Layout)
    requires Sound(d) && Coherent(d, s) && Mirrors(d, s, m) && Plain(l) && Findable(d, Record(l, x))
    requires l in m ==> d.folder(m[l].extent.dir) == d.folder(x.extent.dir)
    ensures Mirrors(d, Next(d, s, Linked(l, x)), m[l := x])
  {
    var s', m' := Next(d, s, Linked(l, x)), m[l := x];
    forall f | f in s'.files
      ensures s'.files[f].loc in m' && m'[s'.files[f].loc] == s'.files[f].layout
    {
    }
  }

  lemma {:induction false} MirrorsRemove(d: Disk, s: State, m: map<Loc, Layout>, l: Loc, deleted: bool)
    requires Sound(d) && Coherent(d, s) && Mirrors(d, s, m) && Plain(l)
    ensures Mirrors(d, Next(d, s, Removed(l, deleted)), Told(m, Removed(l, deleted)))
  {
    MirrorsLookup(d, s, m, l);
    if l in m && deleted {
      MirrorsDrop(d, s, m, l, FileIn(d, l, m[l].extent.dir), s.cache - {LayoutKey(l)});
    }
  }

  lemma {:induction false} MirrorsDrop(d: Disk, s: State, m: map<Loc, Layout>, l: Loc, p: File, cache: map<string, Record>)
    requires Sound(d) && Coherent(d, s) && Mirrors(d, s, m) && l in m && p == FileIn(d, l, m[l].extent.dir)
    ensures Mirrors(d, State(s.files - {p}, cache), m - {l})
  {
    var m' := m - {l};
    forall k | k in m'
      ensures FileIn(d, k, m'[k].extent.dir) in s.files - {p}
    {
      if d.idOf(LayoutKey(k)) == d.idOf(LayoutKey(l)) {
        SameLoc(d, k, l);
      }
    }
    forall f | f in s.files - {p}
      ensures s.files[f].loc != l
    {
      assert f == FileOf(d, s.files[f]);
    }
  }

  lemma {:induction false} HistoryMirrors(d: Disk, ops: seq<Op>)
    requires Sound(d) && PlainOps(ops) && OneFolder(d, ops)
    ensures Mirrors(d, After(d, ops), Model(ops))
  {
    if ops != [] {
      var n := |ops| - 1;
      HistoryMirrors(d, ops[..n]);
      AlwaysCoherent(d, ops[..n]);
      MirrorsStep(d, After(d, ops[..n]), Model(ops[..n]), ops[n]);
    }
  }

  /** After every such history a lookup gives what a plain map would, and so it does after a restart. */
  lemma {:induction false} CacheAgreesWithDisk(d: Disk, ops: seq<Op>, l: Loc)
    requires Sound(d) && PlainOps(ops) && OneFolder(d, ops) && Plain(l)
    ensures Lookup(d, After(d, ops), l) == if l in Model(ops) then Some(Record(l, Model(ops)[l])) else None
    ensures Lookup(d, Next(d, After(d, ops), Restarted), l) == Lookup(d, After(d, ops), l)
  {
    HistoryMirrors(d, ops);
    AlwaysCoherent(d, ops);
    var s, m := After(d, ops), Model(ops);
    CoherentStep(d, s, Restarted);
    MirrorsStep(d, s, m, Restarted);
    MirrorsLookup(d, s, m, l);
    MirrorsLookup(d, Next(d, s, Restarted), m, l);
  }

  /** Linked at home and then elsewhere, a location shows its first layout again after a restart,
      and again after its removal. */
  lemma {:induction false} OlderLayoutReturns(d: Disk, l: Loc, first: Layout, second: Layout)
    requires Sound(d) && Plain(l) && first.extent.dir == ShardDir(l.key) && d.folder(second.extent.dir) != d.folder(first.extent.dir)
    ensures var s := Next(d, Next(d, Empty, Linked(l, first)), Linked(l, second));
      && Lookup(d, s, l) == Some(Record(l, second))
      && Lookup(d, Next(d, s, Restarted), l) == Some(Record(l, first))
      && Lookup(d, Next(d, s, Removed(l, true)), l) == Some(Record(l, first))
  {
  }

  // --- the engine ---

  class LayoutIndex {
    const disk: Disk
    var files: map<File, Record>
    var cache: map<string, Record>

    ghost function Now(): State
      reads this
    {
      State(files, cache)
    }

    constructor (disk: Disk)
      ensures this.disk == disk && Now() == Empty
    {
      this.disk, files, cache := disk, map[], map[];
    }

    /** scanObjectLayout: the first layout file of the location on a walk. */
    method Scan(l: Loc) returns (found: Option<Record>)
      ensures found == FirstHit(files, disk.walk(files.Keys), l)
    {
      var order := disk.walk(files.Keys);
      found := None;
      for i := 0 to |order|
        invariant found.Some? ==> found == FirstHit(files, order, l)
        invariant found.None? ==> FirstHit(files, order, l) == FirstHit(files, order[i..], l)
      {
        assert order[i..][0] == order[i] && order[i..][1..] == order[i + 1..];
        if found.None? && order[i] in files && files[order[i]].loc == l {
          found := Some(files[order[i]]);
        }
      }
    }

    method GetLayout(l: Loc) returns (found: Option<Record>)
      modifies this`cache
      ensures found == Lookup(disk, old(Now()), l)
      ensures Now() == Next(disk, old(Now()), Sought(l))
    {
      var k := LayoutKey(l);
      if k in cache {
        assert cache == cache[k := cache[k]];
        return Some(cache[k]);
      }
      var home := File(disk.folder(ShardDir(l.key)), disk.idOf(k));
      if home in files {
        found := Some(files[home]);
      } else {
        found := Scan(l);
      }
      if found.Some? {
        cache := cache[k := found.value];
      }
    }

    /** LinkObject, and persistLayout after a rebalance: a file first, then the cache. */
    method LinkObject(rawBucket: string, rawKey: string, x: Layout, written: bool) returns (ok: bool)
      modifies this
      ensures ok <==> !Blank(rawBucket) && !Blank(rawKey) && Linkable(x.hash, x.extent) && written
      ensures Now() == if ok then Next(disk, old(Now()), Linked(Loc(Trim(rawBucket), Trim(rawKey)), Tidied(x))) else old(Now())
    {
      BlankIff(rawBucket);
      BlankIff(rawKey);
      BlankIff(x.hash);
      BlankIff(x.extent.dir);
      var l, y := Loc(Trim(rawBucket), Trim(rawKey)), Tidied(x);
      if l.bucket == "" || l.key == "" || y.hash == "" || y.extent.dir == "" || !written {
        return false;
      }
      files := files[FileIn(disk, l, y.extent.dir) := Record(l, y)];
      cache := cache[LayoutKey(l) := Record(l, y)];
      return true;
    }

    method DeleteObjectLayout(l: Loc, deleted: bool) returns (ok: bool)
      modifies this
      ensures ok <==> Lookup(disk, old(Now()), l).Some? && deleted
      ensures Now() == Next(disk, old(Now()), Removed(l, deleted))
    {
      var found := GetLayout(l);
      if found.None? {
        return false;
      }
      cache := cache - {LayoutKey(l)};
      if deleted {
        files := files - {FileIn(disk, l, found.value.layout.extent.dir)};
      }
      return deleted;
    }
  }

  function Tidied(x: Layout): Layout {
    x.(hash := Trim(x.hash), extent := x.extent.(dir := Trim(x.extent.dir)))
  }
}
