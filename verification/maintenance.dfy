/** Recover as it runs: two passes over what the store lists. */
module Maintenance {
  import opened Names
  import opened Metadata
  import opened Order
  import opened StateMachine
  import opened Protocol
  import opened Recovery
  import opened ObjectStore

  const Fine := Input(Success, 0, [])

  /** A command whose proposal does not fail. */
  method Issue(s: Store, c: Command) returns (r: Reply)
    requires !s.meta.closed
    modifies s.meta
    ensures !s.meta.closed && (s.meta.State(), r) == Apply(old(s.meta.State()), c)
  {
    var ok;
    ok, r := s.Propose(c, Fine);
  }

  /** restoreCommittedLayout, or deletion of the layout when nothing is committed. */
  method RollbackEntryLayout(s: Store, l: Loc, now: nat) returns (ok: bool)
    modifies s.engine
    ensures ok ==> RollbackLayout(old(s.Now()), l, now) == Some(s.Now())
    ensures !ok ==> RollbackLayout(old(s.Now()), l, now) == None && s.Now() == old(s.Now())
  {
    if l !in s.meta.objects {
      s.engine.DeleteObjectLayout(l, Fine);
      return true;
    }
    var o := s.meta.objects[l];
    if o.hash !in s.meta.refs {
      return false;
    }
    ok := s.engine.LinkObject(l, o.hash, o.etag, s.meta.refs[o.hash].extent, o.contentType, o.updatedAt, Input(Success, now, []));
  }

  /** releaseBlob. */
  method ReleaseEntryBlob(s: Store, hash: string)
    requires !s.meta.closed
    modifies s.meta, s.engine
    ensures !s.meta.closed && s.Now() == ReleaseBlob(old(s.Now()), hash)
  {
    var r := Issue(s, DecreaseBlobRef(hash));
    if r.removedPath.Some? {
      s.engine.DeleteBlob(r.removedPath.value, hash, Fine);
    }
  }

  /** deleteExpiredPendingObject: roll back by stage, then forget the entry. */
  method RecoverEntry(s: Store, l: Loc, now: nat) returns (ok: bool)
    requires !s.meta.closed && l in s.meta.staged
    modifies s.meta, s.engine
    ensures !s.meta.closed
    ensures if ok then RecoverOne(old(s.Now()), l, now) == Some(s.Now()) else RecoverOne(old(s.Now()), l, now) == None
  {
    var o := s.meta.staged[l];
    if o.stage == LayoutLinked || o.stage == BlobRetained {
      ok := RollbackEntryLayout(s, l, now);
      if !ok {
        return;
      }
      if o.stage == BlobRetained && (l !in s.meta.objects || s.meta.objects[l].hash != o.hash) {
        ReleaseEntryBlob(s, o.hash);
      }
    }
    var r := Issue(s, DeleteStaged(l));
    ok := true;
  }

  /** cleanupPendingObjects over the sorted listing of staged entries. */
  method RecoverEntries(s: Store, order: seq<Loc>, cutoff: nat, now: nat) returns (ok: bool)
    requires !s.meta.closed
    modifies s.meta, s.engine
    ensures !s.meta.closed
    ensures if ok then RecoverPending(old(s.Now()), order, cutoff, now) == Some(s.Now())
      else RecoverPending(old(s.Now()), order, cutoff, now) == None
  {
    ghost var w0 := s.Now();
    for j := 0 to |order|
      invariant !s.meta.closed
      invariant RecoverPending(w0, order, cutoff, now) == RecoverPending(s.Now(), order[j..], cutoff, now)
    {
      assert order[j..][0] == order[j] && order[j..][1..] == order[j + 1..];
      if order[j] in s.meta.staged && Expired(s.meta.staged[order[j]], cutoff) {
        ok := RecoverEntry(s, order[j], now);
        if !ok {
          return;
        }
      }
    }
    assert order[|order|..] == [];
    ok := true;
  }

  /** liveShardSetMap: sets named by references and by staged entries. */
  method LiveSets(m: Meta) returns (live: set<SetKey>)
    ensures live == Live(m)
  {
    var refs := ReferencedSets(m);
    var entries := StagedSets(m);
    LiveIs(m);
    live := refs + entries;
  }

  method ReferencedSets(m: Meta) returns (live: set<SetKey>)
    ensures live == RefNames(m, m.refs.Keys)
  {
    live := {};
    var rest := m.refs.Keys;
    ghost var done: set<string> := {};
    while rest != {}
      invariant done + rest == m.refs.Keys && live == RefNames(m, done)
      decreases |rest|
    {
      var h :| h in rest;
      RefNamesAdd(m, done, h);
      if !Blank(h) && !Blank(m.refs[h].extent.dir) {
        live := live + {SetKey(Trim(m.refs[h].extent.dir), h)};
      }
      rest, done := rest - {h}, done + {h};
    }
  }

  method StagedSets(m: Meta) returns (live: set<SetKey>)
    ensures live == EntrySets(m, m.staged.Keys)
  {
    live := {};
    var rest := m.staged.Keys;
    ghost var done: set<Loc> := {};
    while rest != {}
      invariant done + rest == m.staged.Keys && live == EntrySets(m, done)
      decreases |rest|
    {
      var l :| l in rest;
      EntrySetsAdd(m, done, l);
      if !Blank(l.key) && !Blank(m.staged[l].hash) {
        live := live + {SetKey(Trim(ShardDir(l.key)), m.staged[l].hash)};
      }
      rest, done := rest - {l}, done + {l};
    }
  }

  function RefNames(m: Meta, hs: set<string>): set<SetKey> {
    set h | h in hs && h in m.refs && !Blank(h) && !Blank(m.refs[h].extent.dir) :: SetKey(Trim(m.refs[h].extent.dir), h)
  }

  function EntrySets(m: Meta, ls: set<Loc>): set<SetKey> {
    set l | l in ls && l in m.staged && !Blank(l.key) && !Blank(m.staged[l].hash) :: SetKey(Trim(ShardDir(l.key)), m.staged[l].hash)
  }

  lemma RefNamesAdd(m: Meta, hs: set<string>, h: string)
    requires h in m.refs
    ensures RefNames(m, hs + {h}) == RefNames(m, hs) + (if !Blank(h) && !Blank(m.refs[h].extent.dir) then {SetKey(Trim(m.refs[h].extent.dir), h)} else {})
  {
  }

  lemma EntrySetsAdd(m: Meta, ls: set<Loc>, l: Loc)
    requires l in m.staged
    ensures EntrySets(m, ls + {l}) == EntrySets(m, ls) + (if !Blank(l.key) && !Blank(m.staged[l].hash) then {SetKey(Trim(ShardDir(l.key)), m.staged[l].hash)} else {})
  {
  }

  lemma LiveIs(m: Meta)
    ensures Live(m) == RefNames(m, m.refs.Keys) + EntrySets(m, m.staged.Keys)
  {
  }

  /** The orphans seen so far delete this set. */
  ghost predicate SweptBy(w: World, seen: set<SetKey>, k: SetKey) {
    exists u <- seen :: Orphan(w, u) && k == SetAt(Trim(u.dir), u.hash)
  }

  ghost function Left(w: World, seen: set<SetKey>): map<SetKey, ShardSet> {
    map k | k in w.shards && !SweptBy(w, seen, k) :: w.shards[k]
  }

  /** localShardSets: the sets in folders right below the root. */
  method ListSets(e: Engine) returns (listed: set<SetKey>)
    ensures listed == set k | k in e.shards && Listable(k.dir)
  {
    listed := set k | k in e.shards && Listable(k.dir);
  }

  /** CleanupOrphanShardSets: every listed set whose name is not live is deleted; one that cannot be
      deleted ends the sweep. */
  method SweepOrphans(s: Store) returns (ok: bool)
    modifies s.engine
    ensures if ok then CleanupOrphans(old(s.Now())) == Some(s.Now()) else CleanupOrphans(old(s.Now())) == None
  {
    ghost var w := s.Now();
    var live := LiveSets(Meta(s.meta.buckets, s.meta.objects, s.meta.staged, s.meta.refs));
    var rest := ListSets(s.engine);
    ghost var seen := {};
    LeftNone(w);
    while rest != {}
      invariant forall k :: k in rest + seen <==> k in w.shards && Listable(k.dir)
      invariant s.engine.layouts == w.layouts && s.engine.shards == Left(w, seen)
      invariant forall u <- seen :: !(Orphan(w, u) && (Blank(u.dir) || Blank(u.hash)))
      decreases |rest|
    {
      var u :| u in rest;
      assert Orphan(w, u) <==> u !in live;
      if u !in live {
        if Blank(u.dir) || Blank(u.hash) {
          return false;
        }
        s.engine.DeleteBlob(u.dir, u.hash, Fine);
      }
      LeftStep(w, seen, u);
      rest, seen := rest - {u}, seen + {u};
    }
    LeftAll(w, seen);
    ok := true;
  }

  lemma {:induction false} LeftNone(w: World)
    ensures Left(w, {}) == w.shards
  {
  }

  lemma {:induction false} LeftAll(w: World, seen: set<SetKey>)
    requires forall k :: k in seen <==> k in w.shards && Listable(k.dir)
    requires forall u <- seen :: !(Orphan(w, u) && (Blank(u.dir) || Blank(u.hash)))
    ensures CleanupOrphans(w) == Some(w.(shards := Left(w, seen)))
  {
    forall k
      ensures SweptBy(w, seen, k) <==> Swept(w, k)
    {
      if SweptBy(w, seen, k) {
        var u :| u in seen && Orphan(w, u) && k == SetAt(Trim(u.dir), u.hash);
        assert u in w.shards;
      }
      if Swept(w, k) {
        var u :| u in w.shards && Orphan(w, u) && k == SetAt(Trim(u.dir), u.hash);
        assert u in seen;
      }
    }
    forall u | u in w.shards && Orphan(w, u)
      ensures !Blank(u.dir) && !Blank(u.hash)
    {
      assert u in seen;
    }
    assert !SweepFails(w);
    assert CleanupOrphans(w).value.shards == Left(w, seen);
  }

  lemma {:induction false} LeftStep(w: World, seen: set<SetKey>, u: SetKey)
    ensures Left(w, seen + {u}) == if Orphan(w, u) then Left(w, seen) - {SetAt(Trim(u.dir), u.hash)} else Left(w, seen)
  {
    forall k
      ensures SweptBy(w, seen + {u}, k) <==> SweptBy(w, seen, k) || (Orphan(w, u) && k == SetAt(Trim(u.dir), u.hash))
    {
      SweepOne(w, seen, u, k);
    }
  }

  lemma {:induction false} SweepOne(w: World, seen: set<SetKey>, u: SetKey, k: SetKey)
    ensures SweptBy(w, seen + {u}, k) <==> SweptBy(w, seen, k) || (Orphan(w, u) && k == SetAt(Trim(u.dir), u.hash))
  {
    if SweptBy(w, seen, k) {
      var v :| v in seen && Orphan(w, v) && k == SetAt(Trim(v.dir), v.hash);
      assert v in seen + {u};
    }
    if Orphan(w, u) && k == SetAt(Trim(u.dir), u.hash) {
      assert u in seen + {u};
    }
  }

  /** Recover: expired entries in listing order, then orphans; an error stops it after the entries
      it got through. The order covers every staged entry exactly once. */
  method RecoverStore(s: Store, cutoff: nat, now: nat) returns (ok: bool, ghost order: seq<Loc>)
    requires !s.meta.closed && Valid(s.meta.State())
    modifies s.meta, s.engine
    ensures !s.meta.closed
    ensures Distinct(order) && forall l :: l in order <==> l in old(s.meta.staged)
    ensures if ok then Recover(old(s.Now()), order, cutoff, now) == Some(s.Now()) else Recover(old(s.Now()), order, cutoff, now) == None
  {
    ghost var w0 := s.Now();
    var error, entries := s.meta.ListStaged("", "");
    var locs := Locs(entries);
    order := locs;
    ListedOnce(s.meta.staged, entries);
    ok := RecoverEntries(s, locs, cutoff, now);
    if ok {
      ok := SweepOrphans(s);
    }
  }

  lemma {:induction false} ListedOnce(staged: map<Loc, ObjectMeta>, entries: seq<ObjectMeta>)
    requires IsListing(staged, "", "", true, entries) && OwnLocs(staged)
    ensures Distinct(Locs(entries)) && forall l :: l in Locs(entries) <==> l in staged
  {
    forall l
      ensures l in Locs(entries) <==> l in staged
    {
      ListedLocs(entries, l);
      assert l in staged ==> staged[l] in entries;
    }
    forall i, j | 0 <= i < j < |entries|
      ensures Locs(entries)[i] != Locs(entries)[j]
    {
      LocLessOrder(entries[i].loc, entries[i].loc, entries[i].loc);
    }
  }
}
