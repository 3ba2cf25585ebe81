/** What Recover and then Dedupe make of a store that stopped anywhere. */
module Healing {
  import opened Names
  import opened Metadata
  import opened Protocol
  import opened Conservation
  import opened Recovery
  import opened Reconcile
  import opened Crash

  /** Different contents have different hashes, and no hash is blank. (Checksum lists may well be
      equal: shards are filled up with zeros, see Erasure.SameShardsIff.) */
  ghost predicate CollisionFree(env: Env) {
    && (forall a :: !Blank(env.digest(a)))
    && (forall a, b :: env.digest(a) == env.digest(b) ==> a == b)
  }

  /** Every claim is a reference some request still holds, so the store is covered. */
  lemma {:induction false} SaneCovered(env: Env, s: System)
    requires Sane(env, s)
    ensures Covered(s.world.meta) && StagedNamesOk(s.world.meta.staged)
  {
    var m := s.world.meta;
    forall h
      ensures Count(m.refs, h) >= |Users(m.objects, h)| + |Claims(m, h)|
    {
      ClaimsOwed(env, s, h);
      SubsetCard(Claims(m, h), Owing(s.tasks, h));
      assert Count(m.refs, h) == |Users(m.objects, h)| + |Owing(s.tasks, h)|;
    }
    forall l | l in m.staged
      ensures !InvalidLoc(l) && !Blank(m.staged[l].hash)
    {
      assert EntryOk(m.buckets, l, m.staged[l], Pending);
    }
  }

  lemma {:induction false} ClaimsOwed(env: Env, s: System, h: string)
    requires Sane(env, s)
    ensures Claims(s.world.meta, h) <= Owing(s.tasks, h)
  {
    forall l | l in Claims(s.world.meta, h)
      ensures l in Owing(s.tasks, h)
    {
      assert l in s.tasks.Keys;
      assert Fits(s.world, l, s.tasks[l]);
    }
  }

  // --- layouts through Recover ---

  /** The entry is due and its rollback relinks the committed object. */
  predicate Relinked(m: Meta, order: seq<Loc>, cutoff: nat, l: Loc) {
    l in order && IsDue(m, l, cutoff) && Relinks(m, l)
  }

  lemma {:induction false} RelinkSound(env: Env, w: World, l: Loc, now: nat)
    requires l in w.meta.staged && SoundRefs(env, w.meta.refs) && SoundLayouts(env, w.layouts)
    ensures SoundLayouts(env, RelinkedLayouts(w, l, now))
  {
    if l in w.meta.objects && w.meta.objects[l].hash in w.meta.refs {
      var o := w.meta.objects[l];
      LayoutsPut(env, w.layouts, l, PreviousLayout(Existing(o, Some(w.meta.refs[o.hash])), now));
    }
  }

  /** The layout of a committed object is linked again or stays as it is. */
  predicate Kept(m: Meta, y: map<Loc, Layout>, y': map<Loc, Layout>, l: Loc, again: bool)
    requires l in m.objects
  {
    if again then l in y' && y'[l].hash == m.objects[l].hash
    else (l in y' <==> l in y) && (l in y ==> y'[l] == y[l])
  }

  lemma {:induction false} RelinkKeys(w: World, l: Loc, now: nat, k: Loc)
    requires l in w.meta.staged && k in w.meta.objects && w.meta.objects[k].hash in w.meta.refs
    ensures Kept(w.meta, w.layouts, RelinkedLayouts(w, l, now), k, k == l && Relinks(w.meta, l))
  {
  }

  lemma {:induction false} ReleasedSound(env: Env, m: Meta, l: Loc)
    requires l in m.staged && SoundRefs(env, m.refs) && RefsOk(m.refs)
    ensures SoundRefs(env, ReleasedMeta(m, l).refs)
  {
    ReleasedMetaShrinks(m, l);
  }

  /** After recovery an object has the layout it had, or none if it had none, unless its due entry
      made recovery link its content again. */
  lemma {:induction false} RecoverPendingLayouts(env: Env, w: World, order: seq<Loc>, cutoff: nat, now: nat, l: Loc)
    requires Covered(w.meta) && StagedNamesOk(w.meta.staged) && Distinct(order)
    requires SoundRefs(env, w.meta.refs) && SoundLayouts(env, w.layouts)
    requires RecoverPending(w, order, cutoff, now).Some?
    ensures var w' := RecoverPending(w, order, cutoff, now).value;
      && SoundRefs(env, w'.meta.refs) && SoundLayouts(env, w'.layouts)
      && (l in w.meta.objects ==> Kept(w.meta, w.layouts, w'.layouts, l, Relinked(w.meta, order, cutoff, l)))
    decreases |order|
  {
    if order != [] {
      RecoverPendingUnfold(w, order, cutoff, now);
      var e := order[0];
      if IsDue(w.meta, e, cutoff) {
        var w1 := RecoverOne(w, e, now).value;
        RecoverOneFacts(w, e, now);
        RecoverOneCovered(w, e, now);
        ReleasedSound(env, w.meta, e);
        RelinkSound(env, w, e, now);
        RecoverPendingLayouts(env, w1, order[1..], cutoff, now, l);
        ReleasedMetaShrinks(w.meta, e);
        if l in w.meta.objects {
          CoveredRefs(w.meta);
          RelinkKeys(w, e, now, l);
          RelinkedStep(w.meta, order, cutoff, l);
        }
      } else {
        RecoverPendingLayouts(env, w, order[1..], cutoff, now, l);
        RelinkedStep(w.meta, order, cutoff, l);
      }
    }
  }

  lemma {:induction false} RelinkedStep(m: Meta, order: seq<Loc>, cutoff: nat, l: Loc)
    requires order != [] && Distinct(order) && RefsOk(m.refs)
    ensures !IsDue(m, order[0], cutoff) ==> Relinked(m, order, cutoff, l) == Relinked(m, order[1..], cutoff, l)
    ensures IsDue(m, order[0], cutoff) ==>
      (Relinked(m, order, cutoff, l) <==>
        Relinked(ReleasedMeta(m, order[0]), order[1..], cutoff, l) || (l == order[0] && Relinks(m, l)))
  {
    assert forall k :: k in order <==> k == order[0] || k in order[1..];
    if IsDue(m, order[0], cutoff) {
      ReleasedMetaShrinks(m, order[0]);
    }
  }

  /** The stop loses the layout of an overwritten object when it falls between the two halves of
      a rollback and no entry says that a layout was linked. */
  predicate Lost(s: System, l: Loc) {
    && l in s.world.meta.objects && l in s.tasks && Unlinked(s.tasks[l].pc)
    && !(l in s.world.meta.staged && Relinks(s.world.meta, l))
  }

  /** The object's layout passes Dedupe's comparison and names another content all the same. */
  predicate Misnamed(w: World, l: Loc)
    requires l in w.meta.objects
  {
    Agrees(w, l) && w.layouts[l].hash != w.meta.objects[l].hash
  }

  /** The stop leaves an object such a layout, and no entry that says that a layout was linked. */
  predicate Misled(w: World, l: Loc) {
    l in w.meta.objects && Misnamed(w, l) && !(l in w.meta.staged && Relinks(w.meta, l))
  }

  /** All staged entries are listed and expired. */
  predicate AllDue(m: Meta, order: seq<Loc>, cutoff: nat) {
    Distinct(order) && forall l <- m.staged :: l in order && Expired(m.staged[l], cutoff)
  }

  /** Staging is empty, every committed object is there, counts cover the users, every layout that
      was not lost is there, and exactly the misled ones are misnamed. */
  ghost predicate Recovered(env: Env, s: System, w: World) {
    && w.meta.staged == map[] && w.meta.objects == s.world.meta.objects && Covered(w.meta) && Ready(w)
    && SoundRefs(env, w.meta.refs) && SoundLayouts(env, w.layouts)
    && forall l <- w.meta.objects :: (l in w.layouts <==> !Lost(s, l)) && (Misnamed(w, l) <==> Misled(s.world, l))
  }

  /** Recover alone: it succeeds, empties the staging area, keeps every committed object, leaves
      at least as many counts as users, restores every layout that was not lost, and leaves exactly
      the misled layouts misnamed. (Only a shard set with a blank name can make the sweep fail.) */
  lemma {:induction false} RecoverAfterStop(env: Env, s: System, order: seq<Loc>, cutoff: nat, now: nat)
    requires Sane(env, s) && AllDue(s.world.meta, order, cutoff)
    ensures RecoverPending(s.world, order, cutoff, now).Some?
    ensures TrimmedDirs(s.world) ==> Recover(s.world, order, cutoff, now).Some?
    ensures Recover(s.world, order, cutoff, now).Some? ==> Recovered(env, s, Recover(s.world, order, cutoff, now).value)
  {
    RolledBack(env, s, order, cutoff, now);
    var w := RecoverPending(s.world, order, cutoff, now).value;
    if TrimmedDirs(s.world) {
      SaneCovered(env, s);
      RecoverSweeps(s.world, order, cutoff, now);
    }
    if Recover(s.world, order, cutoff, now).Some? {
      SetsDoNotMatter(env, s, w, Recover(s.world, order, cutoff, now).value);
    }
  }

  lemma {:induction false} SetsDoNotMatter(env: Env, s: System, w: World, w': World)
    requires Recovered(env, s, w) && w'.meta == w.meta && w'.layouts == w.layouts
    ensures Recovered(env, s, w')
  {
    forall l | l in w'.meta.objects
      ensures (l in w'.layouts <==> !Lost(s, l)) && (Misnamed(w', l) <==> Misled(s.world, l))
    {
      assert Misnamed(w', l) <==> Misnamed(w, l);
    }
  }

  lemma {:induction false} RolledBack(env: Env, s: System, order: seq<Loc>, cutoff: nat, now: nat)
    requires Sane(env, s) && AllDue(s.world.meta, order, cutoff)
    ensures RecoverPending(s.world, order, cutoff, now).Some?
    ensures Recovered(env, s, RecoverPending(s.world, order, cutoff, now).value)
  {
    SaneCovered(env, s);
    RecoverPendingCovered(s.world, order, cutoff, now);
    RecoverPendingMeta(s.world, order, cutoff, now);
    var w := RecoverPending(s.world, order, cutoff, now).value;
    assert w.meta.staged == map[];
    RecoverPendingLayouts(env, s.world, order, cutoff, now, Loc("", ""));
    forall l | l in w.meta.objects
      ensures (l in w.layouts <==> !Lost(s, l)) && (Misnamed(w, l) <==> Misled(s.world, l))
    {
      RecoverPendingLayouts(env, s.world, order, cutoff, now, l);
      LayoutAfter(env, s, order, cutoff, w, l);
    }
    RecoveredReady(env, s.world.meta, w);
  }

  lemma {:induction false} LostIff(env: Env, s: System, order: seq<Loc>, cutoff: nat, l: Loc)
    requires Sane(env, s) && AllDue(s.world.meta, order, cutoff) && l in s.world.meta.objects
    ensures Lost(s, l) <==> !(l in s.world.layouts || Relinked(s.world.meta, order, cutoff, l))
  {
    if l in s.tasks {
      assert Fits(s.world, l, s.tasks[l]);
    }
  }

  lemma {:induction false} LayoutAfter(env: Env, s: System, order: seq<Loc>, cutoff: nat, w: World, l: Loc)
    requires Sane(env, s) && AllDue(s.world.meta, order, cutoff) && l in s.world.meta.objects
    requires w.meta.objects == s.world.meta.objects && Covered(w.meta) && Shrinks(s.world.meta.refs, w.meta.refs)
    requires Kept(s.world.meta, s.world.layouts, w.layouts, l, Relinked(s.world.meta, order, cutoff, l))
    ensures (l in w.layouts <==> !Lost(s, l)) && (Misnamed(w, l) <==> Misled(s.world, l))
  {
    LostIff(env, s, order, cutoff, l);
    CoveredRefs(w.meta);
  }

  lemma {:induction false} RecoveredReady(env: Env, m: Meta, w: World)
    requires Valid(m) && w.meta.buckets == m.buckets && w.meta.objects == m.objects && w.meta.staged == map[]
    requires RefsOk(w.meta.refs) && SoundRefs(env, w.meta.refs) && SoundLayouts(env, w.layouts)
    ensures Ready(w)
  {
  }

  // --- layouts through Dedupe ---

  predicate Referenced(m: Meta) {
    forall l <- m.objects :: m.objects[l].hash in m.refs
  }

  lemma {:induction false} FixSound(env: Env, w: World, f: Fix)
    requires Ready(w) && FixEnabled(w, f) && Referenced(w.meta)
    requires SoundRefs(env, w.meta.refs) && SoundLayouts(env, w.layouts)
    ensures var w' := ApplyFix(w, f);
      Referenced(w'.meta) && SoundRefs(env, w'.meta.refs) && SoundLayouts(env, w'.layouts)
  {
    var w' := ApplyFix(w, f);
    FixKeepsReferenced(w, f);
    if f.Relink? {
      RelinkEffect(w, f);
      var o := w.meta.objects[f.loc];
      LayoutsPut(env, w.layouts, f.loc, CanonicalLayout(o, w.meta.refs[o.hash], f.now));
    } else {
      RefFixEffect(w, f);
      assert !f.CreateRef?;
    }
  }

  lemma {:induction false} FixKeepsReferenced(w: World, f: Fix)
    requires Ready(w) && FixEnabled(w, f) && Referenced(w.meta)
    ensures Referenced(ApplyFix(w, f).meta)
  {
    FixTracks(w, f);
    FixKeepsContents(w, f);
    var m' := ApplyFix(w, f).meta;
    forall l | l in m'.objects
      ensures m'.objects[l].hash in m'.refs
    {
      assert l in Users(w.meta.objects, w.meta.objects[l].hash);
    }
  }

  lemma {:induction false} FixesSound(env: Env, w: World, fs: seq<Fix>)
    requires Ready(w) && FixesEnabled(w, fs) && Referenced(w.meta)
    requires SoundRefs(env, w.meta.refs) && SoundLayouts(env, w.layouts)
    ensures SoundRefs(env, ApplyFixes(w, fs).meta.refs) && SoundLayouts(env, ApplyFixes(w, fs).layouts)
    decreases |fs|
  {
    if fs != [] {
      FixSound(env, w, fs[0]);
      FixKeepsReady(w, fs[0]);
      FixesSound(env, ApplyFix(w, fs[0]), fs[1..]);
    }
  }

  /** The object's layout names its content and lies where its reference says. */
  predicate Linked(w: World, l: Loc)
    requires l in w.meta.objects
  {
    && l in w.layouts && w.meta.objects[l].hash in w.meta.refs
    && w.layouts[l].hash == w.meta.objects[l].hash
    && w.layouts[l].extent == w.meta.refs[w.meta.objects[l].hash].extent
  }

  /** Dedupe compares neither hash nor size. What it takes for right is right exactly when the hash
      is; the size then follows. */
  lemma {:induction false} AgreesLinked(env: Env, w: World, l: Loc)
    requires CollisionFree(env) && SoundRefs(env, w.meta.refs) && SoundLayouts(env, w.layouts)
    requires l in w.meta.objects
    ensures Linked(w, l) <==> Agrees(w, l) && !Misnamed(w, l)
  {
    if Agrees(w, l) && !Misnamed(w, l) {
      var h := w.meta.objects[l].hash;
      var y, r := w.layouts[l], w.meta.refs[h];
      assert Sound(env, y.hash, y.extent) && Sound(env, h, r.extent);
      var a :| env.digest(a) == y.hash && Describes(env, y.extent, a);
      var b :| env.digest(b) == h && Describes(env, r.extent, b);
      assert a == b;
    }
  }

  /** No fix finds a misnamed layout, and none makes one. */
  lemma {:induction false} FixKeepsMisnamed(w: World, f: Fix, l: Loc)
    requires Ready(w) && FixEnabled(w, f) && Referenced(w.meta) && l in w.meta.objects
    ensures l in ApplyFix(w, f).meta.objects && (Misnamed(ApplyFix(w, f), l) <==> Misnamed(w, l))
  {
    if f.Relink? {
      RelinkKeepsMisnamed(w, f, l);
    } else {
      FixKeepsReferenced(w, f);
      RefFixEffect(w, f);
      SameExtentSameName(w, ApplyFix(w, f), l);
    }
  }

  lemma {:induction false} RelinkKeepsMisnamed(w: World, f: Fix, l: Loc)
    requires Ready(w) && FixEnabled(w, f) && f.Relink? && l in w.meta.objects
    ensures l in ApplyFix(w, f).meta.objects && (Misnamed(ApplyFix(w, f), l) <==> Misnamed(w, l))
  {
    RelinkEffect(w, f);
    var w' := ApplyFix(w, f);
    if l == f.loc {
      assert w'.layouts[l].hash == w'.meta.objects[l].hash;
    } else {
      SameLinkSameName(w, w', l);
    }
  }

  lemma {:induction false} SameLinkSameName(w: World, w': World, l: Loc)
    requires l in w.meta.objects && l in w'.meta.objects && w'.meta.objects[l] == w.meta.objects[l]
    requires l in w'.layouts <==> l in w.layouts
    requires l in w.layouts ==> w'.layouts[l] == w.layouts[l]
    requires w'.meta.refs == w.meta.refs
    ensures Misnamed(w', l) <==> Misnamed(w, l)
  {
  }

  lemma {:induction false} SameExtentSameName(w: World, w': World, l: Loc)
    requires l in w.meta.objects && w'.meta.objects == w.meta.objects && w'.layouts == w.layouts
    requires var h := w.meta.objects[l].hash; h in w.meta.refs && h in w'.meta.refs && w'.meta.refs[h].extent == w.meta.refs[h].extent
    ensures Misnamed(w', l) <==> Misnamed(w, l)
  {
  }

  lemma {:induction false} FixesKeepMisnamed(w: World, fs: seq<Fix>, l: Loc)
    requires Ready(w) && FixesEnabled(w, fs) && Referenced(w.meta) && l in w.meta.objects
    ensures l in ApplyFixes(w, fs).meta.objects && (Misnamed(ApplyFixes(w, fs), l) <==> Misnamed(w, l))
    decreases |fs|
  {
    if fs != [] {
      FixKeepsMisnamed(w, fs[0], l);
      FixKeepsReferenced(w, fs[0]);
      FixKeepsReady(w, fs[0]);
      FixesKeepMisnamed(ApplyFix(w, fs[0]), fs[1..], l);
    }
  }

  /** Every run of fixes can be continued to one that leaves nothing to fix. */
  lemma {:induction false} CompleteRunExists(w: World) returns (fs: seq<Fix>)
    requires Ready(w)
    ensures FixesEnabled(w, fs) && Terminal(ApplyFixes(w, fs))
    decreases Measure(w)
  {
    if Terminal(w) {
      fs := [];
    } else {
      var f :| FixEnabled(w, f);
      FixImproves(w, f);
      FixKeepsReady(w, f);
      var rest := CompleteRunExists(ApplyFix(w, f));
      fs := [f] + rest;
      assert fs[1..] == rest;
    }
  }

  /** Requests on any number of distinct keys, stopped anywhere; then Recover with every entry
      expired; then any complete Dedupe. Nothing is staged, counts equal users, the committed objects
      are those of the moment of the stop, and the layout of each is the right one exactly when the
      stop neither lost nor misled it. So the store is at rest again exactly when no layout was. */
  lemma {:induction false} StopRecoverDedupe(env: Env, w0: World, actions: seq<Action>, s: System,
      order: seq<Loc>, cutoff: nat, now: nat, fs: seq<Fix>)
    requires CollisionFree(env) && AtRest(env, w0) && TidyRun(env, System(w0, map[]), actions, s)
    requires AllDue(s.world.meta, order, cutoff)
    ensures TrimmedDirs(s.world) ==> Recover(s.world, order, cutoff, now).Some?
    ensures Recover(s.world, order, cutoff, now).Some? ==> var w1 := Recover(s.world, order, cutoff, now).value;
      && Covered(w1.meta) && Ready(w1)
      && (FixesEnabled(w1, fs) && Terminal(ApplyFixes(w1, fs)) ==>
            var w2 := ApplyFixes(w1, fs);
            && Healed(env, s, w2)
            && (AtRest(env, w2) <==> forall l <- s.world.meta.objects :: !Lost(s, l) && !Misled(s.world, l)))
  {
    AtRestSane(env, w0);
    RunSane(env, System(w0, map[]), actions, s);
    RecoverAfterStop(env, s, order, cutoff, now);
    if Recover(s.world, order, cutoff, now).Some? {
      var w1 := Recover(s.world, order, cutoff, now).value;
      if FixesEnabled(w1, fs) && Terminal(ApplyFixes(w1, fs)) {
        DedupeHeals(env, s, w1, fs);
      }
    }
  }

  ghost predicate Healed(env: Env, s: System, w: World) {
    && w.meta.staged == map[] && Valid(w.meta) && Balanced(w.meta)
    && SoundRefs(env, w.meta.refs) && SoundLayouts(env, w.layouts)
    && SameContents(s.world.meta.objects, w.meta.objects)
    && forall l <- w.meta.objects :: Linked(w, l) <==> !Lost(s, l) && !Misled(s.world, l)
  }

  lemma {:induction false} DedupeHeals(env: Env, s: System, w1: World, fs: seq<Fix>)
    requires CollisionFree(env) && Recovered(env, s, w1) && FixesEnabled(w1, fs) && Terminal(ApplyFixes(w1, fs))
    ensures Healed(env, s, ApplyFixes(w1, fs))
    ensures AtRest(env, ApplyFixes(w1, fs)) <==> forall l <- s.world.meta.objects :: !Lost(s, l) && !Misled(s.world, l)
  {
    var w2 := ApplyFixes(w1, fs);
    CoveredRefs(w1.meta);
    FixesSound(env, w1, fs);
    CompleteRun(w1, fs, w2);
    FixesProgress(w1, fs);
    forall l | l in w2.meta.objects
      ensures Linked(w2, l) <==> !Lost(s, l) && !Misled(s.world, l)
      ensures Agrees(w2, l) <==> !Lost(s, l)
    {
      AgreesLinked(env, w2, l);
      FixesKeepMisnamed(w1, fs, l);
    }
  }
}
