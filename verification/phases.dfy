/** Stretches of a put, for building runs out of them. */
module Phases {
  import opened Names
  import opened Metadata
  import opened Protocol
  import opened Conservation
  import opened Solo
  import opened Tracking

  function Fine(now: nat): Input {
    Input(Success, now, [])
  }

  const Fault := Input(Failure, 0, [])

  /** The task's steps lead from one world to the other; any of them may fail. */
  ghost predicate Goes(env: Env, w: World, t: Task, w': World, t': Task) {
    Track(env, w, t, false, w', t')
  }

  lemma {:induction false} GoesOn(env: Env, w0: World, t0: Task, w: World, t: Task, i: Input, w': World, t': Task)
    requires Goes(env, w0, t0, w, t) && Step(env, w, t, i) == (w', t')
    ensures Goes(env, w0, t0, w', t')
  {
    Tracked(env, w0, t0, false, w, t, i, w', t', false);
  }

  lemma {:induction false} GoesOne(env: Env, w: World, t: Task, i: Input, w': World, t': Task)
    requires Step(env, w, t, i) == (w', t')
    ensures Goes(env, w, t, w', t')
  {
    assert Ran(env, w, t, false, [], w, t);
    GoesOn(env, w, t, w, t, i, w', t');
  }

  lemma {:induction false} RanJoin(env: Env, w: World, t: Task, a: seq<Input>, w1: World, t1: Task, b: seq<Input>, w2: World, t2: Task)
    requires Ran(env, w, t, false, a, w1, t1) && Ran(env, w1, t1, false, b, w2, t2)
    ensures Ran(env, w, t, false, a + b, w2, t2)
    decreases |a|
  {
    if a == [] {
      assert a + b == b;
    } else {
      assert (a + b)[0] == a[0] && (a + b)[1..] == a[1..] + b;
      RanJoin(env, Step(env, w, t, a[0]).0, Step(env, w, t, a[0]).1, a[1..], w1, t1, b, w2, t2);
    }
  }

  lemma {:induction false} GoesJoin(env: Env, w: World, t: Task, w1: World, t1: Task, w2: World, t2: Task)
    requires Goes(env, w, t, w1, t1) && Goes(env, w1, t1, w2, t2)
    ensures Goes(env, w, t, w2, t2)
  {
    var a :| Ran(env, w, t, false, a, w1, t1);
    var b :| Ran(env, w1, t1, false, b, w2, t2);
    RanJoin(env, w, t, a, w1, t1, b, w2, t2);
  }

  // --- forward ---

  predicate CanPut(m: Meta, t: Task) {
    t.req.kind == Put && !InvalidLoc(t.req.loc) && t.req.loc.bucket in m.buckets && !Blank(t.req.hash)
  }

  function Noted(w: World, t: Task, stage: Stage, now: nat): World {
    w.(meta := w.meta.(staged := w.meta.staged[t.req.loc := StagedMeta(t, stage, now)]))
  }

  lemma {:induction false} MarkGoes(env: Env, w: World, t: Task, now: nat)
    requires CanPut(w.meta, t)
    ensures t.pc == StageMeta ==> Step(env, w, t, Fine(now)) == (Noted(w, t, MetadataStaged, now), t.(pc := Check))
    ensures t.pc == MarkPrepared ==> Step(env, w, t, Fine(now)) == (Noted(w, t, BlobPrepared, now), t.(pc := Link))
    ensures t.pc == MarkLinked ==> Step(env, w, t, Fine(now)) == (Noted(w, t, LayoutLinked, now), t.(pc := Retain))
    ensures t.pc == MarkRetained ==> Step(env, w, t, Fine(now)) == (Noted(w, t, BlobRetained, now), t.(pc := Commit))
  {
  }

  lemma {:induction false} Stages(env: Env, w: World, t: Task, now: nat)
    requires t.pc == Load && CanPut(w.meta, t)
    ensures Goes(env, w, t, Noted(w, t, MetadataStaged, now), t.(pc := Check, existing := LoadExisting(w, t.req.loc)))
  {
    var t1 := t.(pc := StageMeta, existing := LoadExisting(w, t.req.loc));
    GoesOne(env, w, t, Fine(now), w, t1);
    MarkGoes(env, w, t1, now);
    GoesOn(env, w, t, w, t1, Fine(now), Noted(w, t, MetadataStaged, now), t1.(pc := Check));
  }

  lemma {:induction false} Finds(env: Env, w: World, t: Task, now: nat)
    requires t.pc == Check && CanPut(w.meta, t) && t.req.hash in w.meta.refs
    ensures Goes(env, w, t, w, t.(pc := MarkPrepared, blob := Blob(w.meta.refs[t.req.hash].extent, true, false)))
  {
    GoesOne(env, w, t, Fine(now), w, t.(pc := MarkPrepared, blob := Blob(w.meta.refs[t.req.hash].extent, true, false)));
  }

  lemma {:induction false} Writes(env: Env, w: World, t: Task, now: nat)
    requires t.pc == Check && CanPut(w.meta, t) && t.req.hash !in w.meta.refs
    ensures Goes(env, w, t, w.(shards := w.shards[OwnKey(t) := Whole(t.req.data)]),
                 t.(pc := MarkPrepared, blob := Blob(NewExtent(env, t, []), false, true)))
  {
    var t1 := t.(pc := Write);
    GoesOne(env, w, t, Fine(now), w, t1);
    GoesOn(env, w, t, w, t1, Fine(now), w.(shards := w.shards[OwnKey(t) := Whole(t.req.data)]),
           t.(pc := MarkPrepared, blob := Blob(NewExtent(env, t, []), false, true)));
  }

  function LinkedWorld(w: World, t: Task, now: nat): World {
    var layout := LayoutOf(t.req.hash, ETag(t.req.hash), t.blob.extent, t.req.contentType, now, now);
    Noted(w.(layouts := w.layouts[t.req.loc := layout]), t, LayoutLinked, now)
  }

  lemma {:induction false} Links(env: Env, w: World, t: Task, now: nat)
    requires t.pc == MarkPrepared && CanPut(w.meta, t) && Linkable(t.req.hash, t.blob.extent)
    ensures Goes(env, w, t, LinkedWorld(w, t, now), t.(pc := Retain, linkedAt := now))
  {
    var w1, t1 := Noted(w, t, BlobPrepared, now), t.(pc := Link);
    MarkGoes(env, w, t, now);
    GoesOne(env, w, t, Fine(now), w1, t1);
    var (w2, t2) := StepLink(w1, t1, Fine(now));
    GoesOn(env, w, t, w1, t1, Fine(now), w2, t2);
    MarkGoes(env, w2, t2, now);
    NotedTwice(w, w2, t, now);
    GoesOn(env, w, t, w2, t2, Fine(now), LinkedWorld(w, t, now), t2.(pc := Retain));
  }

  lemma NotedTwice(w: World, w2: World, t: Task, now: nat)
    requires w2 == Noted(w, t, BlobPrepared, now).(layouts := w2.layouts)
    ensures Noted(w2, t, LayoutLinked, now) == Noted(w.(layouts := w2.layouts), t, LayoutLinked, now)
  {
    var l := t.req.loc;
    assert w2.meta.staged[l := StagedMeta(t, LayoutLinked, now)] == w.meta.staged[l := StagedMeta(t, LayoutLinked, now)];
  }

  function RetainedMeta(m: Meta, t: Task): Meta {
    if t.blob.refExists then ApplyIncrease(m, t.req.hash).0 else ApplyCreateRef(m, t.req.hash, t.blob.extent).0
  }

  lemma {:induction false} Retains(env: Env, w: World, t: Task, now: nat)
    requires t.pc == Retain && CanPut(w.meta, t) && !SameBlob(t)
    requires if t.blob.refExists then t.req.hash in w.meta.refs else !Blank(t.blob.extent.dir)
    ensures Goes(env, w, t, Noted(w.(meta := RetainedMeta(w.meta, t)), t, BlobRetained, now), t.(pc := Commit, hold := Retained))
  {
    var w1, t1 := w.(meta := RetainedMeta(w.meta, t)), t.(pc := MarkRetained, hold := Retained);
    GoesOne(env, w, t, Fine(now), w1, t1);
    MarkGoes(env, w1, t1, now);
    GoesOn(env, w, t, w1, t1, Fine(now), Noted(w1, t, BlobRetained, now), t1.(pc := Commit));
  }

  function CommittedWorld(w: World, t: Task): World {
    w.(meta := w.meta.(objects := w.meta.objects[t.req.loc := CommittedMeta(t)], staged := w.meta.staged - {t.req.loc}))
  }

  /** From the commit point to the end, for a key that was free. */
  lemma {:induction false} Commits(env: Env, w: World, t: Task, now: nat)
    requires t.pc == Commit && CanPut(w.meta, t) && t.existing == None && t.req.loc in w.meta.staged
    ensures Goes(env, w, t, CommittedWorld(w, t), t.(pc := Done, hold := Due))
  {
    var w1 := w.(meta := w.meta.(objects := w.meta.objects[t.req.loc := CommittedMeta(t)]));
    var t1 := t.(pc := Unstage, hold := Due);
    CommitGoes(env, w, t, now);
    GoesOne(env, w, t, Fine(now), w1, t1);
    var w2, t2 := CommittedWorld(w, t), t1.(pc := Release);
    GoesOn(env, w, t, w1, t1, Fine(now), w2, t2);
    GoesOn(env, w, t, w2, t2, Fine(now), w2, t2.(pc := Done));
  }

  lemma {:induction false} CommitGoes(env: Env, w: World, t: Task, now: nat)
    requires t.pc == Commit && CanPut(w.meta, t)
    ensures Step(env, w, t, Fine(now)) ==
      (w.(meta := w.meta.(objects := w.meta.objects[t.req.loc := CommittedMeta(t)])), t.(pc := Unstage, hold := Due))
  {
  }

  // --- backward ---

  lemma {:induction false} Fails(env: Env, w: World, t: Task)
    requires t.pc == MarkPrepared || t.pc == MarkLinked || t.pc == MarkRetained || t.pc == Commit
    ensures Goes(env, w, t, w, Roll(t))
  {
    GoesOne(env, w, t, Fault, w, Roll(t));
  }

  /** The first half of a rollback on a key that was free; the staged entry may stay. */
  lemma {:induction false} Unlinks(env: Env, w: World, t: Task, stuck: bool)
    requires t.pc == RbLayout && t.existing == None && CanPut(w.meta, t) && t.req.loc in w.meta.staged
    ensures Goes(env, w, t, Unlinked(w, t, stuck), t.(pc := RbRef))
  {
    var w1, t1 := Unlink(w, t.req.loc), t.(pc := RbUnstage);
    GoesOne(env, w, t, Fine(1), w1, t1);
    var w2, t2 := Unlinked(w, t, stuck), t.(pc := RbRestore);
    GoesOn(env, w, t, w1, t1, if stuck then Fault else Fine(1), w2, t2);
    GoesOn(env, w, t, w2, t2, Fine(1), w2, t.(pc := RbRef));
  }

  function Unlinked(w: World, t: Task, stuck: bool): World {
    var l := t.req.loc;
    w.(layouts := w.layouts - {l}, meta := w.meta.(staged := if stuck then w.meta.staged else w.meta.staged - {l}))
  }

  /** The second half, of a put that retained another count of a reference. */
  lemma {:induction false} Returns(env: Env, w: World, t: Task)
    requires t.pc == RbRef && !t.blob.created && t.hold == Retained && !Blank(t.req.hash)
    requires t.req.hash in w.meta.refs && w.meta.refs[t.req.hash].refCount >= 2
    ensures Goes(env, w, t, w.(meta := w.meta.(refs := w.meta.refs[t.req.hash := Bump(w.meta.refs[t.req.hash], -1)])), t.(pc := Done, hold := Nothing))
  {
    var w1 := w.(meta := w.meta.(refs := w.meta.refs[t.req.hash := Bump(w.meta.refs[t.req.hash], -1)]));
    var t1 := t.(pc := RbBlob, hold := Nothing);
    GoesOne(env, w, t, Fine(1), w1, t1);
    GoesOn(env, w, t, w1, t1, Fine(1), w1, t1.(pc := Done));
  }

  /** The second half, of a put that wrote its shards and retained nothing. */
  lemma {:induction false} Discards(env: Env, w: World, t: Task)
    requires t.pc == RbRef && t.blob.created && t.hold == Nothing
    ensures Goes(env, w, t, DropShards(w, t.blob.extent.dir, t.req.hash), t.(pc := Done))
  {
    GoesOne(env, w, t, Fine(1), w, t.(pc := RbBlob));
    GoesOn(env, w, t, w, t.(pc := RbBlob), Fine(1), DropShards(w, t.blob.extent.dir, t.req.hash), t.(pc := Done));
  }

  // --- in a system ---

  ghost predicate Reaches(env: Env, s: System, s': System) {
    exists actions :: Run(env, s, actions, s')
  }

  lemma {:induction false} RunJoin(env: Env, s: System, a: seq<Action>, s1: System, b: seq<Action>, s2: System)
    requires Run(env, s, a, s1) && Run(env, s1, b, s2)
    ensures Run(env, s, a + b, s2)
    decreases |a|
  {
    if a == [] {
      assert a + b == b;
    } else {
      assert (a + b)[0] == a[0] && (a + b)[1..] == a[1..] + b;
      RunJoin(env, Next(env, s, a[0]), a[1..], s1, b, s2);
    }
  }

  lemma {:induction false} ReachesJoin(env: Env, s: System, s1: System, s2: System)
    requires Reaches(env, s, s1) && Reaches(env, s1, s2)
    ensures Reaches(env, s, s2)
  {
    var a :| Run(env, s, a, s1);
    var b :| Run(env, s1, b, s2);
    RunJoin(env, s, a, s1, b, s2);
  }

  lemma {:induction false} RanActs(env: Env, w: World, tasks: map<Loc, Task>, l: Loc, inputs: seq<Input>, w': World, t': Task) returns (actions: seq<Action>)
    requires l in tasks && Ran(env, w, tasks[l], false, inputs, w', t')
    ensures Run(env, System(w, tasks), actions, System(w', tasks[l := t']))
    decreases |inputs|
  {
    if inputs == [] {
      actions := [];
      assert tasks[l := t'] == tasks;
    } else {
      var (w1, t1) := Step(env, w, tasks[l], inputs[0]);
      var rest := RanActs(env, w1, tasks[l := t1], l, inputs[1..], w', t');
      actions := [Advance(l, inputs[0])] + rest;
      assert actions[1..] == rest && tasks[l := t1][l := t'] == tasks[l := t'];
    }
  }

  lemma {:induction false} GoesReaches(env: Env, w: World, tasks: map<Loc, Task>, l: Loc, w': World, t': Task)
    requires l in tasks && Goes(env, w, tasks[l], w', t')
    ensures Reaches(env, System(w, tasks), System(w', tasks[l := t']))
  {
    var inputs :| Ran(env, w, tasks[l], false, inputs, w', t');
    var actions := RanActs(env, w, tasks, l, inputs, w', t');
  }

  lemma {:induction false} PutReaches(env: Env, s: System, l: Loc, data: Bytes, ct: string)
    requires Free(s, l)
    ensures Reaches(env, s, s.(tasks := s.tasks[l := NewPut(env, l, data, ct)]))
  {
    var a := StartPut(l, data, ct);
    var s' := Next(env, s, a);
    assert [a][1..] == [] && Run(env, s', [], s');
    assert Run(env, s, [a], s');
  }
}
