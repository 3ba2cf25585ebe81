/** Reference counts under every interleaving of puts and deletes on distinct keys. */
module Conservation {
  import opened Metadata
  import opened Protocol

  /** A world with the requests in flight, at most one per key. Requests that finished or stopped
      while still owing a reference stay in the map. */
  datatype System = System(world: World, tasks: map<Loc, Task>)

  datatype Action =
    | StartPut(loc: Loc, data: Bytes, contentType: string)
    | StartDelete(loc: Loc)
    | Advance(loc: Loc, input: Input)

  /** A key is free when nothing runs on it, nothing is owed for it and nothing is staged. */
  predicate Free(s: System, l: Loc) {
    l !in s.tasks || (s.tasks[l].pc == Done && Owes(s.tasks[l]) == None && l !in s.world.meta.staged)
  }

  predicate Enabled(s: System, a: Action) {
    match a
    case StartPut(l, _, _) => Free(s, l)
    case StartDelete(l) => Free(s, l)
    case Advance(l, _) => l in s.tasks
  }

  function Next(env: Env, s: System, a: Action): System
    requires Enabled(s, a)
  {
    match a
    case StartPut(l, data, ct) => s.(tasks := s.tasks[l := NewPut(env, l, data, ct)])
    case StartDelete(l) => s.(tasks := s.tasks[l := NewDelete(l)])
    case Advance(l, i) =>
      var (w, t) := Step(env, s.world, s.tasks[l], i);
      System(w, s.tasks[l := t])
  }

  ghost predicate Run(env: Env, s: System, actions: seq<Action>, s': System)
    decreases |actions|
  {
    if actions == [] then s' == s
    else Enabled(s, actions[0]) && Run(env, Next(env, s, actions[0]), actions[1..], s')
  }

  // --- the invariant ---

  /** The requests that hold a reference to h no committed object accounts for. */
  function Owing(tasks: map<Loc, Task>, h: string): set<Loc> {
    set l | l in tasks && Owes(tasks[l]) == Some(h)
  }

  lemma {:induction false} OwingPut(tasks: map<Loc, Task>, l: Loc, t: Task, h: string)
    ensures |Owing(tasks[l := t], h)| ==
            |Owing(tasks, h)| - One(l in tasks && Owes(tasks[l]) == Some(h)) + One(Owes(t) == Some(h))
  {
    var before, after := Owing(tasks, h), Owing(tasks[l := t], h);
    if Owes(t) == Some(h) {
      assert after == before + {l};
    } else {
      assert after == before - {l};
    }
  }

  ghost predicate Conserved(s: System) {
    forall h {:trigger Count(s.world.meta.refs, h)} ::
      Count(s.world.meta.refs, h) == |Users(s.world.meta.objects, h)| + |Owing(s.tasks, h)|
  }

  /** What a request's local variables say about the world, by where the request stands. */
  predicate TaskOk(objects: map<Loc, ObjectMeta>, l: Loc, t: Task) {
    t.req.loc == l &&
    match t.pc
    case Load => t.hold == Nothing
    case StageMeta | Check | PrepareFailed | LinkFailed =>
      t.req.kind == Put && t.hold == Nothing && MatchesExisting(objects, l, t)
    case Write => t.req.kind == Put && t.hold == Nothing && MatchesExisting(objects, l, t) && !SameBlob(t)
    case MarkPrepared | Link | MarkLinked | Retain =>
      t.req.kind == Put && t.hold == Nothing && MatchesExisting(objects, l, t) && (SameBlob(t) ==> t.blob.refExists)
    case MarkRetained | Commit =>
      t.req.kind == Put && MatchesExisting(objects, l, t) && t.hold == if SameBlob(t) then Nothing else Retained
    case RbLayout | RbUnstage | RbRestore | RbRef =>
      t.req.kind == Put && MatchesExisting(objects, l, t) && !CommitDone(t) && (SameBlob(t) ==> t.hold == Nothing)
    case RbDropRef | RbBlob => t.req.kind == Put && !CommitDone(t)
    case Unstage => t.req.kind == Put && t.hold == Due
    case Release => t.hold == Due
    case DropReleased => t.hold == Settled
    case DeleteMeta => t.req.kind == Delete && t.hold == Nothing && MatchesExisting(objects, l, t) && t.existing.Some?
    case DeleteLayout => t.req.kind == Delete && t.hold == Due && l !in objects
    case Done => true
  }

  predicate MatchesExisting(objects: map<Loc, ObjectMeta>, l: Loc, t: Task) {
    if t.existing.Some? then l in objects && objects[l] == t.existing.value.meta else l !in objects
  }

  ghost predicate Invariant(s: System) {
    && Conserved(s)
    && CountsOk(s.world.meta.refs)
    && forall l <- s.tasks :: TaskOk(s.world.meta.objects, l, s.tasks[l])
  }

  function Here(objects: map<Loc, ObjectMeta>, l: Loc, h: string): nat {
    One(l in objects && objects[l].hash == h)
  }

  /** Only this key's object changes, and the counts change with it and with what its request owes. */
  ghost predicate Accounted(m: Meta, l: Loc, t: Task, m': Meta, t': Task) {
    && CountsOk(m'.refs)
    && m'.objects - {l} == m.objects - {l}
    && forall h {:trigger Count(m'.refs, h)} ::
         Count(m'.refs, h) - Count(m.refs, h) ==
         Here(m'.objects, l, h) - Here(m.objects, l, h) + One(Owes(t') == Some(h)) - One(Owes(t) == Some(h))
  }

  /** It is enough to look at one key: if its object, its request and the counts change in step,
      the invariant carries over. */
  lemma {:induction false} OneKey(s: System, l: Loc, w: World, t: Task)
    requires Invariant(s) && l in s.tasks
    requires Accounted(s.world.meta, l, s.tasks[l], w.meta, t) && TaskOk(w.meta.objects, l, t)
    ensures Invariant(System(w, s.tasks[l := t]))
  {
    var s' := System(w, s.tasks[l := t]);
    forall h
      ensures Count(s'.world.meta.refs, h) == |Users(s'.world.meta.objects, h)| + |Owing(s'.tasks, h)|
    {
      OwingPut(s.tasks, l, t, h);
      UsersOneKey(s.world.meta.objects, w.meta.objects, l, h);
      assert Count(s.world.meta.refs, h) == |Users(s.world.meta.objects, h)| + |Owing(s.tasks, h)|;
    }
    forall k | k in s'.tasks
      ensures TaskOk(w.meta.objects, k, s'.tasks[k])
    {
      if k != l {
        OtherKey(s.world.meta.objects, w.meta.objects, l, k);
        assert TaskOk(s.world.meta.objects, k, s.tasks[k]);
      }
    }
  }

  lemma {:induction false} OtherKey(before: map<Loc, ObjectMeta>, after: map<Loc, ObjectMeta>, l: Loc, k: Loc)
    requires before - {l} == after - {l} && k != l
    ensures k in before <==> k in after
    ensures k in before ==> before[k] == after[k]
  {
    assert k in before <==> k in before - {l};
    assert k in after <==> k in after - {l};
    if k in before {
      assert (before - {l})[k] == (after - {l})[k];
    }
  }

  lemma {:induction false} UsersOneKey(before: map<Loc, ObjectMeta>, after: map<Loc, ObjectMeta>, l: Loc, h: string)
    requires before - {l} == after - {l}
    ensures |Users(after, h)| - |Users(before, h)| == Here(after, l, h) - Here(before, l, h)
  {
    if l in after {
      assert after == before[l := after[l]] by {
        forall k | k in after || k in before
          ensures (k in after <==> k in before[l := after[l]]) && (k in after ==> after[k] == before[l := after[l]][k])
        {
          if k != l { OtherKey(before, after, l, k); }
        }
      }
      UsersPut(before, l, after[l], h);
    } else {
      assert after == after - {l};
      UsersDrop(before, l, h);
    }
  }

  // --- each step keeps it ---

  predicate Moves(pc: Pc) {
    pc == Check || pc == Retain || pc == Commit || pc == Release || pc == RbRef || pc == DeleteMeta
  }

  ghost predicate Quiet(w: World, l: Loc, t: Task, w': World, t': Task) {
    w'.meta.objects == w.meta.objects && w'.meta.refs == w.meta.refs && Owes(t') == Owes(t)
    && TaskOk(w'.meta.objects, l, t')
  }

  lemma {:induction false} LoadQuiet(w: World, l: Loc, t: Task, i: Input)
    requires TaskOk(w.meta.objects, l, t) && t.pc == Load
    ensures Quiet(w, l, t, StepLoad(w, t, i).0, StepLoad(w, t, i).1)
  {
  }

  lemma {:induction false} MarkQuiet(w: World, l: Loc, t: Task, i: Input)
    requires TaskOk(w.meta.objects, l, t)
    requires t.pc == StageMeta || t.pc == MarkPrepared || t.pc == MarkLinked || t.pc == MarkRetained
    ensures Quiet(w, l, t, StepMark(w, t, i).0, StepMark(w, t, i).1)
  {
  }

  lemma {:induction false} PrepareQuiet(env: Env, w: World, l: Loc, t: Task, i: Input)
    requires TaskOk(w.meta.objects, l, t)
    requires t.pc == Write || t.pc == Link
    ensures Quiet(w, l, t, Step(env, w, t, i).0, Step(env, w, t, i).1)
  {
  }

  lemma {:induction false} UnstageQuiet(w: World, l: Loc, t: Task, i: Input)
    requires TaskOk(w.meta.objects, l, t) && (t.pc == Unstage || t.pc == PrepareFailed || t.pc == RbUnstage)
    ensures Quiet(w, l, t, StepUnstage(w, t, i).0, StepUnstage(w, t, i).1)
  {
  }

  lemma {:induction false} DropCreatedQuiet(w: World, l: Loc, t: Task, i: Input)
    requires TaskOk(w.meta.objects, l, t) && (t.pc == LinkFailed || t.pc == RbBlob)
    ensures Quiet(w, l, t, StepDropCreated(w, t, i).0, StepDropCreated(w, t, i).1)
  {
  }

  lemma {:induction false} DropQuiet(w: World, l: Loc, t: Task, i: Input)
    requires TaskOk(w.meta.objects, l, t)
    ensures t.pc == DropReleased ==> Quiet(w, l, t, StepDropReleased(w, t, i).0, StepDropReleased(w, t, i).1)
    ensures t.pc == RbDropRef ==> Quiet(w, l, t, StepRbDropRef(w, t, i).0, StepRbDropRef(w, t, i).1)
  {
  }

  lemma {:induction false} LayoutQuiet(w: World, l: Loc, t: Task, i: Input)
    requires TaskOk(w.meta.objects, l, t)
    ensures t.pc == RbLayout ==> Quiet(w, l, t, StepRbLayout(w, t, i).0, StepRbLayout(w, t, i).1)
    ensures t.pc == RbRestore ==> Quiet(w, l, t, StepRbRestore(w, t, i).0, StepRbRestore(w, t, i).1)
    ensures t.pc == DeleteLayout ==> Quiet(w, l, t, StepDeleteLayout(w, t, i).0, StepDeleteLayout(w, t, i).1)
  {
  }

  /** Every other step leaves objects, counts and debts alone. */
  lemma {:induction false} QuietStep(env: Env, w: World, l: Loc, t: Task, i: Input)
    requires TaskOk(w.meta.objects, l, t) && !Moves(t.pc)
    ensures Quiet(w, l, t, Step(env, w, t, i).0, Step(env, w, t, i).1)
  {
    match t.pc
    case Load => LoadQuiet(w, l, t, i);
    case StageMeta => MarkQuiet(w, l, t, i);
    case MarkPrepared => MarkQuiet(w, l, t, i);
    case MarkLinked => MarkQuiet(w, l, t, i);
    case MarkRetained => MarkQuiet(w, l, t, i);
    case Write => PrepareQuiet(env, w, l, t, i);
    case Link => PrepareQuiet(env, w, l, t, i);
    case Unstage | PrepareFailed | RbUnstage => UnstageQuiet(w, l, t, i);
    case LinkFailed | RbBlob => DropCreatedQuiet(w, l, t, i);
    case DropReleased | RbDropRef => DropQuiet(w, l, t, i);
    case RbLayout | RbRestore | DeleteLayout => LayoutQuiet(w, l, t, i);
    case _ =>
  }

  lemma {:induction false} CheckStep(s: System, l: Loc, i: Input)
    requires Invariant(s) && l in s.tasks && s.tasks[l].pc == Check
    ensures TaskOk(s.world.meta.objects, l, StepCheck(s.world, s.tasks[l], i).1)
  {
    var t, m := s.tasks[l], s.world.meta;
    if SameBlob(t) {
      assert l in Users(m.objects, t.req.hash);
      assert Count(m.refs, t.req.hash) >= 1;
    }
  }

  lemma {:induction false} RetainStep(w: World, l: Loc, t: Task, i: Input)
    requires TaskOk(w.meta.objects, l, t) && t.pc == Retain && CountsOk(w.meta.refs)
    ensures Accounted(w.meta, l, t, StepRetain(w, t, i).0.meta, StepRetain(w, t, i).1)
  {
    RetainMoves(w, t, i);
    IncreaseCounts(w.meta, t.req.hash, t.blob.extent, !t.blob.refExists);
  }

  lemma {:induction false} RetainMoves(w: World, t: Task, i: Input)
    requires t.hold == Nothing
    ensures var (w', t') := StepRetain(w, t, i);
      var (m, r) := if !t.blob.refExists then ApplyCreateRef(w.meta, t.req.hash, t.blob.extent) else ApplyIncrease(w.meta, t.req.hash);
      || (w' == w && Owes(t') == None)
      || (r.error == NoError && w'.meta == m && Owes(t') == Some(t.req.hash))
  {
  }

  lemma {:induction false} CommitEffect(w: World, t: Task, i: Input)
    ensures var (w', t') := StepCommit(w, t, i);
      || (w' == w && Owes(t') == Owes(t))
      || (w'.meta == w.meta.(objects := w.meta.objects[t.req.loc := CommittedMeta(t)]) && t' == t.(pc := Unstage, hold := Due))
  {
  }

  lemma {:induction false} CommitStep(w: World, l: Loc, t: Task, i: Input)
    requires TaskOk(w.meta.objects, l, t) && t.pc == Commit && CountsOk(w.meta.refs)
    ensures Accounted(w.meta, l, t, StepCommit(w, t, i).0.meta, StepCommit(w, t, i).1)
  {
    CommitEffect(w, t, i);
    assert w.meta.objects[l := CommittedMeta(t)] - {l} == w.meta.objects - {l};
  }

  lemma {:induction false} ReleaseStep(w: World, l: Loc, t: Task, i: Input)
    requires TaskOk(w.meta.objects, l, t) && t.pc == Release && CountsOk(w.meta.refs)
    requires Obliged(t) ==> t.existing.value.meta.hash in w.meta.refs
    ensures Accounted(w.meta, l, t, StepRelease(w, t, i).0.meta, StepRelease(w, t, i).1)
  {
    if Obliged(t) {
      DecreaseCounts(w.meta, t.existing.value.meta.hash);
    }
  }

  lemma {:induction false} RbRefStep(w: World, l: Loc, t: Task, i: Input)
    requires TaskOk(w.meta.objects, l, t) && t.pc == RbRef && CountsOk(w.meta.refs)
    requires t.hold == Retained ==> t.req.hash in w.meta.refs
    ensures Accounted(w.meta, l, t, StepRbRef(w, t, i).0.meta, StepRbRef(w, t, i).1)
  {
    if t.hold == Retained {
      DecreaseCounts(w.meta, t.req.hash);
    }
  }

  lemma {:induction false} DeleteMetaStep(w: World, l: Loc, t: Task, i: Input)
    requires TaskOk(w.meta.objects, l, t) && t.pc == DeleteMeta && CountsOk(w.meta.refs)
    ensures Accounted(w.meta, l, t, StepDeleteMeta(w, t, i).0.meta, StepDeleteMeta(w, t, i).1)
  {
    assert (w.meta.objects - {l}) - {l} == w.meta.objects - {l};
  }

  /** A reference that some request owes or some object uses is there. */
  lemma {:induction false} HeldRefExists(s: System, l: Loc, h: string)
    requires Invariant(s)
    requires (l in s.tasks && Owes(s.tasks[l]) == Some(h)) || (l in s.world.meta.objects && s.world.meta.objects[l].hash == h)
    ensures h in s.world.meta.refs
  {
    assert l in Owing(s.tasks, h) || l in Users(s.world.meta.objects, h);
    assert Count(s.world.meta.refs, h) >= 1;
  }

  lemma {:induction false} AdvanceKeeps(env: Env, s: System, l: Loc, i: Input)
    requires Invariant(s) && l in s.tasks
    ensures Invariant(Next(env, s, Advance(l, i)))
  {
    var w, t := s.world, s.tasks[l];
    var (w', t') := Step(env, w, t, i);
    if !Moves(t.pc) {
      QuietStep(env, w, l, t, i);
    } else if t.pc == Check {
      CheckStep(s, l, i);
    } else {
      if t.pc == Release && Obliged(t) {
        HeldRefExists(s, l, t.existing.value.meta.hash);
      }
      if t.pc == RbRef && t.hold == Retained {
        HeldRefExists(s, l, t.req.hash);
      }
      MovingStep(env, w, l, t, i);
    }
    OneKey(s, l, w', t');
  }

  lemma {:induction false} RetainTask(w: World, l: Loc, t: Task, i: Input)
    requires TaskOk(w.meta.objects, l, t) && t.pc == Retain
    ensures var (w', t') := StepRetain(w, t, i);
      w'.meta.objects == w.meta.objects && TaskOk(w.meta.objects, l, t')
  {
  }

  lemma {:induction false} ReleaseTask(w: World, l: Loc, t: Task, i: Input)
    requires TaskOk(w.meta.objects, l, t) && t.pc == Release
    ensures var (w', t') := StepRelease(w, t, i);
      w'.meta.objects == w.meta.objects && TaskOk(w.meta.objects, l, t')
  {
  }

  lemma {:induction false} RbRefTask(w: World, l: Loc, t: Task, i: Input)
    requires TaskOk(w.meta.objects, l, t) && t.pc == RbRef
    ensures var (w', t') := StepRbRef(w, t, i);
      w'.meta.objects == w.meta.objects && TaskOk(w.meta.objects, l, t')
  {
  }

  lemma {:induction false} ObjectStepTask(env: Env, w: World, l: Loc, t: Task, i: Input)
    requires TaskOk(w.meta.objects, l, t)
    requires t.pc == Commit || t.pc == DeleteMeta
    ensures var (w', t') := Step(env, w, t, i);
      TaskOk(w'.meta.objects, l, t')
  {
  }

  lemma {:induction false} MovingStep(env: Env, w: World, l: Loc, t: Task, i: Input)
    requires TaskOk(w.meta.objects, l, t) && Moves(t.pc) && t.pc != Check && CountsOk(w.meta.refs)
    requires t.pc == Release && Obliged(t) ==> t.existing.value.meta.hash in w.meta.refs
    requires t.pc == RbRef && t.hold == Retained ==> t.req.hash in w.meta.refs
    ensures var (w', t') := Step(env, w, t, i);
      Accounted(w.meta, l, t, w'.meta, t') && TaskOk(w'.meta.objects, l, t')
  {
    if t.pc == Commit || t.pc == DeleteMeta {
      ObjectStepTask(env, w, l, t, i);
    } else if t.pc == Retain {
      RetainTask(w, l, t, i);
    } else if t.pc == Release {
      ReleaseTask(w, l, t, i);
    } else {
      RbRefTask(w, l, t, i);
    }
    match t.pc
    case Retain => RetainStep(w, l, t, i);
    case Commit => CommitStep(w, l, t, i);
    case Release => ReleaseStep(w, l, t, i);
    case RbRef => RbRefStep(w, l, t, i);
    case _ => DeleteMetaStep(w, l, t, i);
  }

  lemma {:induction false} StartKeeps(s: System, l: Loc, t: Task)
    requires Invariant(s) && Free(s, l)
    requires TaskOk(s.world.meta.objects, l, t) && Owes(t) == None
    ensures Invariant(s.(tasks := s.tasks[l := t]))
  {
    var s' := s.(tasks := s.tasks[l := t]);
    forall h
      ensures Count(s'.world.meta.refs, h) == |Users(s'.world.meta.objects, h)| + |Owing(s'.tasks, h)|
    {
      OwingPut(s.tasks, l, t, h);
      assert Count(s.world.meta.refs, h) == |Users(s.world.meta.objects, h)| + |Owing(s.tasks, h)|;
    }
  }

  lemma {:induction false} NextKeeps(env: Env, s: System, a: Action)
    requires Invariant(s) && Enabled(s, a)
    ensures Invariant(Next(env, s, a))
  {
    match a
    case StartPut(l, data, ct) =>
      StartKeeps(s, l, NewPut(env, l, data, ct));
    case StartDelete(l) => StartKeeps(s, l, NewDelete(l));
    case Advance(l, i) => AdvanceKeeps(env, s, l, i);
  }

  /** Whatever the interleaving and whichever operations fail or stop, each count is the number of
      committed users plus the references still held by requests. */
  lemma {:induction false} RefCountsConserved(env: Env, s: System, actions: seq<Action>, s': System)
    requires Invariant(s) && Run(env, s, actions, s')
    ensures Invariant(s')
    decreases |actions|
  {
    if actions != [] {
      NextKeeps(env, s, actions[0]);
      RefCountsConserved(env, Next(env, s, actions[0]), actions[1..], s');
    }
  }

  /** From an idle balanced store: no reference disappears while a committed object uses it, and
      once no request owes anything the counts are balanced again. */
  lemma {:induction false} InterleavedPutsAndDeletes(env: Env, w: World, actions: seq<Action>, s: System)
    requires Balanced(w.meta) && Run(env, System(w, map[]), actions, s)
    ensures forall h {:trigger Count(s.world.meta.refs, h)} ::
      Count(s.world.meta.refs, h) == |Users(s.world.meta.objects, h)| + |Owing(s.tasks, h)|
    ensures forall l <- s.world.meta.objects :: s.world.meta.objects[l].hash in s.world.meta.refs
    ensures (forall l <- s.tasks :: Owes(s.tasks[l]) == None) ==> Balanced(s.world.meta)
  {
    var s0 := System(w, map[]);
    forall h
      ensures Count(w.meta.refs, h) == |Users(w.meta.objects, h)| + |Owing(s0.tasks, h)|
    {
      assert Owing(s0.tasks, h) == {};
    }
    RefCountsConserved(env, s0, actions, s);
    forall l | l in s.world.meta.objects
      ensures s.world.meta.objects[l].hash in s.world.meta.refs
    {
      HeldRefExists(s, l, s.world.meta.objects[l].hash);
    }
    if forall l <- s.tasks :: Owes(s.tasks[l]) == None {
      forall h
        ensures Count(s.world.meta.refs, h) == |Users(s.world.meta.objects, h)|
      {
        assert Owing(s.tasks, h) == {};
        assert Count(s.world.meta.refs, h) == |Users(s.world.meta.objects, h)| + |Owing(s.tasks, h)|;
      }
    }
  }
}
