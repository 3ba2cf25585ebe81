/** Requests that share no content: shard sets when only such requests are in flight together. */
module Exclusive {
  import opened Names
  import opened Metadata
  import opened Protocol
  import opened Conservation
  import opened Crash
  import opened Healing
  import opened Solo
  import opened SharedSets

  /** The contents a request puts, replaces or deletes; a finished one touches none any more. */
  function Touched(objects: map<Loc, ObjectMeta>, l: Loc, t: Task): set<string> {
    if t.pc == Done then {}
    else
      (if t.req.kind == Put then {t.req.hash} else {})
      + (if t.existing.Some? then {t.existing.value.meta.hash} else {})
      + (if l in objects then {objects[l].hash} else {})
  }

  /** No content is touched by two requests in flight. */
  predicate Apart(s: System) {
    forall k <- s.tasks, l <- s.tasks | k != l ::
      Touched(s.world.meta.objects, k, s.tasks[k]) !! Touched(s.world.meta.objects, l, s.tasks[l])
  }

  /** A request is admitted only if it touches no content that a request in flight touches. */
  ghost predicate Admitted(env: Env, s: System, actions: seq<Action>)
    decreases |actions|
  {
    actions == [] ||
    (Enabled(s, actions[0]) ==>
      (actions[0].Advance? || Apart(Next(env, s, actions[0]))) && Admitted(env, Next(env, s, actions[0]), actions[1..]))
  }

  // --- a step changes nothing about other contents ---

  ghost predicate OnlyAbout(w: World, hs: set<string>, w': World) {
    && (forall h :: h !in hs ==> (h in w'.meta.refs <==> h in w.meta.refs) && (h in w.meta.refs ==> w'.meta.refs[h] == w.meta.refs[h]))
    && (forall k: SetKey :: k.hash !in hs ==> (k in w'.shards <==> k in w.shards) && (k in w.shards ==> w'.shards[k] == w.shards[k]))
  }

  lemma {:induction false} DecreaseOnlyAbout(m: Meta, h: string)
    ensures var r := ApplyDecrease(m, h).0.refs;
      forall g :: g != h ==> (g in r <==> g in m.refs) && (g in m.refs ==> r[g] == m.refs[g])
  {
  }

  lemma {:induction false} CountOnlyAbout(env: Env, w: World, l: Loc, t: Task, i: Input)
    requires TaskOk(w.meta.objects, l, t) && (t.pc == Release || t.pc == RbRef)
    ensures OnlyAbout(w, Touched(w.meta.objects, l, t), Step(env, w, t, i).0)
  {
    if t.pc == RbRef {
      DecreaseOnlyAbout(w.meta, t.req.hash);
    } else if t.existing.Some? {
      DecreaseOnlyAbout(w.meta, t.existing.value.meta.hash);
    }
  }

  lemma {:induction false} RetainOnlyAbout(w: World, l: Loc, t: Task, i: Input)
    requires TaskOk(w.meta.objects, l, t) && t.pc == Retain
    ensures OnlyAbout(w, Touched(w.meta.objects, l, t), StepRetain(w, t, i).0)
  {
    RetainRefs(w, t, i);
  }

  lemma {:induction false} SetOnlyAbout(env: Env, w: World, l: Loc, t: Task, i: Input)
    requires TaskOk(w.meta.objects, l, t) && (t.pc == LinkFailed || t.pc == RbBlob || t.pc == DropReleased || t.pc == RbDropRef || t.pc == Write)
    requires t.pc == LinkFailed || t.pc == Write ==> t.req.kind == Put
    ensures OnlyAbout(w, Touched(w.meta.objects, l, t), Step(env, w, t, i).0)
  {
  }

  lemma {:induction false} StepOnlyAbout(env: Env, w: World, l: Loc, t: Task, i: Input)
    requires TaskOk(w.meta.objects, l, t)
    ensures OnlyAbout(w, Touched(w.meta.objects, l, t), Step(env, w, t, i).0)
  {
    match t.pc
    case Release | RbRef => CountOnlyAbout(env, w, l, t, i);
    case Retain => RetainOnlyAbout(w, l, t, i);
    case LinkFailed | RbBlob | DropReleased | RbDropRef | Write => SetOnlyAbout(env, w, l, t, i);
    case _ => OtherKeeps(env, w, t, i);
  }

  /** A request touches no further content on its way. */
  lemma {:induction false} TouchedShrinks(env: Env, w: World, l: Loc, t: Task, i: Input)
    requires TaskOk(w.meta.objects, l, t)
    ensures var (w', t') := Step(env, w, t, i); Touched(w'.meta.objects, l, t') <= Touched(w.meta.objects, l, t)
  {
    if t.pc == Load || t.pc == DeleteMeta || t.pc == Commit || t.pc == Done {
      ObjectStepTouches(env, w, l, t, i);
    } else {
      ObjectsKept(env, w, t, i);
      SameRequest(env, w, t, i);
      StepExisting(env, w, t, i);
    }
  }

  lemma {:induction false} ObjectStepTouches(env: Env, w: World, l: Loc, t: Task, i: Input)
    requires TaskOk(w.meta.objects, l, t) && (t.pc == Load || t.pc == DeleteMeta || t.pc == Commit || t.pc == Done)
    ensures var (w', t') := Step(env, w, t, i); Touched(w'.meta.objects, l, t') <= Touched(w.meta.objects, l, t)
  {
    if t.pc == Commit {
      CommitEffect(w, t, i);
    }
  }

  lemma {:induction false} ObjectsKept(env: Env, w: World, t: Task, i: Input)
    requires t.pc != Commit && t.pc != DeleteMeta
    ensures Step(env, w, t, i).0.meta.objects == w.meta.objects
  {
    match t.pc
    case StageMeta | MarkPrepared | MarkLinked | MarkRetained => MarkEffect(w, t, i);
    case Unstage | PrepareFailed | RbUnstage => UnstageEffect(w, t, i);
    case Retain | Release | RbRef => RefStepObjects(env, w, t, i);
    case _ =>
  }

  lemma {:induction false} RefStepObjects(env: Env, w: World, t: Task, i: Input)
    requires t.pc == Retain || t.pc == Release || t.pc == RbRef
    ensures Step(env, w, t, i).0.meta.objects == w.meta.objects
  {
    RefStepCommand(env, w, t, i);
  }

  lemma {:induction false} StepExisting(env: Env, w: World, t: Task, i: Input)
    requires t.pc != Load
    ensures Step(env, w, t, i).1.existing == t.existing
  {
  }

  // --- what a request knows of its own content ---

  predicate MayHold(pc: Pc) {
    match pc
    case MarkRetained | Commit | RbLayout | RbUnstage | RbRestore | RbRef | RbBlob => true
    case _ => false
  }

  predicate MayDrop(pc: Pc) {
    match pc
    case LinkFailed | RbLayout | RbUnstage | RbRestore | RbRef | RbDropRef | RbBlob => true
    case _ => HasBlob(pc)
  }

  /** A set the request wrote has no reference until the request creates it, and that one points at the
      set; a set it is about to drop has lost its reference. */
  predicate OwnKnown(env: Env, w: World, t: Task) {
    && (t.pc == Load || t.pc == StageMeta || t.pc == Check || t.pc == Write ==> !t.blob.created && t.hold == Nothing)
    && (HasBlob(t.pc) ==> t.hold == Nothing && (t.blob.refExists || t.blob.created))
    && (HasBlob(t.pc) && t.blob.created ==> Stored(env, w.shards, t.req.hash, t.blob.extent))
    && (t.pc == Write || t.pc == RbDropRef || (MayDrop(t.pc) && t.blob.created && t.hold == Nothing) ==> t.req.hash !in w.meta.refs)
    && (MayHold(t.pc) && t.blob.created && t.hold == Retained ==>
          t.req.hash in w.meta.refs && w.meta.refs[t.req.hash] == BlobRef(t.blob.extent, 1) && !Blank(t.req.hash))
    && (t.pc == MarkRetained || t.pc == Commit ==> t.blob.created ==> t.hold == Retained)
    && (t.pc == RbDropRef ==> t.hold == Nothing)
    && (t.pc == DropReleased ==> t.existing.Some? && t.existing.value.meta.hash !in w.meta.refs)
    && (t.blob.created ==> !t.blob.refExists)
  }

  /** Another request's step leaves it so. */
  lemma {:induction false} OthersKnown(env: Env, w: World, hs: set<string>, w': World, objects: map<Loc, ObjectMeta>, k: Loc, t: Task)
    requires OwnKnown(env, w, t) && OnlyAbout(w, hs, w') && hs !! Touched(objects, k, t) && TaskOk(objects, k, t)
    ensures OwnKnown(env, w', t)
  {
    if t.pc == Done {
      DoneStill(env, w, w', t);
    } else {
      NothingAboutOwn(env, w, hs, w', objects, k, t);
      KnownStill(env, w, w', objects, k, t);
    }
  }

  lemma {:induction false} DoneStill(env: Env, w: World, w': World, t: Task)
    requires OwnKnown(env, w, t) && t.pc == Done
    ensures OwnKnown(env, w', t)
  {
  }

  lemma {:induction false} NothingAboutOwn(env: Env, w: World, hs: set<string>, w': World, objects: map<Loc, ObjectMeta>, k: Loc, t: Task)
    requires OnlyAbout(w, hs, w') && hs !! Touched(objects, k, t) && t.pc != Done
    ensures t.req.kind == Put ==> SameAbout(env, w, w', t.req.hash, t.blob.extent)
    ensures t.existing.Some? ==> SameAbout(env, w, w', t.existing.value.meta.hash, t.blob.extent)
  {
    if t.req.kind == Put {
      assert t.req.hash in Touched(objects, k, t);
      NothingAbout(env, w, hs, w', t.req.hash, t.blob.extent);
    }
    if t.existing.Some? {
      assert t.existing.value.meta.hash in Touched(objects, k, t);
      NothingAbout(env, w, hs, w', t.existing.value.meta.hash, t.blob.extent);
    }
  }

  ghost predicate SameAbout(env: Env, w: World, w': World, h: string, e: Extent) {
    && (h in w'.meta.refs <==> h in w.meta.refs) && (h in w.meta.refs ==> w'.meta.refs[h] == w.meta.refs[h])
    && (Stored(env, w'.shards, h, e) <==> Stored(env, w.shards, h, e))
  }

  lemma {:induction false} NothingAbout(env: Env, w: World, hs: set<string>, w': World, h: string, e: Extent)
    requires OnlyAbout(w, hs, w') && h !in hs
    ensures SameAbout(env, w, w', h, e)
  {
    assert SetAt(e.dir, h).hash == h;
  }

  lemma {:induction false} KnownStill(env: Env, w: World, w': World, objects: map<Loc, ObjectMeta>, k: Loc, t: Task)
    requires OwnKnown(env, w, t) && TaskOk(objects, k, t)
    requires t.req.kind == Put ==> SameAbout(env, w, w', t.req.hash, t.blob.extent)
    requires t.existing.Some? ==> SameAbout(env, w, w', t.existing.value.meta.hash, t.blob.extent)
    ensures OwnKnown(env, w', t)
  {
  }

  lemma {:induction false} MarkOwnKnown(env: Env, w: World, t: Task, i: Input)
    requires OwnKnown(env, w, t) && (t.pc == StageMeta || t.pc == MarkPrepared || t.pc == MarkLinked || t.pc == MarkRetained)
    ensures OwnKnown(env, StepMark(w, t, i).0, StepMark(w, t, i).1)
  {
    MarkOffSets'(w, t, i);
    MarkEffect(w, t, i);
  }

  lemma {:induction false} PrepareOwnKnown(env: Env, w: World, t: Task, i: Input)
    requires OwnKnown(env, w, t) && Truthful(env, t) && (t.pc == Write ==> t.req.kind == Put)
    requires t.pc == Load || t.pc == Check || t.pc == Write || t.pc == Link
    ensures OwnKnown(env, Step(env, w, t, i).0, Step(env, w, t, i).1)
  {
    match t.pc
    case Write => WriteOwnKnown(env, w, t, i);
    case _ =>
  }

  lemma {:induction false} WriteOwnKnown(env: Env, w: World, t: Task, i: Input)
    requires OwnKnown(env, w, t) && t.pc == Write && t.req.hash == env.digest(t.req.data)
    ensures OwnKnown(env, StepWrite(env, w, t, i).0, StepWrite(env, w, t, i).1)
  {
  }

  lemma {:induction false} RetainOwnKnown(env: Env, w: World, t: Task, i: Input)
    requires OwnKnown(env, w, t) && t.pc == Retain
    ensures OwnKnown(env, StepRetain(w, t, i).0, StepRetain(w, t, i).1)
  {
  }

  lemma {:induction false} ReleaseOwnKnown(env: Env, w: World, t: Task, i: Input)
    requires OwnKnown(env, w, t) && t.pc == Release
    ensures OwnKnown(env, StepRelease(w, t, i).0, StepRelease(w, t, i).1)
  {
    ReleaseEffect(w, t, i);
  }

  lemma {:induction false} RbRefOwnKnown(env: Env, w: World, t: Task, i: Input)
    requires OwnKnown(env, w, t) && t.pc == RbRef
    ensures OwnKnown(env, StepRbRef(w, t, i).0, StepRbRef(w, t, i).1)
  {
  }

  lemma {:induction false} EntryOwnKnown(env: Env, w: World, t: Task, i: Input)
    requires OwnKnown(env, w, t)
    requires t.pc == Commit || t.pc == Unstage || t.pc == PrepareFailed || t.pc == RbUnstage || t.pc == DeleteMeta
    ensures OwnKnown(env, Step(env, w, t, i).0, Step(env, w, t, i).1)
  {
    if t.pc == Commit || t.pc == DeleteMeta {
      ObjectOwnKnown(env, w, t, i);
    } else {
      UnstageOwnKnown(env, w, t, i);
    }
  }

  lemma {:induction false} ObjectOwnKnown(env: Env, w: World, t: Task, i: Input)
    requires OwnKnown(env, w, t) && (t.pc == Commit || t.pc == DeleteMeta)
    ensures OwnKnown(env, Step(env, w, t, i).0, Step(env, w, t, i).1)
  {
  }

  lemma {:induction false} UnstageOwnKnown(env: Env, w: World, t: Task, i: Input)
    requires OwnKnown(env, w, t) && (t.pc == Unstage || t.pc == PrepareFailed || t.pc == RbUnstage)
    ensures OwnKnown(env, StepUnstage(w, t, i).0, StepUnstage(w, t, i).1)
  {
    UnstageEffect(w, t, i);
  }

  lemma {:induction false} RestOwnKnown(env: Env, w: World, t: Task, i: Input)
    requires OwnKnown(env, w, t)
    requires t.pc == RbLayout || t.pc == RbRestore || t.pc == DeleteLayout || t.pc == Done || t.pc == LinkFailed
          || t.pc == RbBlob || t.pc == DropReleased || t.pc == RbDropRef
    ensures OwnKnown(env, Step(env, w, t, i).0, Step(env, w, t, i).1)
  {
    match t.pc
    case RbLayout | RbRestore | DeleteLayout | Done => LayoutOwnKnown(env, w, t, i);
    case _ => DropOwnKnown(env, w, t, i);
  }

  lemma {:induction false} LayoutOwnKnown(env: Env, w: World, t: Task, i: Input)
    requires OwnKnown(env, w, t) && (t.pc == RbLayout || t.pc == RbRestore || t.pc == DeleteLayout || t.pc == Done)
    ensures OwnKnown(env, Step(env, w, t, i).0, Step(env, w, t, i).1)
  {
  }

  lemma {:induction false} DropOwnKnown(env: Env, w: World, t: Task, i: Input)
    requires OwnKnown(env, w, t) && (t.pc == LinkFailed || t.pc == RbBlob || t.pc == DropReleased || t.pc == RbDropRef)
    ensures OwnKnown(env, Step(env, w, t, i).0, Step(env, w, t, i).1)
  {
  }

  lemma {:induction false} StepOwnKnown(env: Env, w: World, l: Loc, t: Task, i: Input)
    requires OwnKnown(env, w, t) && TaskOk(w.meta.objects, l, t) && Truthful(env, t)
    ensures OwnKnown(env, Step(env, w, t, i).0, Step(env, w, t, i).1)
  {
    match t.pc
    case StageMeta | MarkPrepared | MarkLinked | MarkRetained => MarkOwnKnown(env, w, t, i);
    case Load | Check | Write | Link => PrepareOwnKnown(env, w, t, i);
    case Retain => RetainOwnKnown(env, w, t, i);
    case Release => ReleaseOwnKnown(env, w, t, i);
    case RbRef => RbRefOwnKnown(env, w, t, i);
    case Commit | Unstage | PrepareFailed | RbUnstage | DeleteMeta => EntryOwnKnown(env, w, t, i);
    case _ => RestOwnKnown(env, w, t, i);
  }

  // --- the only step that hurts ---

  /** The rollback of a put deletes the set it wrote although it could not give back the reference it
      created. */
  predicate Discards(t: Task, i: Input) {
    && t.pc == RbBlob && t.blob.created && t.hold == Retained && i.outcome == Success
    && Targets(t.blob.extent.dir, t.req.hash, SetAt(t.blob.extent.dir, t.req.hash))
  }

  lemma {:induction false} HurtsIff(env: Env, w: World, l: Loc, t: Task, i: Input)
    requires OwnKnown(env, w, t) && TaskOk(w.meta.objects, l, t)
    ensures Hurts(w.meta, t, i) || CreatesBare(env, w, t, i) <==> Discards(t, i)
  {
    if Discards(t, i) {
      assert t.req.hash in w.meta.refs && Deletes(t, SetAt(w.meta.refs[t.req.hash].extent.dir, t.req.hash));
    }
    if Hurts(w.meta, t, i) {
      var h :| h in w.meta.refs && Deletes(t, SetAt(w.meta.refs[h].extent.dir, h));
      assert SetAt(w.meta.refs[h].extent.dir, h).hash == h;
    }
  }

  // --- runs ---

  ghost predicate Guarded(env: Env, s: System) {
    && Invariant(s) && AllTruthful(env, s.tasks) && Apart(s)
    && forall l <- s.tasks :: OwnKnown(env, s.world, s.tasks[l])
  }

  lemma {:induction false} AdvanceApart(env: Env, s: System, l: Loc, i: Input)
    requires Invariant(s) && Apart(s) && l in s.tasks
    ensures Apart(Next(env, s, Advance(l, i)))
  {
    var s' := Next(env, s, Advance(l, i));
    var t := s.tasks[l];
    assert TaskOk(s.world.meta.objects, l, t);
    TouchedShrinks(env, s.world, l, t, i);
    StepFrame(env, s.world, t, i);
    forall k | k in s.tasks && k != l
      ensures Touched(s'.world.meta.objects, k, s'.tasks[k]) == Touched(s.world.meta.objects, k, s.tasks[k])
    {
      SameElsewhere(s.world.meta.objects, s'.world.meta.objects, l, k);
    }
  }

  lemma {:induction false} AdvanceKnown(env: Env, s: System, l: Loc, i: Input)
    requires Guarded(env, s) && l in s.tasks
    ensures var s' := Next(env, s, Advance(l, i)); forall k <- s'.tasks :: OwnKnown(env, s'.world, s'.tasks[k])
  {
    var s', t := Next(env, s, Advance(l, i)), s.tasks[l];
    var objects := s.world.meta.objects;
    assert TaskOk(objects, l, t);
    StepOwnKnown(env, s.world, l, t, i);
    StepOnlyAbout(env, s.world, l, t, i);
    forall k | k in s'.tasks && k != l
      ensures OwnKnown(env, s'.world, s'.tasks[k])
    {
      assert TaskOk(objects, k, s.tasks[k]);
      OthersKnown(env, s.world, Touched(objects, l, t), s'.world, objects, k, s.tasks[k]);
    }
  }

  lemma {:induction false} NextGuarded(env: Env, s: System, a: Action)
    requires Guarded(env, s) && Enabled(s, a) && (a.Advance? || Apart(Next(env, s, a)))
    ensures Guarded(env, Next(env, s, a))
  {
    NextKeeps(env, s, a);
    NextTruthful(env, s, a);
    if a.Advance? {
      AdvanceApart(env, s, a.loc, a.input);
      AdvanceKnown(env, s, a.loc, a.input);
    }
  }

  /** No rollback discards the set of a reference it still holds. */
  ghost predicate NeverDiscards(env: Env, s: System, actions: seq<Action>)
    decreases |actions|
  {
    actions == [] ||
    (Enabled(s, actions[0]) ==>
      (actions[0].Advance? ==> !Discards(s.tasks[actions[0].loc], actions[0].input)) && NeverDiscards(env, Next(env, s, actions[0]), actions[1..]))
  }

  lemma {:induction false} HarmlessIff(env: Env, s: System, a: Action)
    requires Guarded(env, s) && Enabled(s, a)
    ensures Harmless(env, s, a) <==> (a.Advance? ==> !Discards(s.tasks[a.loc], a.input))
  {
    if a.Advance? {
      assert TaskOk(s.world.meta.objects, a.loc, s.tasks[a.loc]);
      HurtsIff(env, s.world, a.loc, s.tasks[a.loc], a.input);
    }
  }

  lemma {:induction false} HarmlessRunIff(env: Env, s: System, actions: seq<Action>, s': System)
    requires Guarded(env, s) && Admitted(env, s, actions) && Run(env, s, actions, s')
    ensures AllHarmless(env, s, actions) <==> NeverDiscards(env, s, actions)
    decreases |actions|
  {
    if actions != [] {
      HarmlessIff(env, s, actions[0]);
      NextGuarded(env, s, actions[0]);
      HarmlessRunIff(env, Next(env, s, actions[0]), actions[1..], s');
    }
  }

  /** From an idle store in which every reference has its set, if no content is put, replaced or deleted
      by two requests in flight at once: whatever fails and stops, every reference has its set at
      every moment exactly when no rollback deletes the set it wrote while it still holds the
      reference it created. */
  lemma {:induction false} ApartKeepsSetsIff(env: Env, w0: World, actions: seq<Action>, s: System)
    requires CollisionFree(env) && Balanced(w0.meta) && LiveShards(env, w0.meta.refs, w0.shards)
    requires Run(env, System(w0, map[]), actions, s) && Admitted(env, System(w0, map[]), actions)
    ensures AlwaysLive(env, System(w0, map[]), actions) <==> NeverDiscards(env, System(w0, map[]), actions)
  {
    var s0 := System(w0, map[]);
    forall h
      ensures Count(w0.meta.refs, h) == |Users(w0.meta.objects, h)| + |Owing(s0.tasks, h)|
    {
      assert Owing(s0.tasks, h) == {};
    }
    RunKeepsSetsIff(env, s0, actions, s);
    HarmlessRunIff(env, s0, actions, s);
  }

  // --- rollbacks that give back ---

  /** No rollback fails to give back a reference its put created. */
  ghost predicate GivesBack(env: Env, s: System, actions: seq<Action>)
    decreases |actions|
  {
    actions == [] ||
    (Enabled(s, actions[0]) ==>
      && (actions[0].Advance? && s.tasks[actions[0].loc].pc == RbRef && s.tasks[actions[0].loc].blob.created ==> actions[0].input.outcome == Success)
      && GivesBack(env, Next(env, s, actions[0]), actions[1..]))
  }

  predicate GivenBack(t: Task) {
    t.pc == RbBlob && t.blob.created ==> t.hold != Retained
  }

  lemma {:induction false} StepGivenBack(env: Env, w: World, t: Task, i: Input)
    requires OwnKnown(env, w, t) && GivenBack(t) && CountsOk(w.meta.refs)
    requires t.pc == RbRef && t.blob.created ==> i.outcome == Success
    ensures GivenBack(Step(env, w, t, i).1)
  {
    match t.pc
    case StageMeta | MarkPrepared | MarkLinked | MarkRetained => MarkEffect(w, t, i);
    case Unstage | PrepareFailed | RbUnstage => UnstageEffect(w, t, i);
    case Release => ReleaseEffect(w, t, i);
    case _ =>
  }

  lemma {:induction false} GivesBackNeverDiscards(env: Env, s: System, actions: seq<Action>, s': System)
    requires Guarded(env, s) && Admitted(env, s, actions) && Run(env, s, actions, s') && GivesBack(env, s, actions)
    requires forall l <- s.tasks :: GivenBack(s.tasks[l])
    ensures NeverDiscards(env, s, actions)
    decreases |actions|
  {
    if actions != [] {
      var a := actions[0];
      NextGuarded(env, s, a);
      if a.Advance? {
        assert GivenBack(s.tasks[a.loc]) && OwnKnown(env, s.world, s.tasks[a.loc]);
        StepGivenBack(env, s.world, s.tasks[a.loc], a.input);
      }
      GivesBackNeverDiscards(env, Next(env, s, a), actions[1..], s');
    }
  }

  /** So if also no rollback fails to give back the reference its put created, every reference has its
      set at every moment. */
  lemma {:induction false} ApartKeepsSets(env: Env, w0: World, actions: seq<Action>, s: System)
    requires CollisionFree(env) && Balanced(w0.meta) && LiveShards(env, w0.meta.refs, w0.shards)
    requires Run(env, System(w0, map[]), actions, s) && Admitted(env, System(w0, map[]), actions) && GivesBack(env, System(w0, map[]), actions)
    ensures AlwaysLive(env, System(w0, map[]), actions) && LiveShards(env, s.world.meta.refs, s.world.shards)
  {
    var s0 := System(w0, map[]);
    ApartKeepsSetsIff(env, w0, actions, s);
    forall h
      ensures Count(w0.meta.refs, h) == |Users(w0.meta.objects, h)| + |Owing(s0.tasks, h)|
    {
      assert Owing(s0.tasks, h) == {};
    }
    GivesBackNeverDiscards(env, s0, actions, s);
    AlwaysLiveEnds(env, s0, actions, s);
  }

  lemma {:induction false} AlwaysLiveEnds(env: Env, s: System, actions: seq<Action>, s': System)
    requires Run(env, s, actions, s') && AlwaysLive(env, s, actions)
    ensures SystemLive(env, s')
    decreases |actions|
  {
    if actions != [] {
      AlwaysLiveEnds(env, Next(env, s, actions[0]), actions[1..], s');
    }
  }
}
