/** Shard sets while requests interleave: which steps take the set of a reference away. */
module SharedSets {
  import opened Names
  import opened Metadata
  import opened Protocol
  import opened Conservation
  import opened Healing
  import opened Solo

  /** The set a step deletes, if its operation goes through. */
  predicate Deletes(t: Task, k: SetKey) {
    match t.pc
    case LinkFailed | RbBlob => t.blob.created && Targets(t.blob.extent.dir, t.req.hash, k)
    case DropReleased => t.existing.Some? && Targets(t.drop, t.existing.value.meta.hash, k)
    case RbDropRef => Targets(t.drop, t.req.hash, k)
    case _ => false
  }

  predicate Targets(dir: string, hash: string, k: SetKey) {
    !Blank(dir) && !Blank(hash) && k == SetAt(Trim(dir), hash)
  }

  /** The step deletes the set of a content that has a reference at that moment. */
  predicate Hurts(m: Meta, t: Task, i: Input) {
    i.outcome == Success && exists h <- m.refs :: Deletes(t, SetAt(m.refs[h].extent.dir, h))
  }

  /** The step creates a reference whose set is not there (any more). */
  predicate CreatesBare(env: Env, w: World, t: Task, i: Input) {
    Creates(w, t, i) && !Stored(env, w.shards, t.req.hash, t.blob.extent)
  }

  predicate Creates(w: World, t: Task, i: Input) {
    && t.pc == Retain && i.outcome == Success && !t.blob.refExists && t.req.hash !in w.meta.refs
    && !Blank(t.req.hash) && !Blank(t.blob.extent.dir)
  }

  /** What a put writes is what its hash says. */
  predicate Truthful(env: Env, t: Task) {
    t.req.kind == Put ==> t.req.hash == env.digest(t.req.data)
  }

  lemma {:induction false} DropKeepsIff(env: Env, w: World, dir: string, hash: string)
    requires LiveShards(env, w.meta.refs, w.shards)
    ensures LiveShards(env, w.meta.refs, DropShards(w, dir, hash).shards) <==>
      forall h <- w.meta.refs :: !Targets(dir, hash, SetAt(w.meta.refs[h].extent.dir, h))
  {
    var w' := DropShards(w, dir, hash);
    forall h | h in w.meta.refs
      ensures Stored(env, w'.shards, h, w.meta.refs[h].extent) <==> !Targets(dir, hash, SetAt(w.meta.refs[h].extent.dir, h))
    {
      assert Stored(env, w.shards, h, w.meta.refs[h].extent);
    }
  }

  /** A write never hurts: over the set of a reference it writes what is there, whether it gets to its
      end or stops on the way. */
  lemma {:induction false} WriteKeeps(env: Env, w: World, t: Task, i: Input)
    requires CollisionFree(env) && LiveShards(env, w.meta.refs, w.shards) && t.pc == Write && t.req.hash == env.digest(t.req.data)
    ensures LiveShards(env, w.meta.refs, StepWrite(env, w, t, i).0.shards)
  {
    var w' := StepWrite(env, w, t, i).0;
    forall h | h in w.meta.refs
      ensures Stored(env, w'.shards, h, w.meta.refs[h].extent)
    {
      assert Stored(env, w.shards, h, w.meta.refs[h].extent);
    }
  }

  lemma {:induction false} RetainKeepsIff(env: Env, w: World, t: Task, i: Input)
    requires LiveShards(env, w.meta.refs, w.shards) && t.pc == Retain
    ensures LiveShards(env, StepRetain(w, t, i).0.meta.refs, StepRetain(w, t, i).0.shards) <==> !CreatesBare(env, w, t, i)
  {
    var h := t.req.hash;
    RetainRefs(w, t, i);
    if Creates(w, t, i) {
      PutRefLive(env, w.meta.refs, w.shards, h, BlobRef(t.blob.extent, 1));
    } else if h in w.meta.refs {
      PutRefLive(env, w.meta.refs, w.shards, h, Bump(w.meta.refs[h], 1));
    }
  }

  lemma {:induction false} PutRefLive(env: Env, refs: map<string, BlobRef>, shards: map<SetKey, ShardSet>, h: string, r: BlobRef)
    requires LiveShards(env, refs, shards)
    ensures LiveShards(env, refs[h := r], shards) <==> Stored(env, shards, h, r.extent)
  {
    var refs' := refs[h := r];
    assert h in refs' && refs'[h] == r;
    forall g | g in refs' && g != h
      ensures Stored(env, shards, g, refs'[g].extent)
    {
      assert g in refs && refs'[g] == refs[g];
    }
  }

  lemma {:induction false} RetainRefs(w: World, t: Task, i: Input)
    requires t.pc == Retain
    ensures var (w', h) := (StepRetain(w, t, i).0, t.req.hash);
      && w'.shards == w.shards
      && if Creates(w, t, i) then w'.meta.refs == w.meta.refs[h := BlobRef(t.blob.extent, 1)]
         else w'.meta.refs == w.meta.refs || (h in w.meta.refs && w'.meta.refs == w.meta.refs[h := Bump(w.meta.refs[h], 1)])
  {
  }

  lemma {:induction false} DecreaseKeeps(env: Env, m: Meta, shards: map<SetKey, ShardSet>, h: string)
    requires LiveShards(env, m.refs, shards)
    ensures LiveShards(env, ApplyDecrease(m, h).0.refs, shards)
  {
  }

  /** The steps that neither touch references nor shard sets. */
  predicate OffBoth(pc: Pc) {
    match pc
    case Write | Retain | Release | RbRef | LinkFailed | RbBlob | DropReleased | RbDropRef => false
    case _ => true
  }

  lemma {:induction false} OtherKeeps(env: Env, w: World, t: Task, i: Input)
    requires OffBoth(t.pc)
    ensures var w' := Step(env, w, t, i).0; w'.meta.refs == w.meta.refs && w'.shards == w.shards
  {
    match t.pc
    case StageMeta | MarkPrepared | MarkLinked | MarkRetained => MarkOffSets'(w, t, i);
    case Unstage | PrepareFailed | RbUnstage => UnstageEffect(w, t, i);
    case _ =>
  }

  lemma {:induction false} MarkOffSets'(w: World, t: Task, i: Input)
    ensures StepMark(w, t, i).0.meta.refs == w.meta.refs && StepMark(w, t, i).0.shards == w.shards
  {
  }

  /** If every reference has its set before a step of any request, every reference has its set after
      it exactly when the step neither deletes the set of a content that has a reference, nor
      creates a reference without one. */
  lemma {:induction false} StepKeepsSetsIff(env: Env, w: World, t: Task, i: Input)
    requires CollisionFree(env) && LiveShards(env, w.meta.refs, w.shards) && Truthful(env, t) && (t.pc == Write ==> t.req.kind == Put)
    ensures var w' := Step(env, w, t, i).0;
      LiveShards(env, w'.meta.refs, w'.shards) <==> !Hurts(w.meta, t, i) && !CreatesBare(env, w, t, i)
  {
    match t.pc
    case Write => WriteKeeps(env, w, t, i);
    case Retain => RetainKeepsIff(env, w, t, i);
    case Release | RbRef => CountKeeps(env, w, t, i);
    case LinkFailed | RbBlob | DropReleased | RbDropRef => DropStepKeepsIff(env, w, t, i);
    case _ => OtherKeeps(env, w, t, i);
  }

  lemma {:induction false} CountKeeps(env: Env, w: World, t: Task, i: Input)
    requires LiveShards(env, w.meta.refs, w.shards) && (t.pc == Release || t.pc == RbRef)
    ensures var w' := Step(env, w, t, i).0; LiveShards(env, w'.meta.refs, w'.shards)
  {
    if t.pc == RbRef {
      DecreaseKeeps(env, w.meta, w.shards, t.req.hash);
    } else if t.existing.Some? {
      DecreaseKeeps(env, w.meta, w.shards, t.existing.value.meta.hash);
    }
  }

  lemma {:induction false} DropStepKeepsIff(env: Env, w: World, t: Task, i: Input)
    requires LiveShards(env, w.meta.refs, w.shards)
    requires t.pc == LinkFailed || t.pc == RbBlob || t.pc == DropReleased || t.pc == RbDropRef
    ensures var w' := Step(env, w, t, i).0; LiveShards(env, w'.meta.refs, w'.shards) <==> !Hurts(w.meta, t, i)
  {
    match t.pc
    case RbDropRef => DropKeepsIff(env, w, t.drop, t.req.hash);
    case DropReleased => if t.existing.Some? { DropKeepsIff(env, w, t.drop, t.existing.value.meta.hash); }
    case _ => DropKeepsIff(env, w, t.blob.extent.dir, t.req.hash);
  }

  // --- runs ---

  ghost predicate SystemLive(env: Env, s: System) {
    LiveShards(env, s.world.meta.refs, s.world.shards)
  }

  /** Every reference has its set at every moment of the run. */
  ghost predicate AlwaysLive(env: Env, s: System, actions: seq<Action>)
    decreases |actions|
  {
    SystemLive(env, s) && (actions == [] || (Enabled(s, actions[0]) ==> AlwaysLive(env, Next(env, s, actions[0]), actions[1..])))
  }

  predicate Harmless(env: Env, s: System, a: Action)
    requires Enabled(s, a)
  {
    a.Advance? ==> !Hurts(s.world.meta, s.tasks[a.loc], a.input) && !CreatesBare(env, s.world, s.tasks[a.loc], a.input)
  }

  ghost predicate AllHarmless(env: Env, s: System, actions: seq<Action>)
    decreases |actions|
  {
    actions == [] || (Enabled(s, actions[0]) ==> Harmless(env, s, actions[0]) && AllHarmless(env, Next(env, s, actions[0]), actions[1..]))
  }

  ghost predicate AllTruthful(env: Env, tasks: map<Loc, Task>) {
    forall l <- tasks :: Truthful(env, tasks[l])
  }

  lemma {:induction false} NextTruthful(env: Env, s: System, a: Action)
    requires Enabled(s, a) && AllTruthful(env, s.tasks)
    ensures AllTruthful(env, Next(env, s, a).tasks)
  {
    if a.Advance? {
      SameRequest(env, s.world, s.tasks[a.loc], a.input);
    }
  }

  lemma {:induction false} SameRequest(env: Env, w: World, t: Task, i: Input)
    ensures Step(env, w, t, i).1.req == t.req
  {
  }

  /** For every interleaving of puts and deletes, with operations failing and requests stopping
      anywhere: every reference has its set at every moment exactly when no step of the run deletes
      the set of a referenced content or creates a reference without its set. */
  lemma {:induction false} RunKeepsSetsIff(env: Env, s: System, actions: seq<Action>, s': System)
    requires CollisionFree(env) && Invariant(s) && AllTruthful(env, s.tasks) && SystemLive(env, s) && Run(env, s, actions, s')
    ensures AlwaysLive(env, s, actions) <==> AllHarmless(env, s, actions)
    decreases |actions|
  {
    if actions != [] {
      var a := actions[0];
      var s1 := Next(env, s, a);
      NextKeeps(env, s, a);
      NextTruthful(env, s, a);
      if a.Advance? {
        assert TaskOk(s.world.meta.objects, a.loc, s.tasks[a.loc]);
        StepKeepsSetsIff(env, s.world, s.tasks[a.loc], a.input);
      }
      if SystemLive(env, s1) {
        RunKeepsSetsIff(env, s1, actions[1..], s');
      } else {
        assert !AlwaysLive(env, s1, actions[1..]);
      }
    }
  }
}
