/** Requests none of whose operations fail: the store behaves as a map from locations to bytes. */
module Faultless {
  import opened Names
  import opened Metadata
  import opened Protocol
  import opened Conservation
  import opened Crash
  import opened Healing
  import opened Solo
  import opened Requests
  import opened Tracking
  import opened Guarantees

  predicate AllSucceed(inputs: seq<Input>) {
    forall i <- inputs :: i.outcome == Success
  }

  /** Where a request without faults can be, and what it leaves when it is done. */
  predicate Smooth(m: Meta, l: Loc, t: Task) {
    match t.pc
    case Load | StageMeta | Check | Write | MarkPrepared | Link | MarkLinked | Retain | MarkRetained
       | Commit | Unstage | DeleteMeta | DeleteLayout => true
    case Release | DropReleased => l !in m.staged
    case Done => l !in m.staged && Owes(t) == None && (CommitDone(t) || (t.req.kind == Delete && l !in m.objects))
    case _ => false
  }

  /** Nothing the metadata checks stands in the way. */
  predicate Admissible(m: Meta, l: Loc, t: Task) {
    && !InvalidLoc(l) && t.req.loc == l
    && (t.req.kind == Put ==> l.bucket in m.buckets && !Blank(t.req.hash))
    && (HasBlob(t.pc) ==> Linkable(t.req.hash, t.blob.extent))
    && (t.blob.refExists && t.pc == Retain ==> t.req.hash in m.refs)
    && (Obliged(t) ==> !Blank(t.existing.value.meta.hash))
  }

  lemma {:induction false} MarkSmooth(w: World, l: Loc, t: Task, i: Input)
    requires Smooth(w.meta, l, t) && Admissible(w.meta, l, t) && i.outcome == Success && t.req.kind == Put
    requires t.pc == StageMeta || t.pc == MarkPrepared || t.pc == MarkLinked || t.pc == MarkRetained
    ensures Smooth(StepMark(w, t, i).0.meta, l, StepMark(w, t, i).1)
  {
  }

  lemma {:induction false} ForwardSmooth(env: Env, w: World, l: Loc, t: Task, i: Input)
    requires Smooth(w.meta, l, t) && Admissible(w.meta, l, t) && i.outcome == Success
    requires TaskOk(w.meta.objects, l, t) && (t.pc == Load ==> l !in w.meta.staged)
    requires t.pc == Load || t.pc == Check || t.pc == Write || t.pc == Link || t.pc == DeleteLayout
    requires t.pc == DeleteLayout ==> l !in w.meta.staged
    ensures Smooth(Step(env, w, t, i).0.meta, l, Step(env, w, t, i).1)
  {
  }

  lemma {:induction false} RetainSmooth(w: World, l: Loc, t: Task, i: Input)
    requires Smooth(w.meta, l, t) && Admissible(w.meta, l, t) && i.outcome == Success && t.pc == Retain
    ensures Smooth(StepRetain(w, t, i).0.meta, l, StepRetain(w, t, i).1)
  {
  }

  lemma {:induction false} CommitSmooth(env: Env, w: World, l: Loc, t: Task, i: Input)
    requires Smooth(w.meta, l, t) && Admissible(w.meta, l, t) && i.outcome == Success && TaskOk(w.meta.objects, l, t)
    requires t.pc == Commit || t.pc == Unstage || t.pc == DeleteMeta
    ensures Smooth(Step(env, w, t, i).0.meta, l, Step(env, w, t, i).1)
  {
  }

  lemma {:induction false} ReleaseSmooth(env: Env, w: World, l: Loc, t: Task, i: Input)
    requires Smooth(w.meta, l, t) && Admissible(w.meta, l, t) && i.outcome == Success && TaskOk(w.meta.objects, l, t)
    requires t.pc == Release || t.pc == DropReleased || t.pc == Done
    ensures Smooth(Step(env, w, t, i).0.meta, l, Step(env, w, t, i).1)
  {
  }

  lemma {:induction false} StepSmooth(env: Env, w: World, l: Loc, t: Task, i: Input)
    requires Smooth(w.meta, l, t) && Admissible(w.meta, l, t) && i.outcome == Success && TaskOk(w.meta.objects, l, t)
    requires t.pc == Load || t.pc == DeleteLayout ==> l !in w.meta.staged
    ensures Smooth(Step(env, w, t, i).0.meta, l, Step(env, w, t, i).1)
  {
    match t.pc
    case StageMeta | MarkPrepared | MarkLinked | MarkRetained => MarkSmooth(w, l, t, i);
    case Load | Check | Write | Link | DeleteLayout => ForwardSmooth(env, w, l, t, i);
    case Retain => RetainSmooth(w, l, t, i);
    case Commit | Unstage | DeleteMeta => CommitSmooth(env, w, l, t, i);
    case Release | DropReleased | Done => ReleaseSmooth(env, w, l, t, i);
  }

  lemma {:induction false} FitsAdmissible(env: Env, m0: Meta, w: World, l: Loc, t: Task)
    requires SoloMeta(m0, w.meta, l, t) && Fits(w, l, t) && SoundTask(env, t)
    requires !InvalidLoc(l) && (t.req.kind == Put ==> l.bucket in m0.buckets && !Blank(t.req.hash))
    requires HasBlob(t.pc) ==> t.req.kind == Put
    ensures Admissible(w.meta, l, t)
    ensures t.pc == Load || t.pc == DeleteLayout ==> l !in w.meta.staged
  {
    RetainHasRef(m0, w.meta, l, t);
  }

  lemma {:induction false} SoloAdmissible(env: Env, w0: World, w: World, l: Loc, t: Task)
    requires CollisionFree(env) && Healthy(env, w0) && SoloInv(env, w0, w, l, t)
    requires !InvalidLoc(l) && (t.req.kind == Put ==> l.bucket in w0.meta.buckets)
    ensures Admissible(w.meta, l, t) && TaskOk(w.meta.objects, l, t)
    ensures t.pc == Load || t.pc == DeleteLayout ==> l !in w.meta.staged
  {
    TaskFacts(env, w, l, t);
    FitsAdmissible(env, w0.meta, w, l, t);
  }

  lemma {:induction false} RetainHasRef(m0: Meta, m: Meta, l: Loc, t: Task)
    requires SoloMeta(m0, m, l, t)
    ensures t.blob.refExists && t.pc == Retain ==> t.req.hash in m.refs
  {
  }

  lemma {:induction false} AloneSmooth(env: Env, w0: World, w: World, l: Loc, t: Task, inputs: seq<Input>, w': World, t': Task)
    requires CollisionFree(env) && Healthy(env, w0) && SoloInv(env, w0, w, l, t) && Smooth(w.meta, l, t)
    requires !InvalidLoc(l) && (t.req.kind == Put ==> l.bucket in w0.meta.buckets)
    requires AllSucceed(inputs) && Alone(env, w, t, inputs, w', t')
    ensures SoloInv(env, w0, w', l, t') && Smooth(w'.meta, l, t')
    decreases |inputs|
  {
    if inputs != [] {
      var i := inputs[0];
      var (w1, t1) := Step(env, w, t, i);
      SoloAdmissible(env, w0, w, l, t);
      StepSmooth(env, w, l, t, i);
      StepRequest(env, w, t, i);
      SoloStep(env, w0, w, l, t, i, w1, t1);
      AloneSmooth(env, w0, w1, l, t1, inputs[1..], w', t');
    }
  }

  /** PutObject without faults: the store stays healthy and its contents gain this object. */
  lemma {:induction false} PutRefinesMap(env: Env, w0: World, l: Loc, data: Bytes, ct: string, inputs: seq<Input>, w: World, t: Task)
    requires CollisionFree(env) && Healthy(env, w0) && GoodKey(l.key)
    requires !InvalidLoc(l) && l.bucket in w0.meta.buckets
    requires AllSucceed(inputs) && Alone(env, w0, NewPut(env, l, data, ct), inputs, w, t) && t.pc == Done
    ensures Healthy(env, w) && Contents(env, w) == Contents(env, w0)[l := data] && Get(env, w, l) == Some(data)
  {
    var t0 := NewPut(env, l, data, ct);
    FreshStarts(env, w0, l, t0);
    AloneSmooth(env, w0, w0, l, t0, inputs, w, t);
    AloneRequest(env, w0, t0, inputs, w, t);
    FinishedHealthyIff(env, w0, w, l, t);
    FinishedContents(env, w0, w, l, t);
    assert l in Contents(env, w);
  }

  /** DeleteObject without faults: the store stays healthy and its contents lose this object. */
  lemma {:induction false} DeleteRefinesMap(env: Env, w0: World, l: Loc, inputs: seq<Input>, w: World, t: Task)
    requires CollisionFree(env) && Healthy(env, w0) && !InvalidLoc(l)
    requires AllSucceed(inputs) && Alone(env, w0, NewDelete(l), inputs, w, t) && t.pc == Done
    ensures Healthy(env, w) && Contents(env, w) == Contents(env, w0) - {l}
    ensures w.meta.objects == w0.meta.objects - {l} && w.meta.buckets == w0.meta.buckets
  {
    var t0 := NewDelete(l);
    FreshStarts(env, w0, l, t0);
    AloneSmooth(env, w0, w0, l, t0, inputs, w, t);
    AloneRequest(env, w0, t0, inputs, w, t);
    FinishedHealthyIff(env, w0, w, l, t);
    FinishedContents(env, w0, w, l, t);
    DeletedObjects(w0.meta, w.meta, Contents(env, w0), l, t);
  }

  lemma {:induction false} DeletedObjects(m0: Meta, m: Meta, c: map<Loc, Bytes>, l: Loc, t: Task)
    requires MetaAt(m0, m, t) && Smooth(m, l, t) && t.pc == Done && t.req.kind == Delete && t.req.loc == l
    requires c.Keys <= m0.objects.Keys
    ensures m.objects == m0.objects - {l} && Effect(c, l, t) == c - {l}
  {
    if !CommitDone(t) {
      assert m0.objects == m0.objects - {l} && c == c - {l};
    }
  }

  // --- every handler finishes ---

  /** How many steps are left at most. */
  function Rank(pc: Pc): nat {
    match pc
    case Load => 23
    case StageMeta => 22
    case Check => 21
    case Write => 20
    case MarkPrepared => 19
    case Link => 18
    case MarkLinked => 17
    case Retain => 16
    case MarkRetained => 15
    case Commit => 14
    case Unstage => 13
    case DeleteMeta => 12
    case DeleteLayout => 11
    case Release => 10
    case DropReleased => 9
    case RbLayout => 8
    case RbUnstage => 7
    case RbRestore => 6
    case RbRef => 5
    case RbDropRef => 4
    case RbBlob => 3
    case PrepareFailed => 2
    case LinkFailed => 1
    case Done => 0
  }

  lemma {:induction false} MarkFinishes(w: World, t: Task, i: Input)
    requires t.pc == StageMeta || t.pc == MarkPrepared || t.pc == MarkLinked || t.pc == MarkRetained
    ensures Rank(StepMark(w, t, i).1.pc) < Rank(t.pc)
  {
  }

  lemma {:induction false} RollbackFinishes(env: Env, w: World, t: Task, i: Input)
    requires (InRollback(t.pc) && t.pc != RbUnstage) || t.pc == LinkFailed
    ensures Rank(Step(env, w, t, i).1.pc) < Rank(t.pc)
  {
  }

  lemma {:induction false} StepFinishes(env: Env, w: World, t: Task, i: Input)
    requires t.pc != Done
    ensures Rank(Step(env, w, t, i).1.pc) < Rank(t.pc)
  {
    match t.pc
    case StageMeta | MarkPrepared | MarkLinked | MarkRetained => MarkFinishes(w, t, i);
    case Unstage | PrepareFailed | RbUnstage => UnstageEffect(w, t, i);
    case RbLayout | RbRestore | RbRef | RbDropRef | RbBlob | LinkFailed =>
      RollbackFinishes(env, w, t, i);
    case Retain | Commit | Release => CountFinishes(w, t, i);
    case _ =>
  }

  lemma {:induction false} CountFinishes(w: World, t: Task, i: Input)
    ensures t.pc == Retain ==> Rank(StepRetain(w, t, i).1.pc) < Rank(t.pc)
    ensures t.pc == Commit ==> Rank(StepCommit(w, t, i).1.pc) < Rank(t.pc)
    ensures t.pc == Release ==> Rank(StepRelease(w, t, i).1.pc) < Rank(t.pc)
  {
  }

  /** Whatever fails, rollback operations included, a handler is done after at most 23 operations. */
  lemma {:induction false} RunFinishes(env: Env, w: World, t: Task, strict: bool, inputs: seq<Input>, w': World, t': Task)
    requires Ran(env, w, t, strict, inputs, w', t') && |inputs| >= Rank(t.pc)
    ensures t'.pc == Done
    decreases |inputs|
  {
    if inputs != [] {
      if t.pc != Done {
        StepFinishes(env, w, t, inputs[0]);
      }
      RunFinishes(env, Step(env, w, t, inputs[0]).0, Step(env, w, t, inputs[0]).1, strict, inputs[1..], w', t');
    }
  }
}
