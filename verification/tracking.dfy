/** The link between a running handler and the steps of its task. */
module Tracking {
  import opened Metadata
  import opened Protocol
  import opened Crash
  import opened Healing
  import opened Solo
  import opened Requests
  import opened Guarantees

  /** Some run of the task's steps leads from one world to the other; when strict, one in which no
      rollback operation failed. */
  ghost predicate Ran(env: Env, w: World, t: Task, strict: bool, inputs: seq<Input>, w': World, t': Task)
    decreases |inputs|
  {
    if inputs == [] then w' == w && t' == t
    else
      && (strict ==> Orderly(t, inputs[0]))
      && Ran(env, Step(env, w, t, inputs[0]).0, Step(env, w, t, inputs[0]).1, strict, inputs[1..], w', t')
  }

  ghost predicate Track(env: Env, w0: World, t0: Task, strict: bool, w: World, t: Task) {
    exists inputs :: Ran(env, w0, t0, strict, inputs, w, t)
  }

  lemma {:induction false} Begun(env: Env, w: World, t: Task)
    ensures Track(env, w, t, true, w, t)
  {
    assert Ran(env, w, t, true, [], w, t);
  }

  lemma {:induction false} RanThen(env: Env, w: World, t: Task, strict: bool, inputs: seq<Input>, w1: World, t1: Task, i: Input)
    requires Ran(env, w, t, strict, inputs, w1, t1) && (strict ==> Orderly(t1, i))
    ensures Ran(env, w, t, strict, inputs + [i], Step(env, w1, t1, i).0, Step(env, w1, t1, i).1)
    decreases |inputs|
  {
    var all := inputs + [i];
    if inputs == [] {
      assert all == [i] && all[1..] == [];
    } else {
      RanThen(env, Step(env, w, t, inputs[0]).0, Step(env, w, t, inputs[0]).1, strict, inputs[1..], w1, t1, i);
      assert all[0] == inputs[0] && all[1..] == inputs[1..] + [i];
    }
  }

  lemma {:induction false} RanLoosely(env: Env, w: World, t: Task, inputs: seq<Input>, w': World, t': Task, strict: bool)
    requires Ran(env, w, t, strict, inputs, w', t')
    ensures Ran(env, w, t, false, inputs, w', t')
    decreases |inputs|
  {
    if inputs != [] {
      RanLoosely(env, Step(env, w, t, inputs[0]).0, Step(env, w, t, inputs[0]).1, inputs[1..], w', t', strict);
    }
  }

  lemma {:induction false} Tracked(env: Env, w0: World, t0: Task, strict: bool, w: World, t: Task, i: Input, w': World, t': Task, strict': bool)
    requires Track(env, w0, t0, strict, w, t) && Step(env, w, t, i) == (w', t')
    requires strict' ==> strict && Orderly(t, i)
    ensures Track(env, w0, t0, strict', w', t')
  {
    var inputs :| Ran(env, w0, t0, strict, inputs, w, t);
    if strict' {
      RanThen(env, w0, t0, true, inputs, w, t, i);
    } else {
      RanLoosely(env, w0, t0, inputs, w, t, strict);
      RanThen(env, w0, t0, false, inputs, w, t, i);
    }
  }

  lemma {:induction false} RanAlone(env: Env, w: World, t: Task, inputs: seq<Input>, w': World, t': Task)
    requires Ran(env, w, t, true, inputs, w', t')
    ensures Alone(env, w, t, inputs, w', t')
    decreases |inputs|
  {
    if inputs != [] {
      RanAlone(env, Step(env, w, t, inputs[0]).0, Step(env, w, t, inputs[0]).1, inputs[1..], w', t');
    }
  }

  /** A handler that returns with nothing staged and nothing owed leaves a healthy store whose
      contents changed as its commit says. */
  lemma {:induction false} TrackedEffect(env: Env, w0: World, l: Loc, t0: Task, w: World, t: Task)
    requires CollisionFree(env) && Healthy(env, w0) && Fresh(env, l, t0) && Track(env, w0, t0, true, w, t) && t.pc == Done
    requires l !in w.meta.staged && Owes(t) == None
    ensures Healthy(env, w) && Contents(env, w) == Effect(Contents(env, w0), l, t) && t.req == t0.req
  {
    var inputs :| Ran(env, w0, t0, true, inputs, w, t);
    RanAlone(env, w0, t0, inputs, w, t);
    FreshStarts(env, w0, l, t0);
    AloneKeeps(env, w0, w0, l, t0, inputs, w, t);
    AloneRequest(env, w0, t0, inputs, w, t);
    FinishedHealthyIff(env, w0, w, l, t);
    FinishedContents(env, w0, w, l, t);
  }
}
