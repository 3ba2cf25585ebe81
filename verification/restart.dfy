/** A store that stopped in the middle of a request, started again. */
module Restart {
  import opened Metadata
  import opened Protocol
  import opened Recovery
  import opened Reconcile
  import opened Healing
  import opened Solo
  import opened Requests
  import opened Guarantees
  import opened ObjectStore
  import opened Maintenance
  import opened Dedupe

  /** A request that ran alone from a healthy store and stopped here, after any number of steps. */
  ghost predicate Stopped(env: Env, w0: World, l: Loc, t0: Task, w: World, t: Task) {
    Healthy(env, w0) && Fresh(env, l, t0) && exists inputs :: Alone(env, w0, t0, inputs, w, t)
  }

  lemma {:induction false} StoppedRecovers(env: Env, w0: World, l: Loc, t0: Task, w: World, t: Task, order: seq<Loc>, cutoff: nat, now: nat)
    requires CollisionFree(env) && Stopped(env, w0, l, t0, w, t) && AllDue(w.meta, order, cutoff)
    ensures Recover(w, order, cutoff, now).Some?
    ensures Ready(Recover(w, order, cutoff, now).value)
  {
    var inputs :| Alone(env, w0, t0, inputs, w, t);
    StopIsAtomic(env, w0, l, t0, inputs, w, t, order, cutoff, now, []);
  }

  lemma {:induction false} StoppedHeals(env: Env, w0: World, l: Loc, t0: Task, w: World, t: Task, order: seq<Loc>, cutoff: nat, now: nat, n: nat, w2: World)
    requires CollisionFree(env) && Stopped(env, w0, l, t0, w, t) && AllDue(w.meta, order, cutoff)
    requires Recover(w, order, cutoff, now).Some? && Fixed(Recover(w, order, cutoff, now).value, n, w2) && Terminal(w2)
    ensures Healthy(env, w2) <==> Heals(w, l, t)
    ensures Healthy(env, w2) ==> Contents(env, w2) == Effect(Contents(env, w0), l, t)
  {
    var inputs :| Alone(env, w0, t0, inputs, w, t);
    var w1 := Recover(w, order, cutoff, now).value;
    var fs :| |fs| == n && FixesEnabled(w1, fs) && ApplyFixes(w1, fs) == w2;
    StopIsAtomic(env, w0, l, t0, inputs, w, t, order, cutoff, now, fs);
  }

  /** Recover, with every staged entry expired, and Dedupe without a limit bring the store back:
      the interrupted request took place wholly or not at all, unless the stop lost or misled the
      layout or an object's shard directory strays from its folder. */
  method RecoverAndDedupe(s: Store, cutoff: nat, now: nat, ghost w0: World, ghost l: Loc, ghost t0: Task, ghost t: Task)
    requires CollisionFree(s.env) && !s.meta.closed && Valid(s.meta.State()) && Stopped(s.env, w0, l, t0, s.Now(), t)
    requires forall k <- s.meta.staged :: Expired(s.meta.staged[k], cutoff)
    modifies s.meta, s.engine
    ensures Healthy(s.env, s.Now()) <==> Heals(old(s.Now()), l, t)
    ensures Healthy(s.env, s.Now()) ==> Contents(s.env, s.Now()) == Effect(Contents(s.env, w0), l, t)
  {
    ghost var w := s.Now();
    var ok;
    ghost var order;
    ok, order := RecoverStore(s, cutoff, now);
    StoppedRecovers(s.env, w0, l, t0, w, t, order, cutoff, now);
    var run := RunDedupe(s, false, 0, now);
    StoppedHeals(s.env, w0, l, t0, w, t, order, cutoff, now, run.fixes, s.Now());
  }
}
