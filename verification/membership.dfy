/** The Raft group's membership, and bringing it to a desired one, one replica at a time. */
module Membership {
  import opened Names

  /** The voters with their targets, and the ids that may never come back. */
  datatype View = View(nodes: map<nat, string>, removed: set<nat>)

  /** How a call to the group ends. A request that fails may still have been carried out. */
  datatype Reply = Done | Failed | FailedYetApplied

  datatype Replica = Replica(id: nat, target: string)

  datatype SyncResult = SyncResult(added: seq<Replica>, removed: seq<nat>)

  // --- what a caller may ask for ---

  predicate Normal(input: map<nat, string>, local: nat) {
    local in input && forall id <- input :: id != 0 && Trim(input[id]) != ""
  }

  function Normalized(input: map<nat, string>): map<nat, string> {
    map id | id in input :: Trim(input[id])
  }

  /** No removed id is wanted back and no member is wanted at another target. */
  predicate Compatible(v: View, desired: map<nat, string>) {
    (forall id <- v.removed :: id !in desired) && forall id <- desired :: id in v.nodes ==> v.nodes[id] == desired[id]
  }

  /** normalizeDesiredReplicas. */
  method NormalizeDesired(input: map<nat, string>, local: nat) returns (ok: bool, desired: map<nat, string>)
    ensures ok <==> Normal(input, local)
    ensures ok ==> desired == Normalized(input)
  {
    desired := map[];
    if |input| == 0 {
      return false, map[];
    }
    var rest := input.Keys;
    while rest != {}
      invariant rest <= input.Keys && desired.Keys == input.Keys - rest
      invariant forall id <- desired :: id != 0 && Trim(input[id]) != "" && desired[id] == Trim(input[id])
      decreases |rest|
    {
      var id :| id in rest;
      var target := Trim(input[id]);
      if id == 0 || target == "" {
        return false, map[];
      }
      desired := desired[id := target];
      rest := rest - {id};
    }
    ok := local in desired;
  }

  /** validateDesiredReplicaTargets. */
  method Validate(v: View, desired: map<nat, string>) returns (ok: bool)
    ensures ok <==> Compatible(v, desired)
  {
    var gone := v.removed;
    while gone != {}
      invariant gone <= v.removed && forall id <- v.removed :: id in gone || id !in desired
      decreases |gone|
    {
      var id :| id in gone;
      if id in desired {
        return false;
      }
      gone := gone - {id};
    }
    var rest := desired.Keys;
    while rest != {}
      invariant rest <= desired.Keys && forall id <- desired :: id in rest || (id in v.nodes ==> v.nodes[id] == desired[id])
      decreases |rest|
    {
      var id :| id in rest;
      if id in v.nodes && v.nodes[id] != desired[id] {
        return false;
      }
      rest := rest - {id};
    }
    return true;
  }

  // --- ids in ascending order ---

  predicate Ascending(s: seq<nat>) {
    forall i, j | 0 <= i < j < |s| :: s[i] < s[j]
  }

  function InsertId(s: seq<nat>, x: nat): (r: seq<nat>)
    ensures forall y :: y in r <==> y in s || y == x
  {
    if s == [] || x < s[0] then [x] + s
    else
      var rest := InsertId(s[1..], x);
      assert s == [s[0]] + s[1..];
      [s[0]] + rest
  }

  lemma {:induction false} InsertIdAscends(s: seq<nat>, x: nat)
    requires Ascending(s) && x !in s
    ensures Ascending(InsertId(s, x))
  {
    if s != [] && x > s[0] {
      InsertIdAscends(s[1..], x);
      var rest := InsertId(s[1..], x);
      forall j | 0 <= j < |rest|
        ensures s[0] < rest[j]
      {
        assert rest[j] in rest;
      }
    }
  }

  /** missingReplicas and extraReplicas: the ids of one map that the other lacks, sorted. */
  method Lacking(from: map<nat, string>, other: map<nat, string>) returns (ids: seq<nat>)
    ensures Ascending(ids) && forall id :: id in ids <==> id in from && id !in other
  {
    ids := [];
    var rest := from.Keys;
    while rest != {}
      invariant rest <= from.Keys && Ascending(ids)
      invariant forall id :: id in ids <==> id in from && id !in rest && id !in other
      decreases |rest|
    {
      var id :| id in rest;
      if id !in other {
        InsertIdAscends(ids, id);
        ids := InsertId(ids, id);
      }
      rest := rest - {id};
    }
  }

  // --- what one step may do ---

  predicate Adds(v: View, w: View, id: nat, target: string) {
    id !in v.nodes && id !in v.removed && id != 0 && target != "" && w == View(v.nodes[id := target], v.removed)
  }

  predicate Removes(v: View, w: View, id: nat) {
    id in v.nodes && w == View(v.nodes - {id}, v.removed + {id})
  }

  /** A wanted replica that was never removed comes in, or, once every wanted replica is in, one
      that is not wanted goes out. */
  ghost predicate SafeStep(desired: map<nat, string>, v: View, w: View) {
    || (exists id :: id in desired && Adds(v, w, id, desired[id]))
    || (desired.Keys <= v.nodes.Keys && exists id :: id !in desired && Removes(v, w, id))
  }

  /** The memberships a group went through, from those it had gone through before. */
  ghost predicate SafeRun(desired: map<nat, string>, before: seq<View>, run: seq<View>) {
    && 0 < |before| <= |run|
    && (forall i | 0 <= i < |before| :: run[i] == before[i])
    && forall i | |before| <= i < |run| :: SafeStep(desired, run[i - 1], run[i])
  }

  lemma RunSame(desired: map<nat, string>, run: seq<View>)
    requires run != []
    ensures SafeRun(desired, run, run)
  {
  }

  lemma RunOne(desired: map<nat, string>, before: seq<View>, run: seq<View>, v: View)
    requires SafeRun(desired, before, run) && SafeStep(desired, run[|run| - 1], v)
    ensures SafeRun(desired, before, run + [v])
  {
  }

  lemma RunTrans(desired: map<nat, string>, a: seq<View>, b: seq<View>, c: seq<View>)
    requires SafeRun(desired, a, b) && SafeRun(desired, b, c)
    ensures SafeRun(desired, a, c)
  {
    forall i | |a| <= i < |c|
      ensures SafeStep(desired, c[i - 1], c[i])
    {
      if i < |b| {
        assert SafeStep(desired, b[i - 1], b[i]);
      }
    }
  }

  predicate Apart(v: View) {
    v.nodes.Keys !! v.removed
  }

  // --- what every run of such steps keeps ---

  predicate Follows(desired: map<nat, string>, v: View, w: View) {
    && v.removed <= w.removed && Apart(w)
    && (forall id <- v.nodes :: id in desired ==> id in w.nodes)
    && (forall id <- v.nodes :: id in w.nodes ==> w.nodes[id] == v.nodes[id])
    && (forall id <- w.nodes :: id !in v.nodes ==> id in desired && w.nodes[id] == desired[id])
    && (v.nodes.Keys <= w.nodes.Keys || desired.Keys <= w.nodes.Keys)
  }

  lemma FollowsStep(desired: map<nat, string>, u: View, v: View, w: View)
    requires Follows(desired, u, v) && SafeStep(desired, v, w)
    ensures Follows(desired, u, w)
  {
  }

  /** At every point of a sync the wanted members are still there, no removed id is back, no member
      has moved, and either nobody has left yet or everybody wanted is in. */
  lemma {:induction false} RunFollows(desired: map<nat, string>, before: seq<View>, run: seq<View>, i: nat, j: nat)
    requires SafeRun(desired, before, run) && |before| - 1 <= i <= j < |run| && Apart(run[i])
    ensures Follows(desired, run[i], run[j])
    decreases j
  {
    if i < j {
      RunFollows(desired, before, run, i, j - 1);
      FollowsStep(desired, run[i], run[j - 1], run[j]);
    }
  }

  /** Whatever a sync got done before it stopped, the same wish can be asked for again. */
  lemma {:induction false} RunCompatible(desired: map<nat, string>, before: seq<View>, run: seq<View>, j: nat)
    requires SafeRun(desired, before, run) && |before| - 1 <= j < |run| && Compatible(run[|before| - 1], desired)
    ensures Compatible(run[j], desired)
    decreases j
  {
    if |before| <= j {
      RunCompatible(desired, before, run, j - 1);
    }
  }

  // --- the group ---

  function Joined(nodes: map<nat, string>, desired: map<nat, string>, done: set<nat>): map<nat, string> {
    nodes + (map id | id in done && id in desired :: desired[id])
  }

  class Group {
    const local: nat
    const reply: nat -> Reply
    ghost const settled: nat
    var calls: nat
    var view: View
    ghost var run: seq<View>

    ghost predicate Valid()
      reads this
    {
      run != [] && run[|run| - 1] == view && Apart(view) && 0 !in view.nodes
    }

    /** From call number `settled` on the group answers. */
    ghost predicate Settles() {
      forall n: nat :: n >= settled ==> reply(n) == Done
    }

    constructor (local: nat, reply: nat -> Reply, ghost settled: nat, view: View)
      requires Apart(view) && 0 !in view.nodes
      ensures Valid() && this.local == local && this.reply == reply && this.settled == settled && this.view == view && run == [view]
    {
      this.local, this.reply, this.settled, calls, this.view, run := local, reply, settled, 0, view, [view];
    }

    method GetMembership() returns (ok: bool, v: View)
      modifies this`calls
      ensures old(calls) <= calls && v == view && (Settles() && settled <= old(calls) ==> ok)
    {
      ok, v := reply(calls) == Done, view;
      calls := calls + 1;
    }

    /** AddReplica: an id that is already there at its target is no work; a removed id or another
        target is refused. */
    method AddReplica(id: nat, rawTarget: string) returns (ok: bool)
      requires Valid()
      modifies this
      ensures old(calls) <= calls && Valid()
      ensures (view == old(view) && run == old(run)) || (Adds(old(view), view, id, Trim(rawTarget)) && run == old(run) + [view])
      ensures ok ==> id in view.nodes && view.nodes[id] == Trim(rawTarget)
      ensures Settles() && settled <= old(calls) ==> (ok <==>
        && id != 0 && Trim(rawTarget) != "" && id !in old(view).removed
        && (id in old(view).nodes ==> old(view).nodes[id] == Trim(rawTarget)))
    {
      var target := Trim(rawTarget);
      if id == 0 || target == "" {
        return false;
      }
      var got, v := GetMembership();
      if !got || id in v.removed {
        return false;
      }
      if id in v.nodes {
        return v.nodes[id] == target;
      }
      var r := reply(calls);
      calls := calls + 1;
      if r != Failed {
        view := View(view.nodes[id := target], view.removed);
        run := run + [view];
      }
      return r == Done;
    }

    /** RemoveReplica: an id that is not there is no work. */
    method RemoveReplica(id: nat) returns (ok: bool)
      requires Valid()
      modifies this
      ensures old(calls) <= calls && Valid()
      ensures (view == old(view) && run == old(run)) || (Removes(old(view), view, id) && run == old(run) + [view])
      ensures ok ==> id !in view.nodes
      ensures Settles() && settled <= old(calls) ==> (ok <==> id != 0)
    {
      if id == 0 {
        return false;
      }
      var got, v := GetMembership();
      if !got {
        return false;
      }
      if id !in v.nodes {
        return true;
      }
      var r := reply(calls);
      calls := calls + 1;
      if r != Failed {
        view := View(view.nodes - {id}, view.removed + {id});
        run := run + [view];
      }
      return r == Done;
    }

    /** addMissingReplicas. */
    method AddMissing(desired: map<nat, string>) returns (ok: bool, added: seq<Replica>)
      requires Valid() && Compatible(view, desired) && Tidy(desired)
      modifies this
      ensures old(calls) <= calls && Valid() && SafeRun(desired, old(run), run)
      ensures Settles() && settled <= old(calls) ==> ok
      ensures AddedOnly(desired, old(view), view, added)
      ensures ok ==> view == View(old(view).nodes + desired, old(view).removed) && AddedAll(desired, old(view), added)
    {
      var ids := Lacking(desired, view.nodes);
      ghost var v, before := view, run;
      added := [];
      RunSame(desired, run);
      for k := 0 to |ids|
        invariant old(calls) <= calls
        invariant Valid() && SafeRun(desired, before, run)
        invariant Adding(desired, v, ids, k, view, added)
      {
        AddReady(desired, v, ids, k, view, added);
        AddingOnly(desired, v, ids, k, view, added);
        ghost var was, runs := view, run;
        var done := AddReplica(ids[k], desired[ids[k]]);
        AddedStays(desired, v, was, view, added);
        AddMoves(desired, before, runs, was, view, ids[k], run);
        if !done {
          return false, added;
        }
        AddTurn(desired, v, ids, k, was, view, added);
        added := added + [Replica(ids[k], desired[ids[k]])];
      }
      AddDone(desired, v, ids, view, added);
      ok := true;
    }

    /** removeExtraReplicas. */
    method RemoveExtra(desired: map<nat, string>) returns (ok: bool, removed: seq<nat>)
      requires Valid() && desired.Keys <= view.nodes.Keys
      modifies this
      ensures old(calls) <= calls && Valid() && SafeRun(desired, old(run), run)
      ensures Settles() && settled <= old(calls) ==> ok
      ensures RemovedOnly(desired, old(view), view, removed) && desired.Keys <= view.nodes.Keys
      ensures ok ==> view == Without(old(view), old(view).nodes.Keys - desired.Keys) && RemovedAll(desired, old(view), removed)
    {
      var ids := Lacking(view.nodes, desired);
      removed := [];
      RunSame(desired, run);
      for k := 0 to |ids|
        invariant Valid() && SafeRun(desired, old(run), run)
        invariant old(calls) <= calls
        invariant Removing(desired, old(view), ids, k, view, removed)
      {
        var id := ids[k];
        RemoveReady(desired, old(view), ids, k, view, removed);
        RemovingOnly(desired, old(view), ids, k, view, removed);
        ghost var was, runs := view, run;
        var done := RemoveReplica(id);
        if run != runs {
          assert SafeStep(desired, was, view);
          RunOne(desired, old(run), runs, view);
        }
        if !done {
          return false, removed;
        }
        RemoveTurn(desired, old(view), ids, k, was, view, removed);
        removed := removed + [id];
      }
      RemoveReady(desired, old(view), ids, |ids|, view, removed);
      RemoveDone(desired, old(view), ids, view, removed);
      ok := true;
    }

    /** SyncReplicas: if the wish is in order, add what is missing, then remove what is too much. */
    method SyncReplicas(input: map<nat, string>) returns (ok: bool, result: SyncResult)
      requires Valid()
      modifies this
      ensures old(calls) <= calls && Valid() && SafeRun(Normalized(input), old(run), run)
      ensures !Normal(input, local) || !Compatible(old(view), Normalized(input)) ==> !ok && view == old(view) && run == old(run)
      ensures ok ==> view.nodes == Normalized(input) && view.removed == old(view).removed + (old(view).nodes.Keys - input.Keys)
      ensures Settles() && settled <= old(calls) ==> (ok <==> Normal(input, local) && Compatible(old(view), Normalized(input)))
      ensures AddedOnly(Normalized(input), old(view), view, result.added) && RemovedOnly(Normalized(input), old(view), view, result.removed)
      ensures ok ==> AddedAll(Normalized(input), old(view), result.added) && RemovedAll(Normalized(input), old(view), result.removed)
    {
      result := SyncResult([], []);
      RunSame(Normalized(input), run);
      var normal, desired := NormalizeDesired(input, local);
      if !normal {
        return false, result;
      }
      var got, before := GetMembership();
      if !got {
        return false, result;
      }
      var valid := Validate(before, desired);
      if !valid {
        return false, result;
      }
      TidyTargets(input);
      ok, result := AddThenRemove(desired);
    }

    method AddThenRemove(desired: map<nat, string>) returns (ok: bool, result: SyncResult)
      requires Valid() && Compatible(view, desired) && Tidy(desired)
      modifies this
      ensures old(calls) <= calls && Valid() && SafeRun(desired, old(run), run)
      ensures Settles() && settled <= old(calls) ==> ok
      ensures AddedOnly(desired, old(view), view, result.added) && RemovedOnly(desired, old(view), view, result.removed)
      ensures ok ==> view == View(desired, old(view).removed + (old(view).nodes.Keys - desired.Keys))
      ensures ok ==> AddedAll(desired, old(view), result.added) && RemovedAll(desired, old(view), result.removed)
    {
      var done, added := AddMissing(desired);
      result := SyncResult(added, []);
      if !done {
        return false, result;
      }
      var got, mid := GetMembership();
      if !got {
        return false, result;
      }
      ghost var between := run;
      var gone, removed := RemoveExtra(desired);
      RunTrans(desired, old(run), between, run);
      PhasesAgree(desired, old(view), mid, view, added, removed);
      result := SyncResult(added, removed);
      if !gone {
        return false, result;
      }
      AllSettled(desired, old(view));
      var last, after := GetMembership();
      return last, result;
    }
  }

  // --- bookkeeping of the two loops ---

  predicate Tidy(desired: map<nat, string>) {
    forall id <- desired :: id != 0 && desired[id] != "" && Trim(desired[id]) == desired[id]
  }

  /** Every replica reported as added was missing and wanted, and is now there. */
  predicate AddedOnly(desired: map<nat, string>, v: View, w: View, added: seq<Replica>) {
    && (forall i, j | 0 <= i < j < |added| :: added[i].id < added[j].id)
    && forall i | 0 <= i < |added| ::
         var r := added[i]; r.id in desired && r.target == desired[r.id] && r.id !in v.nodes && r.id in w.nodes
  }

  predicate AddedAll(desired: map<nat, string>, v: View, added: seq<Replica>) {
    forall id <- desired :: id !in v.nodes ==> Replica(id, desired[id]) in added
  }

  predicate RemovedOnly(desired: map<nat, string>, v: View, w: View, removed: seq<nat>) {
    && Ascending(removed)
    && forall i | 0 <= i < |removed| :: removed[i] in v.nodes && removed[i] !in desired && removed[i] !in w.nodes
  }

  predicate RemovedAll(desired: map<nat, string>, v: View, removed: seq<nat>) {
    forall id <- v.nodes :: id !in desired ==> id in removed
  }

  predicate Adding(desired: map<nat, string>, v: View, ids: seq<nat>, k: nat, w: View, added: seq<Replica>) {
    && k == |added| <= |ids|
    && (forall j | 0 <= j < k :: ids[j] in desired && added[j] == Replica(ids[j], desired[ids[j]]))
    && w == View(Joined(v.nodes, desired, Elements(ids[..k])), v.removed)
  }

  predicate Removing(desired: map<nat, string>, v: View, ids: seq<nat>, k: nat, w: View, removed: seq<nat>) {
    k <= |ids| && removed == ids[..k] && w == Without(v, Elements(ids[..k]))
  }

  lemma ElementsAdd(ids: seq<nat>, k: nat)
    requires Ascending(ids) && k < |ids|
    ensures Elements(ids[..k + 1]) == Elements(ids[..k]) + {ids[k]} && ids[k] !in Elements(ids[..k])
  {
    assert ids[..k + 1] == ids[..k] + [ids[k]];
  }

  lemma AddReady(desired: map<nat, string>, v: View, ids: seq<nat>, k: nat, w: View, added: seq<Replica>)
    requires Ascending(ids) && k < |ids| && (forall id :: id in ids <==> id in desired && id !in v.nodes)
    requires Compatible(v, desired) && Tidy(desired) && Adding(desired, v, ids, k, w, added)
    ensures ids[k] in desired && ids[k] !in w.nodes && ids[k] !in w.removed
    ensures Trim(desired[ids[k]]) == desired[ids[k]] != "" && ids[k] != 0
  {
    assert ids[k] in ids;
    ElementsAdd(ids, k);
  }

  lemma JoinedAdd(nodes: map<nat, string>, desired: map<nat, string>, done: set<nat>, id: nat)
    requires id in desired
    ensures Joined(nodes, desired, done + {id}) == Joined(nodes, desired, done)[id := desired[id]]
  {
    var a, b := Joined(nodes, desired, done + {id}), Joined(nodes, desired, done)[id := desired[id]];
    assert a.Keys == b.Keys;
    assert forall x <- a :: a[x] == b[x];
  }

  lemma AddTurn(desired: map<nat, string>, v: View, ids: seq<nat>, k: nat, w: View, w': View, added: seq<Replica>)
    requires Ascending(ids) && k < |ids| && ids[k] in desired
    requires Adding(desired, v, ids, k, w, added) && Adds(w, w', ids[k], desired[ids[k]])
    ensures Adding(desired, v, ids, k + 1, w', added + [Replica(ids[k], desired[ids[k]])])
  {
    ElementsAdd(ids, k);
    JoinedAdd(v.nodes, desired, Elements(ids[..k]), ids[k]);
    var more := added + [Replica(ids[k], desired[ids[k]])];
    assert forall j | 0 <= j < k :: more[j] == added[j];
  }

  lemma AddingOnly(desired: map<nat, string>, v: View, ids: seq<nat>, k: nat, w: View, added: seq<Replica>)
    requires Ascending(ids) && (forall id :: id in ids <==> id in desired && id !in v.nodes)
    requires Adding(desired, v, ids, k, w, added)
    ensures AddedOnly(desired, v, w, added)
  {
    forall j | 0 <= j < k
      ensures ids[j] in w.nodes && ids[j] !in v.nodes
    {
      assert ids[j] in ids && ids[..k][j] == ids[j];
    }
  }

  lemma AddedStays(desired: map<nat, string>, v: View, w: View, w': View, added: seq<Replica>)
    requires AddedOnly(desired, v, w, added) && w.nodes.Keys <= w'.nodes.Keys
    ensures AddedOnly(desired, v, w', added)
  {
  }

  lemma AddMoves(desired: map<nat, string>, before: seq<View>, run: seq<View>, w: View, w': View, id: nat, run': seq<View>)
    requires SafeRun(desired, before, run) && run[|run| - 1] == w && id in desired
    requires (w' == w && run' == run) || (Adds(w, w', id, desired[id]) && run' == run + [w'])
    ensures SafeRun(desired, before, run')
  {
    if run' != run {
      assert SafeStep(desired, w, w');
      RunOne(desired, before, run, w');
    }
  }

  lemma AddDone(desired: map<nat, string>, v: View, ids: seq<nat>, w: View, added: seq<Replica>)
    requires Ascending(ids) && (forall id :: id in ids <==> id in desired && id !in v.nodes)
    requires Compatible(v, desired) && Adding(desired, v, ids, |ids|, w, added)
    ensures AddedOnly(desired, v, w, added) && AddedAll(desired, v, added) && w == View(v.nodes + desired, v.removed)
  {
    AddingOnly(desired, v, ids, |ids|, w, added);
    assert ids[..|ids|] == ids;
    assert w.nodes == v.nodes + desired;
    forall id <- desired | id !in v.nodes
      ensures Replica(id, desired[id]) in added
    {
      var j :| 0 <= j < |ids| && ids[j] == id;
      assert added[j] == Replica(id, desired[id]);
    }
  }

  lemma RemovingOnly(desired: map<nat, string>, v: View, ids: seq<nat>, k: nat, w: View, removed: seq<nat>)
    requires Ascending(ids) && (forall id :: id in ids <==> id in v.nodes && id !in desired)
    requires Removing(desired, v, ids, k, w, removed)
    ensures RemovedOnly(desired, v, w, removed)
  {
    forall j | 0 <= j < k
      ensures removed[j] in v.nodes && removed[j] !in desired && removed[j] !in w.nodes
    {
      assert removed[j] in ids && removed[j] in Elements(ids[..k]);
    }
  }

  lemma RemoveReady(desired: map<nat, string>, v: View, ids: seq<nat>, k: nat, w: View, removed: seq<nat>)
    requires (forall id :: id in ids <==> id in v.nodes && id !in desired)
    requires desired.Keys <= v.nodes.Keys && Removing(desired, v, ids, k, w, removed)
    ensures desired.Keys <= w.nodes.Keys
    ensures Ascending(ids) && k < |ids| ==> ids[k] !in desired && ids[k] in w.nodes
  {
    forall x | x in desired
      ensures x in w.nodes
    {
      assert x in Elements(ids[..k]) ==> x in ids;
    }
    if Ascending(ids) && k < |ids| {
      assert ids[k] in ids;
      ElementsAdd(ids, k);
    }
  }

  lemma RemoveTurn(desired: map<nat, string>, v: View, ids: seq<nat>, k: nat, w: View, w': View, removed: seq<nat>)
    requires Ascending(ids) && k < |ids| && Removing(desired, v, ids, k, w, removed) && Removes(w, w', ids[k])
    ensures Removing(desired, v, ids, k + 1, w', removed + [ids[k]])
  {
    ElementsAdd(ids, k);
    var next := Without(v, Elements(ids[..k + 1]));
    assert next.nodes == w'.nodes;
    assert next.removed == w'.removed;
  }

  lemma RemoveDone(desired: map<nat, string>, v: View, ids: seq<nat>, w: View, removed: seq<nat>)
    requires Ascending(ids) && (forall id :: id in ids <==> id in v.nodes && id !in desired)
    requires Removing(desired, v, ids, |ids|, w, removed)
    ensures RemovedOnly(desired, v, w, removed) && RemovedAll(desired, v, removed)
    ensures w == Without(v, v.nodes.Keys - desired.Keys)
  {
    RemovingOnly(desired, v, ids, |ids|, w, removed);
    assert ids[..|ids|] == ids;
    assert Elements(ids) == v.nodes.Keys - desired.Keys;
  }

  /** What the second phase does to what the first reported. */
  lemma PhasesAgree(desired: map<nat, string>, v: View, mid: View, w: View, added: seq<Replica>, removed: seq<nat>)
    requires mid == View(v.nodes + desired, v.removed) && AddedOnly(desired, v, mid, added)
    requires RemovedOnly(desired, mid, w, removed) && desired.Keys <= w.nodes.Keys
    ensures AddedOnly(desired, v, w, added) && RemovedOnly(desired, v, w, removed)
    ensures RemovedAll(desired, mid, removed) ==> RemovedAll(desired, v, removed)
  {
  }

  lemma AllSettled(desired: map<nat, string>, v: View)
    ensures Without(View(v.nodes + desired, v.removed), (v.nodes + desired).Keys - desired.Keys) == View(desired, v.removed + (v.nodes.Keys - desired.Keys))
  {
    var w := Without(View(v.nodes + desired, v.removed), (v.nodes + desired).Keys - desired.Keys);
    assert w.nodes == desired;
    assert (v.nodes + desired).Keys - desired.Keys == v.nodes.Keys - desired.Keys;
  }

  function Elements(s: seq<nat>): set<nat> {
    set id | id in s
  }

  function Without(v: View, ids: set<nat>): View {
    View(v.nodes - ids, v.removed + ids)
  }

  lemma TidyTargets(input: map<nat, string>)
    requires forall id <- input :: id != 0 && Trim(input[id]) != ""
    ensures Tidy(Normalized(input))
  {
    forall id <- input
      ensures Trim(Trim(input[id])) == Trim(input[id])
    {
      TrimFixes(input[id]);
      TrimFixes(Trim(input[id]));
    }
  }
}
