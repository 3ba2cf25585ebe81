/** Locations in listing order, and the sorted listings built from map iteration. */
module Order {
  import opened Names
  import opened Metadata

  /** Objects are collected bucket by bucket, key by key. */
  predicate LocLess(a: Loc, b: Loc) {
    Less(a.bucket, b.bucket) || (a.bucket == b.bucket && Less(a.key, b.key))
  }

  lemma {:induction false} LocLessOrder(a: Loc, b: Loc, c: Loc)
    ensures LocLess(a, b) || a == b || LocLess(b, a)
    ensures !LocLess(a, a)
    ensures LocLess(a, b) && LocLess(b, c) ==> LocLess(a, c)
  {
    LessTotal(a.bucket, b.bucket);
    LessTotal(a.key, b.key);
    LessTotal(a.bucket, a.bucket);
    LessTotal(a.key, a.key);
    if LocLess(a, b) && LocLess(b, c) {
      if Less(a.bucket, b.bucket) && Less(b.bucket, c.bucket) {
        LessTransitive(a.bucket, b.bucket, c.bucket);
      } else if a.bucket == b.bucket && b.bucket == c.bucket {
        LessTransitive(a.key, b.key, c.key);
      }
    }
  }

  lemma {:induction false} LeastLoc(s: set<Loc>) returns (l: Loc)
    requires s != {}
    ensures l in s && forall k <- s :: k == l || LocLess(l, k)
    decreases |s|
  {
    var x :| x in s;
    if s == {x} {
      l := x;
    } else {
      var y := LeastLoc(s - {x});
      LocLessOrder(x, y, x);
      l := if LocLess(x, y) then x else y;
      forall k | k in s
        ensures k == l || LocLess(l, k)
      {
        if k != x {
          LocLessOrder(x, y, k);
        }
      }
    }
  }

  predicate Ascending(s: seq<Loc>) {
    forall i, j | 0 <= i < j < |s| :: LocLess(s[i], s[j])
  }

  /** A strictly sorted sequence is determined by its elements, whatever order they came in. */
  lemma {:induction false} AscendingUnique(a: seq<Loc>, b: seq<Loc>)
    requires Ascending(a) && Ascending(b) && forall l :: l in a <==> l in b
    ensures a == b
    decreases |a|
  {
    assert b != [] ==> exists l :: l in b by {
      if b != [] { assert b[0] in b; }
    }
    if a != [] {
      assert a[0] in b;
      FirstIsLeast(a, b);
      FirstIsLeast(b, a);
      LocLessOrder(a[0], b[0], a[0]);
      AscendingTail(a);
      AscendingTail(b);
      AscendingUnique(a[1..], b[1..]);
      assert a == [a[0]] + a[1..] && b == [b[0]] + b[1..];
    }
  }

  lemma {:induction false} FirstIsLeast(a: seq<Loc>, b: seq<Loc>)
    requires a != [] && b != [] && Ascending(b) && a[0] in b
    ensures a[0] == b[0] || LocLess(b[0], a[0])
  {
  }

  lemma {:induction false} AscendingTail(a: seq<Loc>)
    requires Ascending(a) && a != []
    ensures Ascending(a[1..]) && forall l :: l in a[1..] <==> l in a && l != a[0]
  {
    LocLessOrder(a[0], a[0], a[0]);
    forall l | l in a && l != a[0]
      ensures l in a[1..]
    {
      var i :| 0 <= i < |a| && a[i] == l;
      assert a[1..][i - 1] == l;
    }
  }

  function Locs(ms: seq<ObjectMeta>): seq<Loc> {
    seq(|ms|, i requires 0 <= i < |ms| => ms[i].loc)
  }

  /** Where a sorted listing takes a new entry. */
  function Insert(ms: seq<ObjectMeta>, m: ObjectMeta): (r: seq<ObjectMeta>)
    ensures |r| == |ms| + 1
    ensures forall x :: x in r <==> x in ms || x == m
  {
    if ms == [] || LocLess(m.loc, ms[0].loc) then [m] + ms
    else
      var rest := Insert(ms[1..], m);
      assert ms == [ms[0]] + ms[1..];
      [ms[0]] + rest
  }

  predicate Sorted(ms: seq<ObjectMeta>) {
    forall i, j | 0 <= i < j < |ms| :: LocLess(ms[i].loc, ms[j].loc)
  }

  lemma {:induction false} InsertSorted(ms: seq<ObjectMeta>, m: ObjectMeta)
    requires Sorted(ms) && forall x <- ms :: x.loc != m.loc
    ensures Sorted(Insert(ms, m))
  {
    if ms != [] {
      LocLessOrder(m.loc, ms[0].loc, m.loc);
      var r := Insert(ms, m);
      if LocLess(m.loc, ms[0].loc) {
        forall j | 0 <= j < |ms|
          ensures LocLess(m.loc, ms[j].loc)
        {
          LocLessOrder(m.loc, ms[0].loc, ms[j].loc);
        }
      } else {
        InsertSorted(ms[1..], m);
        var rest := Insert(ms[1..], m);
        forall j | 0 <= j < |rest|
          ensures LocLess(ms[0].loc, rest[j].loc)
        {
          assert rest[j] in rest;
        }
      }
    }
  }

  predicate NamesSorted(s: seq<string>) {
    forall i, j | 0 <= i < j < |s| :: Less(s[i], s[j])
  }

  function InsertName(s: seq<string>, b: string): (r: seq<string>)
    ensures forall x :: x in r <==> x in s || x == b
  {
    if s == [] || Less(b, s[0]) then [b] + s
    else
      var rest := InsertName(s[1..], b);
      assert s == [s[0]] + s[1..];
      [s[0]] + rest
  }

  lemma {:induction false} InsertNameSorted(s: seq<string>, b: string)
    requires NamesSorted(s) && b !in s
    ensures NamesSorted(InsertName(s, b))
  {
    if s != [] {
      LessTotal(b, s[0]);
      if Less(b, s[0]) {
        forall j | 0 < j < |s|
          ensures Less(b, s[j])
        {
          LessTransitive(b, s[0], s[j]);
        }
      } else {
        InsertNameSorted(s[1..], b);
        var rest := InsertName(s[1..], b);
        forall j | 0 <= j < |rest|
          ensures Less(s[0], rest[j])
        {
          assert rest[j] in rest;
        }
      }
    }
  }
}
