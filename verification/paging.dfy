/** Paging through the parts of an upload by number and through uploads by key and upload id. */
module Paging {
  import opened Names
  import opened Multipart

  datatype Page<+T> = Page(items: seq<T>, truncated: bool)

  /** The first items of what is left, and whether anything remains. */
  function Cut<T>(rest: seq<T>, max: nat): Page<T> {
    if |rest| <= max then Page(rest, false) else Page(rest[..max], true)
  }

  /** Asking from the marker of a listed item lists exactly what followed it. */
  ghost predicate Resumes<T(!new), M(!new)>(list: M -> seq<T>, mark: T -> M) {
    forall m, i | 0 <= i < |list(m)| :: list(mark(list(m)[i])) == list(m)[i + 1..]
  }

  /** The pages a client sees that follows the markers to the end. */
  ghost function Walk<T(!new), M(!new)>(list: M -> seq<T>, mark: T -> M, max: nat, m: M): (pages: seq<Page<T>>)
    requires max >= 1 && Resumes(list, mark)
    decreases |list(m)|
  {
    var page := Cut(list(m), max);
    if !page.truncated then [page] else [page] + Walk(list, mark, max, mark(page.items[max - 1]))
  }

  function Items<T>(pages: seq<Page<T>>): seq<T> {
    if pages == [] then [] else pages[0].items + Items(pages[1..])
  }

  predicate FullPages<T>(pages: seq<Page<T>>, max: nat) {
    && pages != [] && |pages[0].items| <= max && pages[0].truncated == (|pages| > 1)
    && (|pages| > 1 ==> |pages[0].items| == max && FullPages(pages[1..], max))
  }

  /** Following the markers yields every item exactly once and in order, and every page but the
      last is full. */
  lemma {:induction false} WalkListsAll<T(!new), M(!new)>(list: M -> seq<T>, mark: T -> M, max: nat, m: M)
    requires max >= 1 && Resumes(list, mark)
    ensures Items(Walk(list, mark, max, m)) == list(m) && FullPages(Walk(list, mark, max, m), max)
    decreases |list(m)|
  {
    var rest := list(m);
    var page := Cut(rest, max);
    if page.truncated {
      var next := mark(page.items[max - 1]);
      assert page.items[max - 1] == rest[max - 1];
      assert list(next) == rest[max..];
      WalkListsAll(list, mark, max, next);
      assert ([page] + Walk(list, mark, max, next))[1..] == Walk(list, mark, max, next);
      assert rest == rest[..max] + rest[max..];
    } else {
      assert [page][1..] == [];
    }
  }

  // --- filtering a sorted sequence ---

  function Filter<T>(p: T -> bool, s: seq<T>): seq<T> {
    if s == [] then [] else (if p(s[0]) then [s[0]] else []) + Filter(p, s[1..])
  }

  predicate Ordered<T>(less: (T, T) -> bool, s: seq<T>) {
    forall i, j | 0 <= i < j < |s| :: less(s[i], s[j]) && !less(s[j], s[i])
  }

  lemma {:induction false} FilterSame<T>(p: T -> bool, q: T -> bool, s: seq<T>)
    requires forall i | 0 <= i < |s| :: p(s[i]) == q(s[i])
    ensures Filter(p, s) == Filter(q, s)
  {
    if s != [] {
      FilterSame(p, q, s[1..]);
    }
  }

  lemma {:induction false} FilterMembers<T>(p: T -> bool, s: seq<T>)
    ensures forall x :: x in Filter(p, s) <==> x in s && p(x)
  {
    if s != [] {
      FilterMembers(p, s[1..]);
      assert s == [s[0]] + s[1..];
    }
  }

  lemma {:induction false} FilterIndex<T>(p: T -> bool, s: seq<T>, i: nat) returns (k: nat)
    requires i < |Filter(p, s)|
    ensures k < |s| && s[k] == Filter(p, s)[i] && p(s[k])
  {
    if p(s[0]) && i == 0 {
      k := 0;
    } else {
      k := FilterIndex(p, s[1..], if p(s[0]) then i - 1 else i);
      k := k + 1;
    }
  }

  /** Narrowing a filter to what lies beyond one of its items leaves what followed that item. */
  lemma {:induction false} FilterResumes<T>(less: (T, T) -> bool, p: T -> bool, q: T -> bool, s: seq<T>, i: nat)
    requires Ordered(less, s) && i < |Filter(p, s)| && !less(Filter(p, s)[i], Filter(p, s)[i])
    requires forall k | 0 <= k < |s| :: q(s[k]) <==> p(s[k]) && less(Filter(p, s)[i], s[k])
    ensures Filter(q, s) == Filter(p, s)[i + 1..]
  {
    var h, t := s[0], s[1..];
    var x := Filter(p, s)[i];
    OrderedTail(less, s);
    if p(h) {
      if i == 0 {
        FilterSame(p, q, t);
      } else {
        assert x == Filter(p, t)[i - 1];
        var k := FilterIndex(p, t, i - 1);
        assert s[k + 1] == x;
        FilterResumes(less, p, q, t, i - 1);
      }
    } else {
      FilterResumes(less, p, q, t, i);
    }
  }

  lemma OrderedTail<T>(less: (T, T) -> bool, s: seq<T>)
    requires s != [] && Ordered(less, s)
    ensures Ordered(less, s[1..]) && forall k | 0 <= k < |s[1..]| :: s[1..][k] == s[k + 1]
  {
  }

  function Insert<T>(less: (T, T) -> bool, s: seq<T>, x: T): seq<T> {
    if s == [] || less(x, s[0]) then [x] + s else [s[0]] + Insert(less, s[1..], x)
  }

  lemma {:induction false} InsertMembers<T>(less: (T, T) -> bool, s: seq<T>, x: T)
    ensures forall y :: y in Insert(less, s, x) <==> y in s || y == x
  {
    if s != [] && !less(x, s[0]) {
      InsertMembers(less, s[1..], x);
      assert s == [s[0]] + s[1..];
    }
  }

  // --- parts ---

  predicate PartLess(a: Part, b: Part) {
    a.number < b.number
  }

  predicate Numbered(parts: map<nat, Part>) {
    forall n <- parts :: parts[n].number == n
  }

  lemma {:induction false} InsertPart(s: seq<Part>, x: Part)
    requires Ordered(PartLess, s) && forall y <- s :: y.number != x.number
    ensures Ordered(PartLess, Insert(PartLess, s, x))
  {
    if s != [] && !PartLess(x, s[0]) {
      assert forall y <- s[1..] :: y in s;
      InsertPart(s[1..], x);
      InsertMembers(PartLess, s[1..], x);
      var rest := Insert(PartLess, s[1..], x);
      forall j | 0 <= j < |rest|
        ensures s[0].number < rest[j].number
      {
        assert rest[j] in rest && s[0] in s;
      }
    }
  }

  /** sortedMultipartParts: the parts of an upload in ascending order. */
  method SortedParts(parts: map<nat, Part>) returns (r: seq<Part>)
    requires Numbered(parts)
    ensures Ordered(PartLess, r) && forall p :: p in r <==> p.number in parts && parts[p.number] == p
  {
    r := [];
    var rest := parts.Keys;
    while rest != {}
      invariant rest <= parts.Keys && Ordered(PartLess, r)
      invariant forall p :: p in r <==> p.number in parts && p.number !in rest && parts[p.number] == p
      decreases |rest|
    {
      var n :| n in rest;
      InsertPart(r, parts[n]);
      InsertMembers(PartLess, r, parts[n]);
      r := Insert(PartLess, r, parts[n]);
      rest := rest - {n};
    }
  }

  function PartsAfter(parts: seq<Part>, marker: int): seq<Part> {
    Filter((p: Part) => p.number > marker, parts)
  }

  function PartsFrom(parts: seq<Part>): int -> seq<Part> {
    m => PartsAfter(parts, m)
  }

  function NumberOf(p: Part): int {
    p.number
  }

  /** paginateMultipartParts. */
  method PaginateParts(parts: seq<Part>, marker: nat, max: nat) returns (page: seq<Part>, next: nat, truncated: bool)
    requires max >= 1
    ensures Page(page, truncated) == Cut(PartsAfter(parts, marker), max)
    ensures next == if truncated then page[max - 1].number else 0
  {
    var filtered: seq<Part> := [];
    for k := 0 to |parts|
      invariant filtered + PartsAfter(parts[k..], marker) == PartsAfter(parts, marker)
    {
      assert parts[k..][0] == parts[k] && parts[k..][1..] == parts[k + 1..];
      if parts[k].number > marker {
        assert filtered + ([parts[k]] + PartsAfter(parts[k + 1..], marker)) == filtered + [parts[k]] + PartsAfter(parts[k + 1..], marker);
        filtered := filtered + [parts[k]];
      }
    }
    assert parts[|parts|..] == [] && filtered + [] == filtered;
    if |filtered| <= max {
      return filtered, 0, false;
    }
    page := filtered[..max];
    return page, page[max - 1].number, true;
  }

  /** Paging by part number never skips or repeats a part. */
  lemma {:induction false} PartsResume(parts: seq<Part>)
    requires Ordered(PartLess, parts)
    ensures Resumes(PartsFrom(parts), NumberOf)
  {
    var list, mark := PartsFrom(parts), NumberOf;
    forall m: int, i | 0 <= i < |list(m)|
      ensures list(mark(list(m)[i])) == list(m)[i + 1..]
    {
      var x := list(m)[i];
      FilterMembers((p: Part) => p.number > m, parts);
      assert x in list(m);
      FilterResumes(PartLess, (p: Part) => p.number > m, (p: Part) => p.number > x.number, parts, i);
    }
  }

  lemma {:induction false} PartPages(parts: seq<Part>, max: nat, marker: int)
    requires Ordered(PartLess, parts) && max >= 1
    ensures Resumes(PartsFrom(parts), NumberOf)
    ensures var pages := Walk(PartsFrom(parts), NumberOf, max, marker);
      Items(pages) == PartsAfter(parts, marker) && FullPages(pages, max)
  {
    PartsResume(parts);
    WalkListsAll(PartsFrom(parts), NumberOf, max, marker);
  }

  // --- uploads ---

  predicate UploadLess(a: Upload, b: Upload) {
    if a.key == b.key then Less(a.id, b.id) else Less(a.key, b.key)
  }

  lemma {:induction false} UploadOrder(a: Upload, b: Upload, c: Upload)
    ensures !UploadLess(a, a)
    ensures UploadLess(a, b) ==> !UploadLess(b, a)
    ensures UploadLess(a, b) || UploadLess(b, a) || (a.key == b.key && a.id == b.id)
    ensures UploadLess(a, b) && UploadLess(b, c) ==> UploadLess(a, c)
  {
    LessTotal(a.key, b.key);
    LessTotal(a.id, b.id);
    LessTotal(b.key, c.key);
    LessTotal(a.key, a.key);
    LessTotal(a.id, a.id);
    if Less(a.key, b.key) && Less(b.key, c.key) {
      LessTransitive(a.key, b.key, c.key);
      LessTotal(a.key, c.key);
    }
    if Less(a.id, b.id) && Less(b.id, c.id) {
      LessTransitive(a.id, b.id, c.id);
    }
  }

  datatype Marker = Marker(key: string, id: string)

  /** multipartUploadAfterMarker. */
  predicate AfterMarker(u: Upload, m: Marker) {
    m.key == "" || Less(m.key, u.key) || (u.key == m.key && m.id != "" && Less(m.id, u.id))
  }

  predicate Shown(prefix: string, m: Marker, u: Upload) {
    prefix <= u.key && AfterMarker(u, m)
  }

  function UploadsAfter(uploads: seq<Upload>, prefix: string, m: Marker): seq<Upload> {
    Filter((u: Upload) => Shown(prefix, m, u), uploads)
  }

  function UploadsFrom(uploads: seq<Upload>, prefix: string): Marker -> seq<Upload> {
    m => UploadsAfter(uploads, prefix, m)
  }

  function MarkOf(u: Upload): Marker {
    Marker(u.key, u.id)
  }

  predicate Named(u: Upload) {
    u.key != "" && u.id != ""
  }

  /** The marker of an upload stands exactly between it and the ones behind it. */
  lemma {:induction false} MarkSeparates(prefix: string, m: Marker, x: Upload, y: Upload)
    requires Named(x) && Shown(prefix, m, x)
    ensures Shown(prefix, MarkOf(x), y) <==> Shown(prefix, m, y) && UploadLess(x, y)
  {
    LessTotal(x.key, y.key);
    if UploadLess(x, y) && m.key != "" {
      if Less(m.key, x.key) && Less(x.key, y.key) {
        LessTransitive(m.key, x.key, y.key);
      } else if x.key == m.key && y.key == x.key {
        LessTransitive(m.id, x.id, y.id);
      }
    }
  }

  lemma {:induction false} UploadsResume(uploads: seq<Upload>, prefix: string)
    requires Ordered(UploadLess, uploads) && forall u <- uploads :: Named(u)
    ensures Resumes(UploadsFrom(uploads, prefix), MarkOf)
  {
    var list := UploadsFrom(uploads, prefix);
    forall m: Marker, i | 0 <= i < |list(m)|
      ensures list(MarkOf(list(m)[i])) == list(m)[i + 1..]
    {
      var x := list(m)[i];
      FilterMembers((u: Upload) => Shown(prefix, m, u), uploads);
      assert x in list(m);
      UploadOrder(x, x, x);
      forall k | 0 <= k < |uploads|
        ensures Shown(prefix, MarkOf(x), uploads[k]) <==> Shown(prefix, m, uploads[k]) && UploadLess(x, uploads[k])
      {
        MarkSeparates(prefix, m, x, uploads[k]);
      }
      FilterResumes(UploadLess, (u: Upload) => Shown(prefix, m, u), (u: Upload) => Shown(prefix, MarkOf(x), u), uploads, i);
    }
  }

  /** Paging by (key, upload id) yields every matching upload once and in order. */
  lemma {:induction false} UploadPages(uploads: seq<Upload>, prefix: string, max: nat, start: Marker)
    requires Ordered(UploadLess, uploads) && max >= 1 && forall u <- uploads :: Named(u)
    ensures Resumes(UploadsFrom(uploads, prefix), MarkOf)
    ensures var pages := Walk(UploadsFrom(uploads, prefix), MarkOf, max, start);
      Items(pages) == UploadsAfter(uploads, prefix, start) && FullPages(pages, max)
  {
    UploadsResume(uploads, prefix);
    WalkListsAll(UploadsFrom(uploads, prefix), MarkOf, max, start);
  }

  /** filterMultipartUploads and paginateMultipartUploads. */
  method PaginateUploads(uploads: seq<Upload>, prefix: string, m: Marker, max: nat) returns (page: seq<Upload>, next: Marker, truncated: bool)
    requires max >= 1
    ensures Page(page, truncated) == Cut(UploadsAfter(uploads, prefix, m), max)
    ensures next == if truncated then MarkOf(page[max - 1]) else Marker("", "")
  {
    var filtered := FilterUploads(uploads, prefix, m);
    if |filtered| <= max {
      return filtered, Marker("", ""), false;
    }
    page := filtered[..max];
    return page, MarkOf(page[max - 1]), true;
  }

  method FilterUploads(uploads: seq<Upload>, prefix: string, m: Marker) returns (filtered: seq<Upload>)
    ensures filtered == UploadsAfter(uploads, prefix, m)
  {
    filtered := [];
    for k := 0 to |uploads|
      invariant filtered == UploadsAfter(uploads[..k], prefix, m)
    {
      assert uploads[..k + 1] == uploads[..k] + [uploads[k]];
      FilterSnoc(u => Shown(prefix, m, u), uploads[..k], uploads[k]);
      if Shown(prefix, m, uploads[k]) {
        filtered := filtered + [uploads[k]];
      }
    }
    assert uploads[..|uploads|] == uploads;
  }

  lemma {:induction false} FilterSnoc<T>(p: T -> bool, s: seq<T>, x: T)
    ensures Filter(p, s + [x]) == Filter(p, s) + if p(x) then [x] else []
  {
    if s == [] {
      assert s + [x] == [x] && [x][1..] == [];
    } else {
      assert (s + [x])[0] == s[0] && (s + [x])[1..] == s[1..] + [x];
      FilterSnoc(p, s[1..], x);
    }
  }

  lemma {:induction false} InsertUpload(s: seq<Upload>, x: Upload)
    requires Ordered(UploadLess, s) && forall y <- s :: y.id != x.id
    ensures Ordered(UploadLess, Insert(UploadLess, s, x))
  {
    if s != [] {
      UploadOrder(x, s[0], x);
      assert s[0] in s;
      if UploadLess(x, s[0]) {
        forall j | 0 <= j < |s|
          ensures UploadLess(x, s[j]) && !UploadLess(s[j], x)
        {
          UploadOrder(x, s[0], s[j]);
          UploadOrder(x, s[j], x);
        }
      } else {
        assert forall y <- s[1..] :: y in s;
        InsertUpload(s[1..], x);
        InsertMembers(UploadLess, s[1..], x);
        var rest := Insert(UploadLess, s[1..], x);
        forall j | 0 <= j < |rest|
          ensures UploadLess(s[0], rest[j]) && !UploadLess(rest[j], s[0])
        {
          assert rest[j] in rest;
          UploadOrder(s[0], rest[j], s[0]);
        }
      }
    }
  }

  /** listBucket: the uploads of a bucket, sorted by key and then by id. */
  method ListBucket(uploads: map<string, Upload>, bucket: string) returns (r: seq<Upload>)
    requires forall id <- uploads :: uploads[id].id == id
    ensures Ordered(UploadLess, r)
    ensures forall u :: u in r <==> u.id in uploads && uploads[u.id] == u && u.bucket == bucket
  {
    r := [];
    var rest := uploads.Keys;
    while rest != {}
      invariant rest <= uploads.Keys && Ordered(UploadLess, r)
      invariant forall u :: u in r <==> u.id in uploads && u.id !in rest && uploads[u.id] == u && u.bucket == bucket
      decreases |rest|
    {
      var id :| id in rest;
      if uploads[id].bucket == bucket {
        InsertUpload(r, uploads[id]);
        InsertMembers(UploadLess, r, uploads[id]);
        r := Insert(UploadLess, r, uploads[id]);
      }
      rest := rest - {id};
    }
  }
}
