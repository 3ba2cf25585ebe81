/** ListObjectsV2: one page of a bucket's listing, and what following the tokens yields. */
module Listing {
  import opened Names
  import opened Metadata
  import StateMachine

  /** Base64 of the last key, taken as any lossless code. */
  datatype TokenCode = TokenCode(encode: string -> string, decode: string -> string)

  ghost predicate Lossless(code: TokenCode) {
    forall k: string :: k != "" ==> code.encode(k) != "" && code.decode(code.encode(k)) == k
  }

  datatype Options = Options(prefix: string, maxKeys: nat, token: string, startAfter: string, delimiter: string)

  function Cursor(code: TokenCode, o: Options): string {
    if o.token != "" then code.decode(o.token) else o.startAfter
  }

  predicate OccursAt(s: string, sub: string, i: int) {
    0 <= i && i + |sub| <= |s| && s[i..i + |sub|] == sub
  }

  /** strings.Index: the first occurrence, or -1. */
  function Index(s: string, sub: string): (r: int)
    ensures r == -1 || OccursAt(s, sub, r)
    ensures forall j | 0 <= j < (if r == -1 then |s| + 1 else r) :: !OccursAt(s, sub, j)
  {
    IndexFrom(s, sub, 0)
  }

  function IndexFrom(s: string, sub: string, i: nat): (r: int)
    requires i <= |s| + 1
    ensures r == -1 || (i <= r && OccursAt(s, sub, r))
    ensures forall j | i <= j < (if r == -1 then |s| + 1 else r) :: !OccursAt(s, sub, j)
    decreases |s| + 1 - i
  {
    if i > |s| then -1 else if OccursAt(s, sub, i) then i else IndexFrom(s, sub, i + 1)
  }

  function TrimPrefix(s: string, prefix: string): string {
    if prefix <= s then s[|prefix|..] else s
  }

  /** A key is listed itself or rolled up into a common prefix. */
  datatype Entry = Plain | Rolled(prefix: string)

  function EntryOf(prefix: string, delimiter: string, key: string): Entry {
    if delimiter == "" then Plain
    else
      var remaining := TrimPrefix(key, prefix);
      var i := Index(remaining, delimiter);
      if i >= 0 then Rolled(prefix + remaining[..i + |delimiter|]) else Plain
  }

  /** A key under the prefix is rolled up exactly when the delimiter occurs behind the prefix, and
      then into the shortest extension of the prefix that ends in the delimiter. */
  lemma RolledUp(prefix: string, d: string, rest: string)
    requires d != ""
    ensures var e := EntryOf(prefix, d, prefix + rest); var n := Index(rest, d);
      && (e.Plain? <==> forall i | 0 <= i :: !OccursAt(rest, d, i))
      && (e.Rolled? ==> 0 <= n && e.prefix == prefix + rest[..n] + d && OccursAt(rest, d, n))
      && (e.Rolled? ==> forall i | 0 <= i < n :: !OccursAt(rest, d, i))
  {
    assert TrimPrefix(prefix + rest, prefix) == rest;
    var n := Index(rest, d);
    if n >= 0 {
      assert rest[..n + |d|] == rest[..n] + d;
      assert prefix + rest[..n + |d|] == prefix + rest[..n] + d;
    }
  }

  /** How a listing shows keys and how many of them: all that a page depends on besides the cursor. */
  datatype Rules = Rules(maxKeys: nat, entry: string -> Entry)

  function RulesOf(o: Options): Rules {
    RulesFor(o.maxKeys, o.prefix, o.delimiter)
  }

  function RulesFor(maxKeys: nat, prefix: string, delimiter: string): Rules {
    Rules(maxKeys, key => EntryOf(prefix, delimiter, key))
  }

  // --- one page ---

  /** The answer, with the key of the last object it took in. */
  datatype Page = Page(contents: seq<ObjectMeta>, prefixes: seq<string>, truncated: bool, last: string)

  const EmptyPage := Page([], [], false, "")

  function KeyCount(p: Page): nat {
    |p.contents| + |p.prefixes|
  }

  predicate Full(r: Rules, p: Page) {
    r.maxKeys == 0 || KeyCount(p) >= r.maxKeys
  }

  predicate Repeats(r: Rules, p: Page, key: string) {
    var e := r.entry(key);
    e.Rolled? && e.prefix in p.prefixes
  }

  function Include(r: Rules, p: Page, m: ObjectMeta): Page {
    match r.entry(m.loc.key)
    case Plain => p.(contents := p.contents + [m], last := m.loc.key)
    case Rolled(x) => p.(prefixes := p.prefixes + [x], last := m.loc.key)
  }

  /** The rest of a page, once the cursor is behind. */
  function Fill(r: Rules, ms: seq<ObjectMeta>, p: Page): Page
    decreases |ms|
  {
    if ms == [] then p
    else if Repeats(r, p, ms[0].loc.key) then Fill(r, ms[1..], p)
    else if Full(r, p) then p.(truncated := true)
    else Fill(r, ms[1..], Include(r, p, ms[0]))
  }

  /** Objects at or before the cursor are passed over; no cursor passes over nothing. */
  predicate Behind(cursor: string, m: ObjectMeta) {
    cursor != "" && AtMost(m.loc.key, cursor)
  }

  /** How many objects the cursor passes over. */
  function Skipped(cursor: string, ms: seq<ObjectMeta>): (n: nat)
    ensures n <= |ms|
  {
    if ms == [] || !Behind(cursor, ms[0]) then 0 else 1 + Skipped(cursor, ms[1..])
  }

  function After(cursor: string, ms: seq<ObjectMeta>): seq<ObjectMeta> {
    ms[Skipped(cursor, ms)..]
  }

  /** Objects of one bucket, strictly sorted by key, none empty. */
  predicate Strict(ms: seq<ObjectMeta>) {
    && (forall i, j | 0 <= i < j < |ms| :: Less(ms[i].loc.key, ms[j].loc.key))
    && forall m <- ms :: m.loc.key != ""
  }

  /** What the metadata lists for a bucket is of that kind. */
  lemma ListingStrict(buckets: map<string, Bucket>, entries: map<Loc, ObjectMeta>, bucket: string, prefix: string, ms: seq<ObjectMeta>)
    requires EntriesOk(buckets, entries, Committed)
    requires StateMachine.IsListing(entries, bucket, prefix, false, ms)
    ensures Strict(ms) && forall m <- ms :: prefix <= m.loc.key
  {
    forall i | 0 <= i < |ms|
      ensures ms[i].loc.bucket == bucket && ms[i].loc.key != ""
    {
      assert ms[i] in ms;
      assert EntryOk(buckets, ms[i].loc, ms[i], Committed);
    }
    forall i, j | 0 <= i < j < |ms|
      ensures Less(ms[i].loc.key, ms[j].loc.key)
    {
      LessTotal(bucket, bucket);
    }
  }

  /** In a sorted listing the cursor cuts once: everything behind it comes before everything after. */
  lemma {:induction false} AfterCuts(cursor: string, ms: seq<ObjectMeta>)
    requires Strict(ms)
    ensures forall i | 0 <= i < |ms| :: Behind(cursor, ms[i]) <==> i < Skipped(cursor, ms)
  {
    if ms != [] {
      if Behind(cursor, ms[0]) {
        AfterCuts(cursor, ms[1..]);
        forall i | 0 < i < |ms|
          ensures Behind(cursor, ms[i]) <==> i < Skipped(cursor, ms)
        {
          assert ms[i] == ms[1..][i - 1];
        }
      } else {
        forall i | 0 < i < |ms|
          ensures !Behind(cursor, ms[i])
        {
          if cursor != "" {
            LessTransitive(cursor, ms[0].loc.key, ms[i].loc.key);
          }
        }
      }
    }
  }

  /** The cursor of the last object taken leaves exactly what follows it. */
  lemma {:induction false} AfterKey(ms: seq<ObjectMeta>, n: nat)
    requires Strict(ms) && n < |ms|
    ensures After(ms[n].loc.key, ms) == ms[n + 1..]
  {
    var key := ms[n].loc.key;
    assert ms[n] in ms;
    AfterCuts(key, ms);
    LessTotal(key, key);
    assert Behind(key, ms[n]);
    if n + 1 < |ms| {
      assert Less(key, ms[n + 1].loc.key);
      assert !Behind(key, ms[n + 1]);
    }
  }

  class PageBuilder {
    var contents: seq<ObjectMeta>
    var prefixes: seq<string>
    var keyCount: nat
    var truncated: bool
    /** seenPrefixes. */
    var seen: set<string>

    ghost predicate Shows(p: Page)
      reads this
    {
      && contents == p.contents && prefixes == p.prefixes && truncated == p.truncated
      && keyCount == KeyCount(p) && (!truncated ==> forall x :: x in seen <==> x in prefixes)
    }

    constructor ()
      ensures Shows(EmptyPage)
    {
      contents, prefixes, keyCount, truncated, seen := [], [], 0, false, {};
    }

    /** addObject: pass over, stop, or take the object in. */
    method AddObject(r: Rules, m: ObjectMeta, cursor: string, ghost p: Page) returns (included: bool, done: bool)
      requires Shows(p) && !truncated
      modifies this
      ensures included <==> !Behind(cursor, m) && !Repeats(r, p, m.loc.key) && !Full(r, p)
      ensures done <==> !Behind(cursor, m) && !Repeats(r, p, m.loc.key) && Full(r, p)
      ensures Shows(if done then p.(truncated := true) else if included then Include(r, p, m) else p)
    {
      if cursor != "" && AtMost(m.loc.key, cursor) {
        return false, false;
      }
      var entry := r.entry(m.loc.key);
      if entry.Rolled? {
        if entry.prefix in seen {
          return false, false;
        }
        seen := seen + {entry.prefix};
      }
      if r.maxKeys == 0 || keyCount >= r.maxKeys {
        truncated := true;
        return false, true;
      }
      match entry {
        case Plain => contents := contents + [m];
        case Rolled(x) => prefixes := prefixes + [x];
      }
      keyCount := keyCount + 1;
      return true, false;
    }
  }

  function PageOf(r: Rules, cursor: string, ms: seq<ObjectMeta>): Page {
    Fill(r, After(cursor, ms), EmptyPage)
  }

  /** paginateObjectsV2: a page and the token for the next. */
  method Paginate(code: TokenCode, o: Options, ms: seq<ObjectMeta>) returns (page: Page, next: string)
    requires Strict(ms)
    ensures page == PageOf(RulesOf(o), Cursor(code, o), ms)
    ensures next == if page.truncated && page.last != "" then code.encode(page.last) else ""
  {
    page := Collect(RulesOf(o), Cursor(code, o), ms);
    next := if page.truncated && page.last != "" then code.encode(page.last) else "";
  }

  /** The page so far, and what is still to come, make up the page. */
  predicate Along(r: Rules, cursor: string, ms: seq<ObjectMeta>, i: nat, p: Page)
    requires i <= |ms|
  {
    var n := Skipped(cursor, ms);
    (i <= n ==> p == EmptyPage) && Fill(r, ms[if i <= n then n else i..], p) == PageOf(r, cursor, ms)
  }

  lemma AlongStep(r: Rules, cursor: string, ms: seq<ObjectMeta>, i: nat, p: Page)
    requires Strict(ms) && i < |ms| && Along(r, cursor, ms, i, p)
    ensures Behind(cursor, ms[i]) || Repeats(r, p, ms[i].loc.key) ==> Along(r, cursor, ms, i + 1, p)
    ensures !Behind(cursor, ms[i]) && !Repeats(r, p, ms[i].loc.key) ==>
      if Full(r, p) then p.(truncated := true) == PageOf(r, cursor, ms) else Along(r, cursor, ms, i + 1, Include(r, p, ms[i]))
  {
    AfterCuts(cursor, ms);
    var n := Skipped(cursor, ms);
    if i >= n {
      assert ms[i..][1..] == ms[i + 1..] && ms[i..][0] == ms[i];
    }
  }

  method Collect(r: Rules, cursor: string, ms: seq<ObjectMeta>) returns (page: Page)
    requires Strict(ms)
    ensures page == PageOf(r, cursor, ms)
  {
    var b := new PageBuilder();
    var last := "";
    ghost var p := EmptyPage;
    AfterCuts(cursor, ms);
    for i := 0 to |ms|
      invariant b.Shows(p) && !p.truncated && p.last == last && Along(r, cursor, ms, i, p)
    {
      AlongStep(r, cursor, ms, i, p);
      var included, done := b.AddObject(r, ms[i], cursor, p);
      if done {
        return Page(b.contents, b.prefixes, b.truncated, last);
      }
      if included {
        last := ms[i].loc.key;
        p := Include(r, p, ms[i]);
      }
    }
    page := Page(b.contents, b.prefixes, b.truncated, last);
  }

  // --- what a page covers ---

  function Plains(r: Rules, ms: seq<ObjectMeta>): seq<ObjectMeta> {
    if ms == [] then []
    else (if r.entry(ms[0].loc.key).Plain? then [ms[0]] else []) + Plains(r, ms[1..])
  }

  function Prefixes(r: Rules, ms: seq<ObjectMeta>): set<string> {
    set m | m in ms && r.entry(m.loc.key).Rolled? :: r.entry(m.loc.key).prefix
  }

  function Elements(s: seq<string>): set<string> {
    set x | x in s
  }

  predicate Distinct(s: seq<string>) {
    forall i, j | 0 <= i < j < |s| :: s[i] != s[j]
  }

  lemma {:induction false} PlainsThen(r: Rules, a: seq<ObjectMeta>, b: seq<ObjectMeta>)
    ensures Plains(r, a + b) == Plains(r, a) + Plains(r, b)
    ensures Prefixes(r, a + b) == Prefixes(r, a) + Prefixes(r, b)
  {
    if a == [] {
      assert a + b == b;
    } else {
      assert (a + b)[1..] == a[1..] + b;
      PlainsThen(r, a[1..], b);
    }
    forall m
      ensures m in a + b <==> m in a || m in b
    {
    }
  }

  /** The page shows exactly what the objects taken so far amount to. */
  predicate Covers(r: Rules, p: Page, taken: seq<ObjectMeta>) {
    && p.contents == Plains(r, taken) && Elements(p.prefixes) == Prefixes(r, taken) && Distinct(p.prefixes)
    && Marked(r, p, taken)
  }

  predicate Marked(r: Rules, p: Page, taken: seq<ObjectMeta>) {
    && (taken == [] ==> p.last == "" && KeyCount(p) == 0)
    && (taken != [] ==> p.last == taken[|taken| - 1].loc.key && KeyCount(p) >= 1)
    && KeyCount(p) <= r.maxKeys
  }

  /** Objects that change nothing a page shows. */
  predicate Passes(r: Rules, taken: seq<ObjectMeta>, passed: seq<ObjectMeta>) {
    Plains(r, passed) == [] && Prefixes(r, passed) <= Prefixes(r, taken)
  }

  lemma {:induction false} OneObject(r: Rules, m: ObjectMeta)
    ensures var e := r.entry(m.loc.key);
      && Plains(r, [m]) == (if e.Plain? then [m] else [])
      && Prefixes(r, [m]) == if e.Rolled? then {e.prefix} else {}
  {
    assert Plains(r, [m][1..]) == [];
    assert forall x :: x in [m] <==> x == m;
  }

  lemma {:induction false} IncludeCovers(r: Rules, p: Page, taken: seq<ObjectMeta>, passed: seq<ObjectMeta>, m: ObjectMeta)
    requires Covers(r, p, taken) && Passes(r, taken, passed) && !Repeats(r, p, m.loc.key) && !Full(r, p)
    ensures Covers(r, Include(r, p, m), taken + passed + [m])
  {
    var all := taken + passed;
    PlainsThen(r, taken, passed);
    PlainsThen(r, all, [m]);
    OneObject(r, m);
    assert Plains(r, all) == p.contents && Prefixes(r, all) == Elements(p.prefixes);
    assert Marked(r, Include(r, p, m), all + [m]);
    var e := r.entry(m.loc.key);
    if e.Rolled? {
      Extend(p.prefixes, e.prefix);
    }
  }

  lemma Extend(s: seq<string>, x: string)
    requires Distinct(s) && x !in s
    ensures Distinct(s + [x]) && Elements(s + [x]) == Elements(s) + {x}
  {
  }

  /** An object passed over as a repeat adds nothing to what was taken. */
  lemma {:induction false} RepeatPasses(r: Rules, p: Page, taken: seq<ObjectMeta>, passed: seq<ObjectMeta>, m: ObjectMeta)
    requires Covers(r, p, taken) && Passes(r, taken, passed) && Repeats(r, p, m.loc.key)
    ensures Passes(r, taken, passed + [m])
  {
    OneObject(r, m);
    PlainsThen(r, passed, [m]);
    assert r.entry(m.loc.key).prefix in Elements(p.prefixes);
  }

  /** Where a page ends: it covers the objects up to the last one it took. Truncated, it is full and
      the objects it does not cover are still to come; otherwise those behind the last are repeats. */
  predicate Ends(r: Rules, p: Page, t: seq<ObjectMeta>, rest: seq<ObjectMeta>) {
    && Covers(r, p, t)
    && (if p.truncated then KeyCount(p) == r.maxKeys else Passes(r, t, rest))
  }

  lemma {:induction false} FillEnds(r: Rules, ms: seq<ObjectMeta>, p: Page, taken: seq<ObjectMeta>, passed: seq<ObjectMeta>)
      returns (t: seq<ObjectMeta>, rest: seq<ObjectMeta>)
    requires Covers(r, p, taken) && !p.truncated && r.maxKeys >= 1 && Passes(r, taken, passed)
    ensures taken + passed + ms == t + rest && Ends(r, Fill(r, ms, p), t, rest)
    decreases |ms|
  {
    if ms == [] {
      t, rest := taken, passed;
      assert taken + passed + ms == taken + passed;
    } else if Repeats(r, p, ms[0].loc.key) {
      RepeatPasses(r, p, taken, passed, ms[0]);
      t, rest := FillEnds(r, ms[1..], p, taken, passed + [ms[0]]);
      assert taken + (passed + [ms[0]]) + ms[1..] == taken + passed + ms;
    } else if Full(r, p) {
      t, rest := taken, passed + ms;
      assert taken + passed + ms == t + rest;
      FullEnds(r, p, taken, rest);
    } else {
      IncludeCovers(r, p, taken, passed, ms[0]);
      NothingPasses(r, taken + passed + [ms[0]]);
      t, rest := FillEnds(r, ms[1..], Include(r, p, ms[0]), taken + passed + [ms[0]], []);
      assert taken + passed + [ms[0]] + [] + ms[1..] == taken + passed + ms;
    }
  }

  lemma FullEnds(r: Rules, p: Page, taken: seq<ObjectMeta>, rest: seq<ObjectMeta>)
    requires Covers(r, p, taken) && Full(r, p) && r.maxKeys >= 1
    ensures Ends(r, p.(truncated := true), taken, rest)
  {
  }

  lemma NothingPasses(r: Rules, taken: seq<ObjectMeta>)
    ensures Passes(r, taken, [])
  {
    assert Prefixes(r, []) == {};
  }

  lemma {:induction false} PageEnds(r: Rules, cursor: string, ms: seq<ObjectMeta>) returns (t: seq<ObjectMeta>, rest: seq<ObjectMeta>)
    requires r.maxKeys >= 1
    ensures After(cursor, ms) == t + rest && Ends(r, PageOf(r, cursor, ms), t, rest)
  {
    assert Elements([]) == {} && Prefixes(r, []) == {};
    t, rest := FillEnds(r, After(cursor, ms), EmptyPage, [], []);
    assert [] + [] + After(cursor, ms) == After(cursor, ms);
  }

  /** A truncated page names its last object, and the page that starts there takes up where it ended. */
  lemma {:induction false} PageAdvances(r: Rules, cursor: string, ms: seq<ObjectMeta>) returns (t: seq<ObjectMeta>)
    requires Strict(ms) && r.maxKeys >= 1 && PageOf(r, cursor, ms).truncated
    ensures var p := PageOf(r, cursor, ms);
      p.last != "" && t != [] && Covers(r, p, t) && After(cursor, ms) == t + After(p.last, ms)
  {
    var rest;
    t, rest := PageEnds(r, cursor, ms);
    RestAfterLast(ms, cursor, t, rest);
  }

  lemma RestAfterLast(ms: seq<ObjectMeta>, cursor: string, t: seq<ObjectMeta>, rest: seq<ObjectMeta>)
    requires Strict(ms) && After(cursor, ms) == t + rest && t != []
    ensures t[|t| - 1].loc.key != "" && rest == After(t[|t| - 1].loc.key, ms)
  {
    var n := |ms| - |rest| - 1;
    SuffixParts(ms, t, rest);
    assert ms[n] in ms;
    AfterKey(ms, n);
  }

  lemma SuffixParts<T>(s: seq<T>, t: seq<T>, rest: seq<T>)
    requires |t + rest| <= |s| && t + rest == s[|s| - |t + rest|..]
    ensures var n := |s| - |rest|; s[n..] == rest && s[n - |t|..n] == t && (t != [] ==> s[n - 1] == t[|t| - 1])
  {
    var all, n := t + rest, |s| - |rest|;
    assert all[|t|..] == rest && all[..|t|] == t;
    assert s[n - |t|..][|t|..] == s[n..] && s[n - |t|..][..|t|] == s[n - |t|..n];
  }

  lemma {:induction false} PageProgress(r: Rules, cursor: string, ms: seq<ObjectMeta>)
    requires Strict(ms) && r.maxKeys >= 1 && PageOf(r, cursor, ms).truncated
    ensures |After(PageOf(r, cursor, ms).last, ms)| < |After(cursor, ms)|
  {
    var t := PageAdvances(r, cursor, ms);
  }

  // --- following the tokens ---

  /** The pages a client sees that starts at a cursor and follows the tokens to the end. */
  function Walk(r: Rules, cursor: string, ms: seq<ObjectMeta>): seq<Page>
    requires Strict(ms) && r.maxKeys >= 1
    decreases |After(cursor, ms)|
  {
    var p := PageOf(r, cursor, ms);
    if !p.truncated then [p]
    else
      PageProgress(r, cursor, ms);
      [p] + Walk(r, p.last, ms)
  }

  function Contents(pages: seq<Page>): seq<ObjectMeta> {
    if pages == [] then [] else pages[0].contents + Contents(pages[1..])
  }

  function AllPrefixes(pages: seq<Page>): set<string> {
    if pages == [] then {} else Elements(pages[0].prefixes) + AllPrefixes(pages[1..])
  }

  /** The pages list every plain key after the cursor once and in order, and their common prefixes
      are exactly those of the keys after the cursor. */
  lemma {:induction false} WalkLists(r: Rules, cursor: string, ms: seq<ObjectMeta>)
    requires Strict(ms) && r.maxKeys >= 1
    ensures Contents(Walk(r, cursor, ms)) == Plains(r, After(cursor, ms))
    ensures AllPrefixes(Walk(r, cursor, ms)) == Prefixes(r, After(cursor, ms))
    decreases |After(cursor, ms)|
  {
    var p := PageOf(r, cursor, ms);
    if p.truncated {
      var t := PageAdvances(r, cursor, ms);
      PlainsThen(r, t, After(p.last, ms));
      PageProgress(r, cursor, ms);
      WalkLists(r, p.last, ms);
      ConsPage(p, Walk(r, p.last, ms));
    } else {
      var t, rest := PageEnds(r, cursor, ms);
      PlainsThen(r, t, rest);
      ConsPage(p, []);
    }
  }

  lemma ConsPage(p: Page, pages: seq<Page>)
    ensures Contents([p] + pages) == p.contents + Contents(pages)
    ensures AllPrefixes([p] + pages) == Elements(p.prefixes) + AllPrefixes(pages)
  {
    assert ([p] + pages)[1..] == pages;
  }

  /** Every page but the last is full and truncated, none is over-full, and none repeats a prefix. */
  predicate WellPaged(r: Rules, pages: seq<Page>) {
    && pages != [] && Distinct(pages[0].prefixes) && KeyCount(pages[0]) <= r.maxKeys
    && pages[0].truncated == (|pages| > 1)
    && (|pages| > 1 ==> KeyCount(pages[0]) == r.maxKeys && WellPaged(r, pages[1..]))
  }

  lemma {:induction false} WalkPages(r: Rules, cursor: string, ms: seq<ObjectMeta>)
    requires Strict(ms) && r.maxKeys >= 1
    ensures WellPaged(r, Walk(r, cursor, ms))
    decreases |After(cursor, ms)|
  {
    var p := PageOf(r, cursor, ms);
    var t, rest := PageEnds(r, cursor, ms);
    if p.truncated {
      PageProgress(r, cursor, ms);
      WalkPages(r, p.last, ms);
      assert ([p] + Walk(r, p.last, ms))[1..] == Walk(r, p.last, ms);
    }
  }

  /** Without a delimiter the pages concatenate to exactly the objects after the cursor. */
  lemma {:induction false} WalkWithoutDelimiter(maxKeys: nat, prefix: string, cursor: string, ms: seq<ObjectMeta>)
    requires Strict(ms) && maxKeys >= 1
    ensures var pages := Walk(RulesFor(maxKeys, prefix, ""), cursor, ms);
      Contents(pages) == After(cursor, ms) && AllPrefixes(pages) == {}
  {
    var r := RulesFor(maxKeys, prefix, "");
    WalkLists(r, cursor, ms);
    forall k: string
      ensures r.entry(k) == Plain
    {
      assert r.entry(k) == EntryOf(prefix, "", k);
    }
    AllPlain(r, After(cursor, ms));
  }

  lemma {:induction false} AllPlain(r: Rules, ms: seq<ObjectMeta>)
    requires forall k: string :: r.entry(k) == Plain
    ensures Plains(r, ms) == ms && Prefixes(r, ms) == {}
  {
    if ms != [] {
      AllPlain(r, ms[1..]);
      assert ms == [ms[0]] + ms[1..];
    }
  }

  /** With max-keys zero nothing is listed and no token is given, however much there is. */
  lemma ZeroKeys(r: Rules, cursor: string, ms: seq<ObjectMeta>)
    requires r.maxKeys == 0
    ensures var p := PageOf(r, cursor, ms);
      p.contents == [] && p.prefixes == [] && p.last == "" && (p.truncated <==> After(cursor, ms) != [])
  {
    var rest := After(cursor, ms);
    assert rest != [] ==> !Repeats(r, EmptyPage, rest[0].loc.key);
  }

  /** A client: ask, follow the token, until there is none. */
  method Follow(code: TokenCode, o: Options, ms: seq<ObjectMeta>) returns (pages: seq<Page>)
    requires Strict(ms) && o.maxKeys >= 1 && Lossless(code)
    ensures pages == Walk(RulesOf(o), Cursor(code, o), ms)
    decreases |After(Cursor(code, o), ms)|
  {
    var page, next := Paginate(code, o, ms);
    pages := [page];
    if page.truncated {
      var t := PageAdvances(RulesOf(o), Cursor(code, o), ms);
      PageProgress(RulesOf(o), Cursor(code, o), ms);
    }
    if next != "" {
      var more := Follow(code, o.(token := next), ms);
      pages := pages + more;
    }
  }

  // --- common prefixes across pages ---

  /** No prefix is shown on two pages. */
  predicate ShownOnce(pages: seq<Page>) {
    forall i, j | 0 <= i < j < |pages| :: Elements(pages[i].prefixes) !! Elements(pages[j].prefixes)
  }

  /** The page is cut behind a key that is rolled up together with a later one. */
  predicate Splits(r: Rules, p: Page, ms: seq<ObjectMeta>) {
    p.truncated && exists i, j | 0 <= i < j < |ms| ::
      ms[i].loc.key == p.last && r.entry(ms[i].loc.key).Rolled? && r.entry(ms[j].loc.key) == r.entry(ms[i].loc.key)
  }

  /** Keys with one common prefix stand next to each other. */
  predicate Together(r: Rules, ms: seq<ObjectMeta>) {
    forall i, j, k | 0 <= i <= j < k < |ms| ::
      r.entry(ms[i].loc.key).Rolled? && r.entry(ms[k].loc.key) == r.entry(ms[i].loc.key) ==> r.entry(ms[j].loc.key) == r.entry(ms[i].loc.key)
  }

  /** Whatever lies between two strings with a prefix has it too. */
  lemma {:induction false} PrefixBetween(p: string, a: string, b: string, c: string)
    requires p <= a && p <= c && (a == b || Less(a, b)) && Less(b, c)
    ensures p <= b
  {
    if p != "" && a != b {
      PrefixBetween(p[1..], a[1..], b[1..], c[1..]);
      assert p == [p[0]] + p[1..] && b == [b[0]] + b[1..];
    }
  }

  /** A key that begins with another's common prefix is rolled up into it too. */
  lemma {:induction false} SameEntry(prefix: string, d: string, a: string, b: string)
    requires prefix <= a && prefix <= b && EntryOf(prefix, d, a).Rolled?
    ensures EntryOf(prefix, d, a).prefix <= a
    ensures EntryOf(prefix, d, a).prefix <= b ==> EntryOf(prefix, d, b) == EntryOf(prefix, d, a)
  {
    var x, ra, rb := EntryOf(prefix, d, a).prefix, a[|prefix|..], b[|prefix|..];
    var n := Index(ra, d);
    assert a == prefix + ra && b == prefix + rb && x == prefix + ra[..n + |d|];
    assert x <= a by { assert a[..|x|] == x; }
    if x <= b {
      assert rb[..n + |d|] == ra[..n + |d|] by { assert b[..|x|][|prefix|..] == x[|prefix|..]; }
      FirstOccurrence(ra, rb, d, n);
    }
  }

  lemma {:induction false} FirstOccurrence(s: string, t: string, d: string, n: nat)
    requires d != "" && n == Index(s, d) && n + |d| <= |t| && t[..n + |d|] == s[..n + |d|]
    ensures Index(t, d) == n
  {
    SameOccurrence(s, t, d, n, n + |d|);
    forall j | 0 <= j < n
      ensures !OccursAt(t, d, j)
    {
      SameOccurrence(s, t, d, j, n + |d|);
    }
  }

  lemma {:induction false} SameOccurrence(s: string, t: string, d: string, j: nat, m: nat)
    requires j + |d| <= m <= |s| && m <= |t| && s[..m] == t[..m]
    ensures OccursAt(s, d, j) <==> OccursAt(t, d, j)
  {
    assert s[j..j + |d|] == s[..m][j..j + |d|];
    assert t[j..j + |d|] == t[..m][j..j + |d|];
  }

  lemma {:induction false} KeysTogether(maxKeys: nat, prefix: string, d: string, ms: seq<ObjectMeta>)
    requires Strict(ms) && forall m <- ms :: prefix <= m.loc.key
    ensures Together(RulesFor(maxKeys, prefix, d), ms)
  {
    var r := RulesFor(maxKeys, prefix, d);
    forall i, j, k | 0 <= i <= j < k < |ms| && r.entry(ms[i].loc.key).Rolled? && r.entry(ms[k].loc.key) == r.entry(ms[i].loc.key)
      ensures r.entry(ms[j].loc.key) == r.entry(ms[i].loc.key)
    {
      assert ms[i] in ms && ms[j] in ms && ms[k] in ms;
      EntryBetween(prefix, d, ms[i].loc.key, ms[j].loc.key, ms[k].loc.key);
    }
  }

  lemma {:induction false} EntryBetween(prefix: string, d: string, a: string, b: string, c: string)
    requires prefix <= a && prefix <= b && prefix <= c && (a == b || Less(a, b)) && Less(b, c)
    requires EntryOf(prefix, d, a).Rolled? && EntryOf(prefix, d, c) == EntryOf(prefix, d, a)
    ensures EntryOf(prefix, d, b) == EntryOf(prefix, d, a)
  {
    SameEntry(prefix, d, a, b);
    SameEntry(prefix, d, c, b);
    PrefixBetween(EntryOf(prefix, d, a).prefix, a, b, c);
  }

  lemma {:induction false} PrefixesAt(pages: seq<Page>, x: string)
    ensures x in AllPrefixes(pages) <==> exists i | 0 <= i < |pages| :: x in Elements(pages[i].prefixes)
  {
    if pages != [] {
      PrefixesAt(pages[1..], x);
      if x in AllPrefixes(pages[1..]) {
        var i :| 0 <= i < |pages[1..]| && x in Elements(pages[1..][i].prefixes);
        assert pages[i + 1] == pages[1..][i];
      }
      if i :| 0 < i < |pages| && x in Elements(pages[i].prefixes) {
        assert pages[1..][i - 1] == pages[i];
      }
    }
  }

  lemma {:induction false} ShownOnceCons(p: Page, pages: seq<Page>)
    ensures ShownOnce([p] + pages) <==> Elements(p.prefixes) !! AllPrefixes(pages) && ShownOnce(pages)
  {
    var all := [p] + pages;
    forall x
      ensures x in AllPrefixes(pages) <==> exists i | 0 <= i < |pages| :: x in Elements(pages[i].prefixes)
    {
      PrefixesAt(pages, x);
    }
    if ShownOnce(all) {
      forall i, j | 0 <= i < j < |pages|
        ensures Elements(pages[i].prefixes) !! Elements(pages[j].prefixes)
      {
        assert all[i + 1] == pages[i] && all[j + 1] == pages[j];
      }
      forall i | 0 <= i < |pages|
        ensures Elements(p.prefixes) !! Elements(pages[i].prefixes)
      {
        assert all[0] == p && all[i + 1] == pages[i];
      }
    }
  }

  /** A cut page shares a prefix with what follows exactly when it splits one. */
  lemma {:induction false} SharesIff(r: Rules, cursor: string, ms: seq<ObjectMeta>)
    requires Strict(ms) && r.maxKeys >= 1 && Together(r, ms) && PageOf(r, cursor, ms).truncated
    ensures var p := PageOf(r, cursor, ms);
      Elements(p.prefixes) !! Prefixes(r, After(p.last, ms)) <==> !Splits(r, p, ms)
  {
    var p := PageOf(r, cursor, ms);
    var n, size := PageSpans(r, cursor, ms);
    SpanSharesIff(r, p, ms, n, size);
  }

  lemma {:induction false} PageSpans(r: Rules, cursor: string, ms: seq<ObjectMeta>) returns (n: nat, size: nat)
    requires Strict(ms) && r.maxKeys >= 1 && PageOf(r, cursor, ms).truncated
    ensures var p := PageOf(r, cursor, ms); Spans(r, p, ms, n, size) && After(p.last, ms) == ms[n..]
  {
    var p := PageOf(r, cursor, ms);
    var t := PageAdvances(r, cursor, ms);
    var rest := After(p.last, ms);
    n, size := |ms| - |rest|, |t|;
    CoverSpans(r, p, ms, t, rest);
  }

  lemma CoverSpans(r: Rules, p: Page, ms: seq<ObjectMeta>, t: seq<ObjectMeta>, rest: seq<ObjectMeta>)
    requires Covers(r, p, t) && p.truncated && t != [] && |t + rest| <= |ms| && t + rest == ms[|ms| - |t + rest|..]
    ensures Spans(r, p, ms, |ms| - |rest|, |t|) && rest == ms[|ms| - |rest|..]
  {
    SuffixParts(ms, t, rest);
  }

  lemma {:induction false} SpanSharesIff(r: Rules, p: Page, ms: seq<ObjectMeta>, n: nat, size: nat)
    requires Strict(ms) && Together(r, ms) && Spans(r, p, ms, n, size)
    ensures Elements(p.prefixes) !! Prefixes(r, ms[n..]) <==> !Splits(r, p, ms)
  {
    if Splits(r, p, ms) {
      SplitShares(r, p, ms, n, size);
    } else {
      forall x | x in Elements(p.prefixes)
        ensures x !in Prefixes(r, ms[n..])
      {
        if x in Prefixes(r, ms[n..]) {
          SharedSplits(r, p, ms, n, size, x);
        }
      }
    }
  }

  /** A page that covers the objects from n - size to n. */
  predicate Spans(r: Rules, p: Page, ms: seq<ObjectMeta>, n: nat, size: nat) {
    && 1 <= size <= n <= |ms| && p.truncated
    && p.last == ms[n - 1].loc.key && Elements(p.prefixes) == Prefixes(r, ms[n - size..n])
  }

  lemma {:induction false} SharedSplits(r: Rules, p: Page, ms: seq<ObjectMeta>, n: nat, size: nat, x: string)
    requires Together(r, ms) && Spans(r, p, ms, n, size) && x in Elements(p.prefixes) && x in Prefixes(r, ms[n..])
    ensures Splits(r, p, ms)
  {
    var i := PrefixAt(r, ms[n - size..n], x);
    var k := PrefixAt(r, ms[n..], x);
    SplitBetween(r, p, ms, n, n - size + i, n + k);
  }

  lemma {:induction false} PrefixAt(r: Rules, ms: seq<ObjectMeta>, x: string) returns (i: nat)
    requires x in Prefixes(r, ms)
    ensures i < |ms| && r.entry(ms[i].loc.key) == Rolled(x)
  {
    var m :| m in ms && r.entry(m.loc.key) == Rolled(x);
    i :| 0 <= i < |ms| && ms[i] == m;
  }

  lemma {:induction false} SplitBetween(r: Rules, p: Page, ms: seq<ObjectMeta>, n: nat, i: nat, k: nat)
    requires Together(r, ms) && i < n <= k < |ms| && p.truncated && p.last == ms[n - 1].loc.key
    requires r.entry(ms[i].loc.key).Rolled? && r.entry(ms[k].loc.key) == r.entry(ms[i].loc.key)
    ensures Splits(r, p, ms)
  {
    var j := n - 1;
    assert r.entry(ms[j].loc.key) == r.entry(ms[i].loc.key);
    assert 0 <= j < k < |ms| && ms[j].loc.key == p.last && r.entry(ms[k].loc.key) == r.entry(ms[j].loc.key);
  }

  lemma {:induction false} SplitShares(r: Rules, p: Page, ms: seq<ObjectMeta>, n: nat, size: nat)
    requires Strict(ms) && Spans(r, p, ms, n, size) && Splits(r, p, ms)
    ensures exists x :: x in Elements(p.prefixes) && x in Prefixes(r, ms[n..])
  {
    var i, j :| 0 <= i < j < |ms| && ms[i].loc.key == p.last && r.entry(ms[i].loc.key).Rolled? && r.entry(ms[j].loc.key) == r.entry(ms[i].loc.key);
    LessTotal(p.last, p.last);
    assert i == n - 1;
    assert ms[i] in ms[n - size..n] && ms[j] in ms[n..];
    var x := r.entry(ms[i].loc.key).prefix;
    assert x in Elements(p.prefixes) && x in Prefixes(r, ms[n..]);
  }

  predicate NoneSplits(r: Rules, pages: seq<Page>, ms: seq<ObjectMeta>) {
    forall p <- pages :: !Splits(r, p, ms)
  }

  lemma {:induction false} WalkShowsOnce(r: Rules, cursor: string, ms: seq<ObjectMeta>)
    requires Strict(ms) && r.maxKeys >= 1 && Together(r, ms)
    ensures ShownOnce(Walk(r, cursor, ms)) <==> NoneSplits(r, Walk(r, cursor, ms), ms)
    decreases |After(cursor, ms)|
  {
    var p := PageOf(r, cursor, ms);
    if p.truncated {
      PageProgress(r, cursor, ms);
      var pages := Walk(r, p.last, ms);
      WalkShowsOnce(r, p.last, ms);
      ShownOnceCons(p, pages);
      WalkLists(r, p.last, ms);
      SharesIff(r, cursor, ms);
      NoneSplitsCons(r, p, pages, ms);
    }
  }

  lemma NoneSplitsCons(r: Rules, p: Page, pages: seq<Page>, ms: seq<ObjectMeta>)
    ensures NoneSplits(r, [p] + pages, ms) <==> !Splits(r, p, ms) && NoneSplits(r, pages, ms)
  {
    assert p in [p] + pages;
  }

  /** Following the tokens shows a common prefix twice exactly when some page is cut behind a key
      that is rolled up together with a later one. */
  lemma {:induction false} PrefixesOnceIff(o: Options, cursor: string, ms: seq<ObjectMeta>)
    requires Strict(ms) && o.maxKeys >= 1 && forall m <- ms :: o.prefix <= m.loc.key
    ensures var pages := Walk(RulesOf(o), cursor, ms); ShownOnce(pages) <==> NoneSplits(RulesOf(o), pages, ms)
  {
    KeysTogether(o.maxKeys, o.prefix, o.delimiter, ms);
    WalkShowsOnce(RulesOf(o), cursor, ms);
  }

  function Named(key: string): ObjectMeta {
    ObjectMeta(Loc("b", key), "h", "e", 1, "", 1, Committed, Finished, [], [], [])
  }

  lemma RolledUnder(c: char, rest: string)
    requires c != '/'
    ensures EntryOf("", "/", [c, '/'] + rest) == Rolled([c, '/'])
  {
    var key, d := [c, '/'] + rest, "/";
    RolledUp("", d, key);
    assert "" + key == key;
    assert key[1..2] == d && key[0..1] == [c];
    assert OccursAt(key, d, 1) && !OccursAt(key, d, 0);
    assert key[..2] == [c, '/'];
  }

  lemma PlainKey(c: char)
    requires c != '/'
    ensures EntryOf("", "/", [c]) == Plain
  {
    var key, d := [c], "/";
    assert "" + key == key;
    RolledUp("", d, key);
    forall i | 0 <= i
      ensures !OccursAt(key, d, i)
    {
      assert key[0..1] == [c] != d;
    }
  }

  /** It happens: of d/x, d/y and e, one entry to a page, the first two pages both show d/. */
  lemma PrefixCanRepeat()
    ensures var r, ms := RulesOf(Options("", 1, "", "", "/")), [Named("d/x"), Named("d/y"), Named("e")];
      && Strict(ms)
      && PageOf(r, "", ms) == Page([], ["d/"], true, "d/x")
      && PageOf(r, "d/x", ms) == Page([], ["d/"], true, "d/y")
      && !ShownOnce(Walk(r, "", ms))
  {
    var r, ms := RulesOf(Options("", 1, "", "", "/")), [Named("d/x"), Named("d/y"), Named("e")];
    RolledUnder('d', "x");
    RolledUnder('d', "y");
    PlainKey('e');
    assert ['d', '/'] + "x" == "d/x" && ['d', '/'] + "y" == "d/y";
    ThreeSorted();
    RepeatedWalk(r, ms[0], ms[1], ms[2]);
  }

  lemma {:induction false} RepeatedWalk(r: Rules, a: ObjectMeta, b: ObjectMeta, c: ObjectMeta)
    requires r.maxKeys == 1 && Strict([a, b, c])
    requires r.entry(a.loc.key) == r.entry(b.loc.key) == Rolled("d/") && r.entry(c.loc.key) == Plain
    ensures PageOf(r, "", [a, b, c]) == Page([], ["d/"], true, a.loc.key)
    ensures PageOf(r, a.loc.key, [a, b, c]) == Page([], ["d/"], true, b.loc.key)
    ensures !ShownOnce(Walk(r, "", [a, b, c]))
  {
    var ms := [a, b, c];
    RepeatedPages(r, a, b, c);
    PageProgress(r, "", ms);
    RepeatShows(PageOf(r, "", ms), Walk(r, a.loc.key, ms), "d/");
  }

  lemma RepeatShows(p: Page, rest: seq<Page>, x: string)
    requires rest != [] && x in p.prefixes && x in rest[0].prefixes
    ensures !ShownOnce([p] + rest)
  {
    var all := [p] + rest;
    assert all[0] == p && all[1] == rest[0];
    assert x in Elements(all[0].prefixes) && x in Elements(all[1].prefixes);
  }

  lemma ThreeSorted()
    ensures Strict([Named("d/x"), Named("d/y"), Named("e")])
  {
    var a, b := "d/x", "d/y";
    assert a[1..] == "/x" && b[1..] == "/y" && a[1..][1..] == "x" && b[1..][1..] == "y";
    assert Less("x", "y") && Less("/x", "/y") && Less(a, b) && Less(a, "e") && Less(b, "e");
  }

  lemma {:induction false} RepeatedPages(r: Rules, a: ObjectMeta, b: ObjectMeta, c: ObjectMeta)
    requires r.maxKeys == 1 && Strict([a, b, c])
    requires r.entry(a.loc.key) == r.entry(b.loc.key) == Rolled("d/") && r.entry(c.loc.key) == Plain
    ensures PageOf(r, "", [a, b, c]) == Page([], ["d/"], true, a.loc.key)
    ensures PageOf(r, a.loc.key, [a, b, c]) == Page([], ["d/"], true, b.loc.key)
  {
    assert [a, b, c][1..] == [b, c] && [b, c][1..] == [c];
    var p, q := Page([], ["d/"], false, a.loc.key), Page([], ["d/"], false, b.loc.key);
    assert Fill(r, [c], p) == p.(truncated := true) && Fill(r, [c], q) == q.(truncated := true);
    assert Include(r, EmptyPage, a) == p && Include(r, EmptyPage, b) == q;
    assert Fill(r, [b, c], p) == Fill(r, [c], p);
    assert Fill(r, [b, c], EmptyPage) == Fill(r, [c], q);
    AfterKey([a, b, c], 0);
  }
}
