/** Names as the store sees them: trimming, shard directories, map keys and byte order. */
module Names {

  /** The white space strings.TrimSpace removes, as far as it is a single byte. */
  predicate IsSpace(c: char) {
    c == '\t' || c == '\n' || c == '\U{0B}' || c == '\U{0C}' || c == '\r' || c == ' '
  }

  function TrimLeft(s: string): string {
    if s == "" || !IsSpace(s[0]) then s else TrimLeft(s[1..])
  }

  function TrimRight(s: string): string {
    if s == "" || !IsSpace(s[|s| - 1]) then s else TrimRight(s[..|s| - 1])
  }

  /** strings.TrimSpace. */
  function Trim(s: string): string {
    TrimRight(TrimLeft(s))
  }

  /** invalidName: nothing is left after trimming (see BlankIff). */
  predicate Blank(s: string) {
    forall i | 0 <= i < |s| :: IsSpace(s[i])
  }

  /** A name that trimming leaves as it is. */
  predicate Trimmed(s: string) {
    s == "" || (!IsSpace(s[0]) && !IsSpace(s[|s| - 1]))
  }

  lemma {:induction false} TrimLeftShape(s: string)
    ensures TrimLeft(s) == "" || !IsSpace(TrimLeft(s)[0])
    ensures |TrimLeft(s)| <= |s|
    ensures |TrimLeft(s)| == |s| ==> TrimLeft(s) == s
  {
    if s != "" && IsSpace(s[0]) {
      TrimLeftShape(s[1..]);
    }
  }

  lemma {:induction false} TrimRightShape(s: string)
    ensures TrimRight(s) == "" || !IsSpace(TrimRight(s)[|TrimRight(s)| - 1])
    ensures |TrimRight(s)| <= |s| && TrimRight(s) == s[..|TrimRight(s)|]
  {
    if s != "" && IsSpace(s[|s| - 1]) {
      TrimRightShape(s[..|s| - 1]);
    }
  }

  /** A name is all white space exactly when trimming leaves nothing. */
  lemma {:induction false} BlankIff(s: string)
    ensures Blank(s) <==> Trim(s) == ""
  {
    if s != "" && IsSpace(s[0]) {
      assert s == [s[0]] + s[1..];
      BlankIff(s[1..]);
    } else if s != "" {
      TrimRightShape(s);
      TrimRightKeepsHead(s);
    }
  }

  lemma {:induction false} TrimRightKeepsHead(s: string)
    requires s != "" && !IsSpace(s[0])
    ensures TrimRight(s) != ""
  {
    if IsSpace(s[|s| - 1]) {
      TrimRightKeepsHead(s[..|s| - 1]);
    }
  }

  /** Trimming is idempotent, and the names it fixes are exactly the trimmed ones. */
  lemma TrimFixes(s: string)
    ensures Trimmed(Trim(s))
    ensures Trim(s) == s <==> Trimmed(s)
  {
    TrimLeftShape(s);
    TrimRightShape(TrimLeft(s));
  }

  function LowerChar(c: char): char {
    if 'A' <= c <= 'Z' then (c as int + 32) as char else c
  }

  function Lower(s: string): string {
    seq(|s|, i requires 0 <= i < |s| => LowerChar(s[i]))
  }

  /** makeShardDir: the lower-cased first two characters of a key. */
  function ShardDir(key: string): string {
    Lower(if |key| < 2 then key else key[..2])
  }

  /** The shard directory of a trimmed key survives trimming unless its second character is
      white space; "a b" is such a key. */
  lemma ShardDirTrimmed(key: string)
    requires Trimmed(key)
    ensures Trim(ShardDir(key)) == ShardDir(key) <==> (|key| < 2 || !IsSpace(key[1]))
    ensures key != "" ==> !Blank(ShardDir(key))
  {
    var d := ShardDir(key);
    TrimFixes(d);
    assert key != "" ==> d[0] == LowerChar(key[0]);
  }

  // --- what a directory name leads to ---

  /** A path taken apart at its slashes. */
  function Pieces(s: string): seq<string> {
    if s == "" then [""]
    else
      var rest := Pieces(s[1..]);
      if s[0] == '/' then [""] + rest else [[s[0]] + rest[0]] + rest[1..]
  }

  /** One piece of a path, from the folder reached so far. */
  function Enter(at: seq<string>, piece: string): seq<string> {
    if piece == "" || piece == "." then at
    else if piece == ".." && at != [] && at[|at| - 1] != ".." then at[..|at| - 1]
    else at + [piece]
  }

  function Follow(at: seq<string>, pieces: seq<string>): seq<string>
    decreases |pieces|
  {
    if pieces == [] then at else Follow(Enter(at, pieces[0]), pieces[1..])
  }

  function Slashed(pieces: seq<string>): string {
    if pieces == [] then "" else if |pieces| == 1 then pieces[0] else pieces[0] + "/" + Slashed(pieces[1..])
  }

  /** Where filepath.Join leads from the root: a folder's path without empty and dot pieces, empty
      for the root itself. */
  function Folder(dir: string): string {
    Slashed(Follow([], Pieces(dir)))
  }

  /** The names a listing of the root can have. */
  predicate Listable(name: string) {
    name != "" && name != "." && name != ".." && '/' !in name
  }

  lemma {:induction false} PiecesPlain(s: string)
    requires '/' !in s
    ensures Pieces(s) == [s]
  {
    if s == "" {
      assert s == [];
    } else {
      PiecesPlain(s[1..]);
      assert s == [s[0]] + s[1..];
    }
  }

  /** A path without a slash leads to the folder of that name, or nowhere. */
  lemma FolderPlain(s: string)
    requires '/' !in s
    ensures Folder(s) == if s == "." then "" else s
  {
    PiecesPlain(s);
    var at := Enter([], s);
    assert Follow([], [s]) == Follow(at, [s][1..]) == at;
    if s != "" && s != "." {
      assert at == [s];
    }
  }

  /** So a listed name leads to its own folder. */
  lemma ListableLeadsHome(name: string)
    requires Listable(name)
    ensures Folder(name) == name
  {
    FolderPlain(name);
  }

  /** A directory whose sets a sweep recognises: the sweep does not come to its folder, or finds it
      under the very name. */
  predicate Sheltered(dir: string) {
    !Listable(Folder(dir)) || Folder(dir) == dir
  }

  /** A slash next to a character that is neither slash nor dot. */
  predicate Strays(dir: string) {
    |dir| == 2 && ((dir[0] == '/' && dir[1] != '/' && dir[1] != '.') || (dir[1] == '/' && dir[0] != '/' && dir[0] != '.'))
  }

  lemma {:induction false} FolderOfOne(c: char)
    ensures Folder([c]) == if c == '/' || c == '.' then "" else [c]
  {
    if c == '/' {
      assert [c][1..] == "";
      FollowNothing("", Pieces(""));
    } else {
      FolderPlain([c]);
    }
  }

  lemma FollowNothing(piece: string, rest: seq<string>)
    requires piece == ""
    ensures Follow([], [piece] + rest) == Follow([], rest)
  {
    assert ([piece] + rest)[1..] == rest;
  }

  lemma {:induction false} FolderOfTwo(a: char, b: char)
    ensures Folder([a, b]) == if a == '/' then Folder([b]) else if b == '/' then Folder([a]) else [a, b]
  {
    var s := [a, b];
    assert s[1..] == [b];
    if a == '/' {
      FollowNothing("", Pieces([b]));
    } else if b == '/' {
      assert [b][1..] == "";
      PiecesPlain("");
      PiecesPlain([a]);
      assert Pieces([b]) == [""] + Pieces("") == ["", ""];
      assert [a] + "" == [a] && Pieces(s) == [[a]] + [""];
      FollowEmptyEnd([a]);
    } else {
      FolderPlain(s);
    }
  }

  lemma FollowEmptyEnd(piece: string)
    ensures Follow([], [piece] + [""]) == Follow([], [piece])
  {
    var at := Enter([], piece);
    assert ([piece] + [""])[1..] == [""] && [""][1..] == [] && [piece][1..] == [];
    assert Follow(at, [""]) == Follow(at, []) == at;
  }

  /** The directories of keys that a sweep does not recognise are exactly the straying ones. */
  lemma {:induction false} ShelteredIff(dir: string)
    requires |dir| <= 2 && dir != ""
    ensures Sheltered(dir) <==> !Strays(dir)
  {
    if |dir| == 1 {
      assert dir == [dir[0]];
      FolderOfOne(dir[0]);
    } else {
      assert dir == [dir[0], dir[1]];
      FolderOfTwo(dir[0], dir[1]);
      FolderOfOne(dir[0]);
      FolderOfOne(dir[1]);
    }
  }

  /** So a key is in danger exactly when one of its first two characters is a slash and the other is
      neither slash nor dot; "a/b" is such a key. */
  lemma ShardDirSheltered(key: string)
    requires key != ""
    ensures Sheltered(ShardDir(key)) <==>
      !(|key| >= 2 && ((key[0] == '/' && key[1] != '/' && key[1] != '.') || (key[1] == '/' && key[0] != '/' && key[0] != '.')))
  {
    ShelteredIff(ShardDir(key));
  }

  /** Go's string order: bytewise, the shorter first on a tie. */
  predicate Less(a: string, b: string) {
    b != "" && (a == "" || a[0] < b[0] || (a[0] == b[0] && Less(a[1..], b[1..])))
  }

  predicate AtMost(a: string, b: string) {
    !Less(b, a)
  }

  lemma {:induction false} LessTransitive(a: string, b: string, c: string)
    requires Less(a, b) && Less(b, c)
    ensures Less(a, c)
  {
    if a != "" && a[0] == b[0] && b[0] == c[0] {
      LessTransitive(a[1..], b[1..], c[1..]);
    }
  }

  lemma {:induction false} LessTotal(a: string, b: string)
    ensures Less(a, b) || a == b || Less(b, a)
    ensures !(Less(a, b) && Less(b, a))
    ensures !Less(a, a)
  {
    if a != "" && b != "" && a[0] == b[0] {
      LessTotal(a[1..], b[1..]);
      if a[1..] == b[1..] {
        assert a == [a[0]] + a[1..] && b == [b[0]] + b[1..];
      }
    }
    if a != "" {
      LessTotal(a[1..], a[1..]);
    }
  }

  /** objectMapKey joins with NUL and layoutKey with a slash; both are this. */
  function JoinKey(bucket: string, sep: char, key: string): string {
    bucket + [sep] + key
  }

  /** A pair can be recovered from its joined key when no bucket name holds the separator. */
  lemma {:induction false} JoinKeyInjective(b1: string, k1: string, b2: string, k2: string, sep: char)
    requires sep !in b1 && sep !in b2
    requires JoinKey(b1, sep, k1) == JoinKey(b2, sep, k2)
    ensures b1 == b2 && k1 == k2
  {
    var j1, j2 := JoinKey(b1, sep, k1), JoinKey(b2, sep, k2);
    assert j1[|b1|] == sep && j2[|b2|] == sep;
    assert j1[..|b1|] == b1 && j2[..|b2|] == b2;
    assert j1[|b1| + 1..] == k1 && j2[|b2| + 1..] == k2;
  }

  /** The condition on bucket names is exact: a bucket clashes with some other bucket precisely
      when it or the other holds the separator. */
  lemma JoinKeyClashIff(bucket: string, sep: char)
    ensures sep in bucket <==>
            exists other: string, k: string, k': string ::
              sep !in other && other != bucket && JoinKey(bucket, sep, k) == JoinKey(other, sep, k')
  {
    if sep in bucket {
      var i := FirstIndex(bucket, sep);
      var other, rest := bucket[..i], bucket[i + 1..];
      assert JoinKey(bucket, sep, "") == JoinKey(other, sep, rest + [sep]);
      assert sep !in other && other != bucket;
    } else {
      forall other: string, k: string, k': string
        | sep !in other && other != bucket
        ensures JoinKey(bucket, sep, k) != JoinKey(other, sep, k')
      {
        if JoinKey(bucket, sep, k) == JoinKey(other, sep, k') {
          JoinKeyInjective(bucket, k, other, k', sep);
        }
      }
    }
  }

  function FirstIndex(s: string, c: char): (i: nat)
    requires c in s
    ensures i < |s| && s[i] == c && c !in s[..i]
  {
    if s[0] == c then 0 else
      var i := FirstIndex(s[1..], c) + 1;
      assert s[..i] == [s[0]] + s[1..][..i - 1];
      i
  }
}
