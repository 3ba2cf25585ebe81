/** Splitting an object into shards, and getting it back from any k of them. */
module Erasure {
  import opened Protocol

  /** The erasure-coding library: the parity of k data shards, and the shards rebuilt from those
      that are there. A missing shard is an empty one, as the library sees it. */
  datatype Code = Code(k: nat, m: nat, parity: seq<Bytes> -> seq<Bytes>, reconstruct: seq<Bytes> -> Result)

  datatype Result = Rebuilt(shards: seq<Bytes>) | TooFew

  predicate SameSize(shards: seq<Bytes>, n: nat) {
    forall i | 0 <= i < |shards| :: |shards[i]| == n
  }

  /** k data shards of one size followed by their parity. */
  predicate Codeword(c: Code, w: seq<Bytes>, n: nat) {
    |w| == c.k + c.m && n >= 1 && SameSize(w, n) && w[c.k..] == c.parity(w[..c.k])
  }

  /** What is left of a set of shards after losing some. */
  predicate Erased(w: seq<Bytes>, e: seq<Bytes>) {
    |e| == |w| && forall i | 0 <= i < |w| :: e[i] == w[i] || e[i] == []
  }

  function Present(e: seq<Bytes>): nat {
    if e == [] then 0 else (if e[0] != [] then 1 else 0) + Present(e[1..])
  }

  /** What is taken from the library: parity shards have the size of the data shards, and any k
      shards of a codeword determine the rest. */
  ghost predicate Sound(c: Code) {
    && c.k >= 1 && c.m >= 1
    && (forall d: seq<Bytes>, n: nat | |d| == c.k && n >= 1 && SameSize(d, n) :: |c.parity(d)| == c.m && SameSize(c.parity(d), n))
    && (forall w: seq<Bytes>, e: seq<Bytes>, n: nat | Codeword(c, w, n) && Erased(w, e) && Present(e) >= c.k :: c.reconstruct(e) == Rebuilt(w))
  }

  // --- splitting ---

  function Take(d: Bytes, n: nat): Bytes {
    if |d| <= n then d else d[..n]
  }

  function Drop(d: Bytes, n: nat): Bytes {
    if |d| <= n then [] else d[n..]
  }

  function Zeros(n: nat): Bytes {
    seq(n, i => 0)
  }

  function Padded(d: Bytes, n: nat): Bytes
    requires |d| <= n
  {
    d + Zeros(n - |d|)
  }

  /** The length of k pieces of n bytes. */
  function Span(k: nat, n: nat): nat {
    if k == 0 then 0 else n + Span(k - 1, n)
  }

  /** What the shard at an index holds. */
  function Piece(d: Bytes, n: nat, i: nat): (r: Bytes)
    ensures |r| == n
  {
    Padded(Take(Drop(d, Span(i, n)), n), n)
  }

  /** The data in pieces of n bytes, the last ones filled up with zeros. */
  function Split(d: Bytes, k: nat, n: nat): (r: seq<Bytes>)
    ensures |r| == k && SameSize(r, n)
  {
    seq(k, i requires 0 <= i < k => Piece(d, n, i))
  }

  lemma DropTwice(d: Bytes, a: nat, b: nat)
    ensures Drop(Drop(d, a), b) == Drop(d, a + b)
  {
  }

  lemma DropPiece(d: Bytes, n: nat, i: nat)
    requires i >= 1
    ensures Piece(d, n, i) == Piece(Drop(d, n), n, i - 1)
  {
    DropTwice(d, n, Span(i - 1, n));
  }

  /** The first piece, and the pieces of the rest. */
  lemma {:induction false} SplitOff(d: Bytes, k: nat, n: nat)
    requires k >= 1
    ensures Split(d, k, n) == [Padded(Take(d, n), n)] + Split(Drop(d, n), k - 1, n)
  {
    assert Drop(d, 0) == d;
    forall i | 1 <= i < k
      ensures Split(d, k, n)[i] == Split(Drop(d, n), k - 1, n)[i - 1]
    {
      DropPiece(d, n, i);
    }
  }

  function Join(shards: seq<Bytes>): Bytes {
    if shards == [] then [] else shards[0] + Join(shards[1..])
  }

  lemma {:induction false} SpanIs(k: nat, n: nat)
    ensures Span(k, n) == k * n
  {
    if k > 0 {
      SpanIs(k - 1, n);
      assert (k - 1) * n + n == k * n;
    }
  }

  lemma {:induction false} PieceCovers(d: Bytes, n: nat)
    ensures d == Take(d, n) + Drop(d, n) && |Take(d, n)| <= n
    ensures |d| > n ==> Padded(Take(d, n), n) == Take(d, n)
    ensures |d| <= n ==> Drop(d, n) == []
  {
  }

  /** Joining the pieces gives the data back, followed by nothing but the filling. */
  lemma {:induction false} JoinSplit(d: Bytes, k: nat, n: nat)
    requires |d| <= Span(k, n)
    ensures Join(Split(d, k, n)) == Padded(d, Span(k, n))
    decreases k
  {
    if k > 0 {
      PieceCovers(d, n);
      SplitOff(d, k, n);
      var head, rest := Take(d, n), Drop(d, n);
      JoinSplit(rest, k - 1, n);
      var pieces := Split(rest, k - 1, n);
      assert ([Padded(head, n)] + pieces)[1..] == pieces;
      assert Join(Split(d, k, n)) == Padded(head, n) + Join(pieces);
      PaddedPieces(d, n, Span(k - 1, n));
    }
  }

  lemma PaddedPieces(d: Bytes, n: nat, more: nat)
    requires |d| <= n + more
    ensures Padded(Take(d, n), n) + Padded(Drop(d, n), more) == Padded(d, n + more)
  {
  }

  function ShardSize(length: nat, k: nat): nat
    requires k >= 1
  {
    (length + k - 1) / k
  }

  /** The shard size is the least that holds the data. */
  lemma ShardSizeFits(length: nat, k: nat)
    requires k >= 1
    ensures var n := ShardSize(length, k); length <= k * n && (length >= 1 ==> n >= 1 && k * (n - 1) < length)
  {
    var n := ShardSize(length, k);
    var r := (length + k - 1) % k;
    assert length + k - 1 == k * n + r && 0 <= r < k;
    if n < 1 {
      assert k * n == 0;
    } else {
      assert k * (n - 1) == k * n - k;
    }
  }

  function DataShards(c: Code, d: Bytes): seq<Bytes>
    requires c.k >= 1
  {
    Split(d, c.k, ShardSize(|d|, c.k))
  }

  function Encoded(c: Code, d: Bytes): seq<Bytes>
    requires c.k >= 1
  {
    DataShards(c, d) + c.parity(DataShards(c, d))
  }

  /** The piece of the data a shard holds. */
  lemma {:induction false} PieceIs(d: Bytes, n: nat, i: nat)
    ensures var start := i * n;
      && (start >= |d| ==> Piece(d, n, i) == Zeros(n))
      && (start < |d| ==> Piece(d, n, i) == Padded(d[start..if start + n < |d| then start + n else |d|], n))
  {
    SpanIs(i, n);
    var start := i * n;
    if start >= |d| {
      assert [] + Zeros(n) == Zeros(n);
    } else {
      assert Take(Drop(d, start), n) == d[start..if start + n < |d| then start + n else |d|];
    }
  }

  /** Encode: k zeroed buffers, the data copied in piece by piece, the pieces beyond the data zeroed
      again, then the parity behind them. */
  method Encode(c: Code, data: Bytes) returns (shards: seq<Bytes>)
    requires c.k >= 1
    ensures shards == Encoded(c, data)
  {
    var shardSize := (|data| + c.k - 1) / c.k;
    var padded := FillPieces(data, c.k, shardSize);
    padded := ZeroBeyond(data, c.k, shardSize, padded);
    shards := padded + c.parity(padded);
  }

  method FillPieces(data: Bytes, k: nat, shardSize: nat) returns (padded: seq<Bytes>)
    ensures padded == Split(data, k, shardSize)
  {
    padded := seq(k, i => Zeros(shardSize));
    ghost var pieces := Split(data, k, shardSize);
    for i := 0 to k
      invariant |padded| == k
      invariant forall j | 0 <= j < i :: padded[j] == pieces[j]
      invariant forall j | i <= j < k :: padded[j] == Zeros(shardSize)
    {
      var piece := FillPiece(data, shardSize, i, padded[i]);
      padded := padded[i := piece];
    }
  }

  method FillPiece(data: Bytes, shardSize: nat, i: nat, buffer: Bytes) returns (piece: Bytes)
    requires buffer == Zeros(shardSize)
    ensures piece == Piece(data, shardSize, i)
  {
    PieceIs(data, shardSize, i);
    var start := i * shardSize;
    if start >= |data| {
      return buffer;
    }
    var end := if start + shardSize < |data| then start + shardSize else |data|;
    piece := CopyInto(buffer, data[start..end]);
  }

  method ZeroBeyond(data: Bytes, k: nat, shardSize: nat, pieces: seq<Bytes>) returns (padded: seq<Bytes>)
    requires pieces == Split(data, k, shardSize)
    ensures padded == pieces
  {
    padded := pieces;
    for i := 0 to k
      invariant padded == pieces
    {
      PieceIs(data, shardSize, i);
      if i * shardSize >= |data| {
        padded := padded[i := Zeros(shardSize)];
      }
    }
  }

  /** copy into a zeroed buffer. */
  method CopyInto(buffer: Bytes, data: Bytes) returns (r: Bytes)
    requires buffer == Zeros(|buffer|) && |data| <= |buffer|
    ensures r == Padded(data, |buffer|)
  {
    r := data + buffer[|data|..];
  }

  datatype Decoded = Ok(data: Bytes) | Err

  method AvailableShardSize(shards: seq<Bytes>) returns (n: nat)
    ensures n == 0 <==> SameSize(shards, 0)
    ensures n > 0 ==> exists s <- shards :: |s| == n
  {
    for i := 0 to |shards|
      invariant forall j | 0 <= j < i :: shards[j] == []
    {
      if shards[i] != [] {
        return |shards[i]|;
      }
    }
    return 0;
  }

  /** Decode: rebuild, check that the data shards are there, join and cut to size. */
  method Decode(c: Code, shards: seq<Bytes>, originalSize: int) returns (r: Decoded)
    requires |shards| == c.k + c.m
    ensures originalSize == 0 ==> r == Ok([])
    ensures originalSize < 0 ==> r == Err
    ensures originalSize > 0 && SameSize(shards, 0) ==> r == Err
    ensures originalSize > 0 && !SameSize(shards, 0) ==> r == Assemble(c, c.reconstruct(shards), originalSize)
  {
    if originalSize < 0 {
      return Err;
    }
    if originalSize == 0 {
      return Ok([]);
    }
    var size := AvailableShardSize(shards);
    if size == 0 {
      return Err;
    }
    var rebuilt := c.reconstruct(shards);
    if rebuilt.TooFew? || |rebuilt.shards| < c.k {
      return Err;
    }
    for i := 0 to c.k
      invariant forall j | 0 <= j < i :: rebuilt.shards[j] != []
    {
      if rebuilt.shards[i] == [] {
        return Err;
      }
    }
    var joined := Join(rebuilt.shards[..c.k]);
    if originalSize > |joined| {
      return Err;
    }
    return Ok(joined[..originalSize]);
  }

  function Assemble(c: Code, rebuilt: Result, size: nat): Decoded {
    if rebuilt.TooFew? || |rebuilt.shards| < c.k || exists i | 0 <= i < c.k :: rebuilt.shards[i] == [] then Err
    else
      var joined := Join(rebuilt.shards[..c.k]);
      if size > |joined| then Err else Ok(joined[..size])
  }

  lemma SameSizeThen(a: seq<Bytes>, b: seq<Bytes>, n: nat)
    requires SameSize(a, n) && SameSize(b, n)
    ensures SameSize(a + b, n)
  {
  }

  lemma {:induction false} EncodedIsCodeword(c: Code, data: Bytes)
    requires Sound(c) && data != []
    ensures Codeword(c, Encoded(c, data), ShardSize(|data|, c.k))
  {
    ShardSizeFits(|data|, c.k);
    var d := DataShards(c, data);
    var w := Encoded(c, data);
    assert w[..c.k] == d && w[c.k..] == c.parity(d);
    var n := ShardSize(|data|, c.k);
    assert |c.parity(d)| == c.m && SameSize(c.parity(d), n);
    SameSizeThen(d, c.parity(d), n);
  }

  lemma {:induction false} EncodedJoins(c: Code, data: Bytes)
    requires Sound(c) && data != []
    ensures Assemble(c, Rebuilt(Encoded(c, data)), |data|) == Ok(data)
  {
    EncodedIsCodeword(c, data);
    ShardSizeFits(|data|, c.k);
    SpanIs(c.k, ShardSize(|data|, c.k));
    JoinSplit(data, c.k, ShardSize(|data|, c.k));
    assert Padded(data, Span(c.k, ShardSize(|data|, c.k)))[..|data|] == data;
    var w := Encoded(c, data);
    assert w[..c.k] == DataShards(c, data);
  }

  lemma {:induction false} SomePresent(e: seq<Bytes>)
    ensures Present(e) >= 1 <==> !SameSize(e, 0)
  {
    if e != [] {
      SomePresent(e[1..]);
      assert e == [e[0]] + e[1..];
    }
  }

  /** Losing at most m shards of an encoded object loses nothing: whatever the data, trailing zeros
      included, decoding what is left gives it back. */
  method RoundTrip(c: Code, data: Bytes, left: seq<Bytes>) returns (r: Decoded)
    requires Sound(c) && data != [] && Erased(Encoded(c, data), left) && |left| - Present(left) <= c.m
    ensures r == Ok(data)
  {
    EncodedIsCodeword(c, data);
    EncodedJoins(c, data);
    SomePresent(left);
    r := Decode(c, left, |data|);
  }

  // --- contents that encode to the same shards ---

  /** The longer is the shorter with zeros behind it. */
  predicate Extends(a: Bytes, b: Bytes) {
    |a| <= |b| && b == Padded(a, |b|)
  }

  lemma {:induction false} SplitExtends(a: Bytes, b: Bytes, k: nat, n: nat)
    requires Extends(a, b)
    ensures Split(a, k, n) == Split(b, k, n)
    decreases k
  {
    if k > 0 {
      assert Padded(Take(a, n), n) == Padded(Take(b, n), n);
      assert Extends(Drop(a, n), Drop(b, n));
      SplitOff(a, k, n);
      SplitOff(b, k, n);
      SplitExtends(Drop(a, n), Drop(b, n), k - 1, n);
    }
  }

  lemma {:induction false} SplitsAlike(a: Bytes, b: Bytes, k: nat, n: nat)
    requires |a| <= |b| <= Span(k, n) && Split(a, k, n) == Split(b, k, n)
    ensures Extends(a, b)
  {
    JoinSplit(a, k, n);
    JoinSplit(b, k, n);
    assert Padded(a, Span(k, n))[..|b|] == Padded(a, |b|);
    assert Padded(b, Span(k, n))[..|b|] == b;
  }

  /** Two contents encode to the same shards exactly when they fill shards of one size and one of them
      is the other with zeros behind it: the filling is not told from the content. */
  lemma {:induction false} SameShardsIff(c: Code, a: Bytes, b: Bytes)
    requires c.k >= 1 && |a| <= |b|
    ensures Encoded(c, a) == Encoded(c, b) <==> ShardSize(|a|, c.k) == ShardSize(|b|, c.k) && Extends(a, b)
  {
    var n := ShardSize(|b|, c.k);
    ShardSizeFits(|b|, c.k);
    SpanIs(c.k, n);
    if Encoded(c, a) == Encoded(c, b) {
      assert DataShards(c, a) == Encoded(c, a)[..c.k] == Encoded(c, b)[..c.k] == DataShards(c, b);
      assert |DataShards(c, a)[0]| == ShardSize(|a|, c.k) && |DataShards(c, b)[0]| == n;
      SplitsAlike(a, b, c.k, n);
    }
    if ShardSize(|a|, c.k) == n && Extends(a, b) {
      SplitExtends(a, b, c.k, n);
    }
  }

  /** So a zero byte behind a content that leaves room in its shards does not show in them. */
  lemma {:induction false} ZeroByteUnseen(c: Code, d: Bytes)
    requires c.k >= 1 && |d| % c.k != 0
    ensures Encoded(c, d + [0]) == Encoded(c, d)
  {
    var q, r := |d| / c.k, |d| % c.k;
    assert |d| == c.k * q + r;
    SizeIs(|d|, c.k, q, r);
    SizeIs(|d| + 1, c.k, q, r + 1);
    assert Padded(d, |d| + 1) == d + [0];
    SameShardsIff(c, d, d + [0]);
  }

  lemma {:induction false} SizeIs(length: nat, k: nat, q: nat, r: nat)
    requires 0 < r <= k && length == k * q + r
    ensures ShardSize(length, k) == q + 1
  {
    ShardSizeFits(length, k);
    var n := ShardSize(length, k);
    assert k * (q + 1) == k * q + k;
    TimesGrows(k, n, q);
    TimesGrows(k, q + 1, n - 1);
  }

  lemma TimesGrows(k: nat, a: int, b: int)
    ensures a <= b ==> k * a <= k * b
  {
  }
}
