/** Multipart uploads: parts put in any order and over each other, then assembled. */
module Multipart {
  import opened Names
  import opened Rfc1321
  import opened StreamingMd5

  type Bytes = seq<Byte>

  /** The MD5 in use (see StreamingMd5 for the store's own). */
  type Hash = Bytes -> Bytes

  ghost predicate Sized(md5: Hash) {
    forall m: Bytes :: |md5(m)| == 16
  }

  // --- text forms ---

  function HexDigit(n: nat): char
    requires n < 16
  {
    if n < 10 then (n + '0' as int) as char else (n - 10 + 'a' as int) as char
  }

  function HexValue(c: char): int {
    if '0' <= c <= '9' then c as int - '0' as int
    else if 'a' <= c <= 'f' then c as int - 'a' as int + 10
    else if 'A' <= c <= 'F' then c as int - 'A' as int + 10
    else -1
  }

  function HexEncode(b: Bytes): string {
    if b == [] then "" else [HexDigit(b[0] as int / 16), HexDigit(b[0] as int % 16)] + HexEncode(b[1..])
  }

  datatype Option<+T> = None | Some(value: T)

  function HexDecode(s: string): Option<Bytes> {
    if s == "" then Some([])
    else if |s| == 1 || HexValue(s[0]) < 0 || HexValue(s[1]) < 0 then None
    else match HexDecode(s[2..])
      case None => None
      case Some(rest) => Some([(HexValue(s[0]) * 16 + HexValue(s[1])) as Byte] + rest)
  }

  lemma {:induction false} HexRoundTrip(b: Bytes)
    ensures HexDecode(HexEncode(b)) == Some(b)
    ensures forall c <- HexEncode(b) :: HexValue(c) >= 0
    ensures |HexEncode(b)| == 2 * |b|
  {
    if b != [] {
      var s := HexEncode(b);
      assert s[2..] == HexEncode(b[1..]);
      HexRoundTrip(b[1..]);
      HexPair(b[0]);
      assert b == [b[0]] + b[1..];
    }
  }

  lemma HexPair(x: Byte)
    ensures var hi, lo := HexDigit(x as int / 16), HexDigit(x as int % 16);
      HexValue(hi) >= 0 && HexValue(lo) >= 0 && HexValue(hi) * 16 + HexValue(lo) == x as int
  {
  }

  function TrimQuotes(s: string): string {
    if s == "" then s
    else if s[0] == '"' then TrimQuotes(s[1..])
    else if s[|s| - 1] == '"' then TrimQuotes(s[..|s| - 1])
    else s
  }

  /** quoteETag. */
  function Quote(s: string): string {
    "\"" + TrimQuotes(s) + "\""
  }

  lemma {:induction false} QuoteTrims(s: string)
    requires '"' !in s
    ensures TrimQuotes(s) == s && Quote(s) == "\"" + s + "\"" && TrimQuotes(Quote(s)) == s
  {
    assert s != "" ==> s[0] in s && s[|s| - 1] in s;
    var q, t := Quote(s), s + "\"";
    assert q[1..] == t && t[..|s|] == s;
    assert TrimQuotes(q) == TrimQuotes(t);
    if s != "" {
      assert t[0] == s[0];
      assert TrimQuotes(t) == TrimQuotes(s);
    } else {
      assert t[1..] == "";
    }
  }

  function Itoa(n: nat): string {
    if n < 10 then [HexDigit(n)] else Itoa(n / 10) + [HexDigit(n % 10)]
  }

  // --- parts ---

  datatype Part = Part(number: nat, etag: string, digest: string, size: nat)

  datatype Upload = Upload(id: string, bucket: string, key: string, parts: map<nat, Part>)

  datatype Requested = Requested(number: int, etag: string)

  datatype Error = InvalidPart | InvalidPartOrder | EntityTooSmall | NoSuchUpload | InvalidUploadId

  datatype Result<+T> = Ok(value: T) | Err(error: Error)

  const MinPartSize := 5 * 1024 * 1024

  predicate ETagMatches(stored: string, requested: string) {
    Trim(requested) == "" || TrimQuotes(stored) == TrimQuotes(Trim(requested))
  }

  function EnsureDigest(p: Part): Part {
    if Trim(p.digest) == "" then p.(digest := TrimQuotes(p.etag)) else p
  }

  /** What completion is asked for must be parts that exist, with matching tags, in ascending order. */
  predicate Listed(upload: Upload, requested: seq<Requested>) {
    && (forall i | 0 <= i < |requested| ::
         requested[i].number >= 1 && requested[i].number in upload.parts && ETagMatches(upload.parts[requested[i].number].etag, requested[i].etag))
    && forall i, j | 0 <= i < j < |requested| :: requested[i].number < requested[j].number
  }

  function Chosen(upload: Upload, requested: seq<Requested>): seq<Part>
    requires Listed(upload, requested)
  {
    seq(|requested|, i requires 0 <= i < |requested| => EnsureDigest(upload.parts[requested[i].number]))
  }

  /** Every part but the last has the least size. */
  predicate LargeEnough(parts: seq<Part>) {
    forall i | 0 <= i < |parts| - 1 :: parts[i].size >= MinPartSize
  }

  /** The first thing wrong with a request, reading it from the front. */
  function Problem(upload: Upload, requested: seq<Requested>, previous: int): Option<Error> {
    if requested == [] then None
    else
      var item := requested[0];
      if item.number <= previous then Some(InvalidPartOrder)
      else if item.number < 0 || item.number !in upload.parts || !ETagMatches(upload.parts[item.number].etag, item.etag) then Some(InvalidPart)
      else Problem(upload, requested[1..], item.number)
  }

  function Refusal(upload: Upload, requested: seq<Requested>): Error {
    if requested == [] then InvalidPart
    else match Problem(upload, requested, 0) case Some(e) => e case None => EntityTooSmall
  }

  lemma {:induction false} ProblemIff(upload: Upload, requested: seq<Requested>, previous: int)
    requires previous >= 0
    ensures Problem(upload, requested, previous).None? <==>
            Listed(upload, requested) && (requested != [] ==> requested[0].number > previous)
  {
    if requested != [] {
      var item := requested[0];
      var rest := requested[1..];
      if item.number > previous && item.number in upload.parts && ETagMatches(upload.parts[item.number].etag, item.etag) {
        ProblemIff(upload, rest, item.number);
        if Problem(upload, rest, item.number).None? {
          forall i, j | 0 <= i < j < |requested|
            ensures requested[i].number < requested[j].number
          {
            assert requested[j] == rest[j - 1];
            assert i > 0 ==> requested[i] == rest[i - 1];
          }
        } else if Listed(upload, requested) {
          ListedTail(upload, requested);
        }
      }
    }
  }

  lemma {:induction false} ListedTail(upload: Upload, requested: seq<Requested>)
    requires Listed(upload, requested) && requested != []
    ensures Listed(upload, requested[1..]) && (|requested| > 1 ==> requested[1].number > requested[0].number)
  {
  }

  method ValidateSizes(parts: seq<Part>) returns (ok: bool)
    ensures ok <==> LargeEnough(parts)
  {
    if |parts| < 2 {
      return true;
    }
    for index := 0 to |parts| - 1
      invariant forall i | 0 <= i < index :: parts[i].size >= MinPartSize
    {
      if parts[index].size < MinPartSize {
        return false;
      }
    }
    return true;
  }

  /** completeParts: the stored parts for a request, or the first thing wrong with it. */
  method CompleteParts(upload: Upload, requested: seq<Requested>) returns (r: Result<seq<Part>>)
    ensures r.Ok? <==> requested != [] && Listed(upload, requested) && LargeEnough(Chosen(upload, requested))
    ensures r.Ok? ==> r.value == Chosen(upload, requested)
    ensures r.Err? ==> r.error == Refusal(upload, requested)
  {
    if requested == [] {
      return Err(InvalidPart);
    }
    ProblemIff(upload, requested, 0);
    var parts: seq<Part> := [];
    var previous := 0;
    for k := 0 to |requested|
      invariant previous >= 0 && |parts| == k
      invariant Problem(upload, requested, 0) == Problem(upload, requested[k..], previous)
      invariant forall i | 0 <= i < k :: requested[i].number >= 0 && requested[i].number in upload.parts && parts[i] == EnsureDigest(upload.parts[requested[i].number])
    {
      var item := requested[k];
      assert requested[k..][0] == item && requested[k..][1..] == requested[k + 1..];
      if item.number <= previous {
        return Err(InvalidPartOrder);
      }
      if item.number !in upload.parts || !ETagMatches(upload.parts[item.number].etag, item.etag) {
        return Err(InvalidPart);
      }
      parts := parts + [EnsureDigest(upload.parts[item.number])];
      previous := item.number;
    }
    assert parts == Chosen(upload, requested);
    var large := ValidateSizes(parts);
    return if large then Ok(parts) else Err(EntityTooSmall);
  }

  // --- the tag of a completed upload ---

  function Digests(md5: Hash, bs: seq<Bytes>): Bytes {
    if bs == [] then [] else md5(bs[0]) + Digests(md5, bs[1..])
  }

  /** The tag S3 promises: the MD5 of the parts' MD5s, then the number of parts. */
  function PromisedETag(md5: Hash, bs: seq<Bytes>): string {
    "\"" + HexEncode(md5(Digests(md5, bs))) + "-" + Itoa(|bs|) + "\""
  }

  /** A stored part that describes its bytes. */
  predicate Describes(md5: Hash, p: Part, number: nat, data: Bytes) {
    p == Part(number, Quote(HexEncode(md5(data))), HexEncode(md5(data)), |data|)
  }

  /** The decoded digest of a part, if it has one. */
  function PartDigest(p: Part): Option<Bytes> {
    match HexDecode(TrimQuotes(p.digest))
    case Some(d) => if |d| == 16 then Some(d) else None
    case None => None
  }

  /** All parts' digests one after the other, if every part has one. */
  function PartDigests(parts: seq<Part>): Option<Bytes> {
    if parts == [] then Some([])
    else match (PartDigest(parts[0]), PartDigests(parts[1..]))
      case (Some(d), Some(rest)) => Some(d + rest)
      case _ => None
  }

  function ETagText(parts: seq<Part>): Bytes {
    if parts == [] then [] else Latin(parts[0].etag) + ETagText(parts[1..])
  }

  /** The bytes of an entity tag. */
  function Latin(s: string): Bytes {
    seq(|s|, i requires 0 <= i < |s| => (s[i] as int % 256) as Byte)
  }

  function CompleteETag(md5: Hash, parts: seq<Part>): string {
    var text := match PartDigests(parts) case Some(d) => d case None => ETagText(parts);
    Quote(HexEncode(md5(text)) + "-" + Itoa(|parts|))
  }

  /** multipartCompleteETag, with its fallback for parts that carry no MD5. */
  method ComputeETag(md5: Hash, parts: seq<Part>) returns (etag: string)
    ensures etag == CompleteETag(md5, parts)
  {
    var digests: Bytes := [];
    PrependNothing(PartDigests(parts));
    for k := 0 to |parts|
      invariant PartDigests(parts) == Prepend(digests, PartDigests(parts[k..]))
    {
      assert parts[k..][0] == parts[k] && parts[k..][1..] == parts[k + 1..];
      var d := HexDecode(TrimQuotes(parts[k].digest));
      if d.None? || |d.value| != 16 {
        etag := FallbackETag(md5, parts);
        return;
      }
      PrependTwice(digests, d.value, PartDigests(parts[k + 1..]));
      digests := digests + d.value;
    }
    assert parts[|parts|..] == [];
    assert digests + [] == digests;
    etag := Quote(HexEncode(md5(digests)) + "-" + Itoa(|parts|));
  }

  function Prepend(a: Bytes, o: Option<Bytes>): Option<Bytes> {
    match o case None => None case Some(b) => Some(a + b)
  }

  lemma PrependNothing(o: Option<Bytes>)
    ensures Prepend([], o) == o
  {
    if o.Some? { assert [] + o.value == o.value; }
  }

  lemma PrependTwice(a: Bytes, d: Bytes, o: Option<Bytes>)
    ensures Prepend(a + d, o) == Prepend(a, Prepend(d, o))
  {
    if o.Some? { assert a + d + o.value == a + (d + o.value); }
  }

  method FallbackETag(md5: Hash, parts: seq<Part>) returns (etag: string)
    ensures etag == Quote(HexEncode(md5(ETagText(parts))) + "-" + Itoa(|parts|))
  {
    var text: Bytes := [];
    for k := 0 to |parts|
      invariant text + ETagText(parts[k..]) == ETagText(parts)
    {
      assert parts[k..][1..] == parts[k + 1..];
      assert text + (Latin(parts[k].etag) + ETagText(parts[k + 1..])) == text + Latin(parts[k].etag) + ETagText(parts[k + 1..]);
      text := text + Latin(parts[k].etag);
    }
    assert parts[|parts|..] == [] && text + [] == text;
    etag := Quote(HexEncode(md5(text)) + "-" + Itoa(|parts|));
  }

  lemma {:induction false} JoinedSnoc(chunks: seq<Bytes>, c: Bytes)
    ensures Joined(chunks + [c]) == Joined(chunks) + c
  {
    if chunks == [] {
      assert chunks + [c] == [c] && [c][1..] == [];
    } else {
      assert (chunks + [c])[1..] == chunks[1..] + [c];
      JoinedSnoc(chunks[1..], c);
    }
  }

  /** Parts that describe their bytes complete to the promised tag. */
  lemma {:induction false} PromiseKept(md5: Hash, parts: seq<Part>, bs: seq<Bytes>)
    requires Sized(md5) && |parts| == |bs| && forall i | 0 <= i < |bs| :: Describes(md5, parts[i], parts[i].number, bs[i])
    ensures CompleteETag(md5, parts) == PromisedETag(md5, bs)
  {
    DigestsKept(md5, parts, bs);
    var t := HexEncode(md5(Digests(md5, bs))) + "-" + Itoa(|bs|);
    HexRoundTrip(md5(Digests(md5, bs)));
    ItoaPlain(|bs|);
    QuoteTrims(t);
  }

  lemma {:induction false} DigestsKept(md5: Hash, parts: seq<Part>, bs: seq<Bytes>)
    requires Sized(md5) && |parts| == |bs| && forall i | 0 <= i < |bs| :: Describes(md5, parts[i], parts[i].number, bs[i])
    ensures PartDigests(parts) == Some(Digests(md5, bs))
  {
    if parts != [] {
      DigestKept(md5, parts[0], bs[0]);
      DigestsKept(md5, parts[1..], bs[1..]);
    }
  }

  lemma {:induction false} DigestKept(md5: Hash, p: Part, data: Bytes)
    requires Sized(md5) && Describes(md5, p, p.number, data)
    ensures PartDigest(p) == Some(md5(data)) && EnsureDigest(p) == p
  {
    HexRoundTrip(md5(data));
    QuoteTrims(p.digest);
    HexNotSpace(p.digest);
  }

  /** MD5 is such a hash. */
  lemma {:induction false} Md5Sized()
    ensures Sized(Md5)
  {
    forall m: Bytes
      ensures |Md5(m)| == 16
    {
      OutputSize(Process(Standard, Standard.initial, Padded(m)));
    }
  }

  lemma OutputSize(r: Registers<Word>)
    ensures |Output(Standard, r)| == 16
  {
    assert Standard.store(r.a) == Rfc1321.Store(r.a) && Standard.store(r.b) == Rfc1321.Store(r.b);
    assert Standard.store(r.c) == Rfc1321.Store(r.c) && Standard.store(r.d) == Rfc1321.Store(r.d);
  }

  lemma {:induction false} HexNotSpace(s: string)
    requires s != "" && forall c <- s :: HexValue(c) >= 0
    ensures Trim(s) != ""
  {
    assert s[0] in s;
    BlankIff(s);
  }

  lemma {:induction false} ItoaPlain(n: nat)
    ensures '"' !in Itoa(n)
  {
    if n >= 10 { ItoaPlain(n / 10); }
  }

  // --- the uploads in progress ---

  /** What happened to the uploads, in order. */
  datatype Event =
    | Initiated(id: string)
    | PartPut(id: string, number: nat, data: Bytes)
    | Ended(id: string)

  /** The bytes last put under a part number since the upload began. */
  function Latest(h: seq<Event>, id: string, number: nat): Option<Bytes> {
    if h == [] then None
    else
      var e := h[|h| - 1];
      if e.id != id then Latest(h[..|h| - 1], id, number)
      else if e.PartPut? then (if e.number == number then Some(e.data) else Latest(h[..|h| - 1], id, number))
      else None
  }

  predicate IdChar(c: char) {
    'a' <= c <= 'z' || 'A' <= c <= 'Z' || '0' <= c <= '9' || c == '-' || c == '_'
  }

  predicate ValidUploadId(id: string) {
    Trim(id) != "" && |Trim(id)| <= 128 && forall c <- Trim(id) :: IdChar(c)
  }

  lemma {:induction false} LatestStep(h: seq<Event>, e: Event, id: string, n: nat)
    ensures Latest(h + [e], id, n) ==
      if e.id != id then Latest(h, id, n)
      else if e.PartPut? then (if e.number == n then Some(e.data) else Latest(h, id, n))
      else None
  {
    assert (h + [e])[..|h|] == h;
  }

  /** A part number whose record describes the file, which holds what was put last. */
  ghost predicate PartRecorded(md5: Hash, h: seq<Event>, files: map<(string, nat), Bytes>, id: string, parts: map<nat, Part>, n: nat) {
    && (n in parts <==> Latest(h, id, n).Some?)
    && (n in parts ==> 1 <= n <= 10000 && (id, n) in files && Latest(h, id, n) == Some(files[(id, n)])
                       && Describes(md5, parts[n], n, files[(id, n)]))
  }

  ghost predicate Recorded(md5: Hash, h: seq<Event>, files: map<(string, nat), Bytes>, id: string, u: Upload) {
    u.id == id && forall n: nat :: PartRecorded(md5, h, files, id, u.parts, n)
  }

  /** What happens to one upload leaves the records of the others as they are. */
  lemma {:induction false} OthersRecorded(md5: Hash, h: seq<Event>, e: Event, files: map<(string, nat), Bytes>, files': map<(string, nat), Bytes>, id: string, u: Upload)
    requires Recorded(md5, h, files, id, u) && e.id != id
    requires forall n: nat :: (id, n) in files ==> (id, n) in files' && files'[(id, n)] == files[(id, n)]
    ensures Recorded(md5, h + [e], files', id, u)
  {
    forall n: nat
      ensures PartRecorded(md5, h + [e], files', id, u.parts, n)
    {
      assert PartRecorded(md5, h, files, id, u.parts, n);
      LatestStep(h, e, id, n);
    }
  }

  lemma {:induction false} InitiatedRecorded(md5: Hash, h: seq<Event>, files: map<(string, nat), Bytes>, id: string, u: Upload)
    requires u.id == id && u.parts == map[]
    ensures Recorded(md5, h + [Initiated(id)], files, id, u)
  {
    var after := h + [Initiated(id)];
    forall n: nat
      ensures PartRecorded(md5, after, files, id, u.parts, n)
    {
      LatestStep(h, Initiated(id), id, n);
    }
  }

  lemma {:induction false} PutRecorded(md5: Hash, h: seq<Event>, files: map<(string, nat), Bytes>, id: string, u: Upload, k: nat, data: Bytes, part: Part)
    requires Recorded(md5, h, files, id, u) && 1 <= k <= 10000 && Describes(md5, part, k, data)
    ensures Recorded(md5, h + [PartPut(id, k, data)], files[(id, k) := data], id, u.(parts := u.parts[k := part]))
  {
    var after, files', parts := h + [PartPut(id, k, data)], files[(id, k) := data], u.parts[k := part];
    forall n: nat
      ensures PartRecorded(md5, after, files', id, parts, n)
    {
      assert PartRecorded(md5, h, files, id, u.parts, n);
      LatestStep(h, PartPut(id, k, data), id, n);
    }
  }

  datatype Assembled = Assembled(data: Bytes, etag: string)

  /** The latest bytes of the requested parts, in the order asked for. */
  function LatestParts(h: seq<Event>, id: string, requested: seq<Requested>): seq<Bytes>
    requires forall i | 0 <= i < |requested| :: requested[i].number >= 0 && Latest(h, id, requested[i].number).Some?
  {
    seq(|requested|, i requires 0 <= i < |requested| => Latest(h, id, requested[i].number).value)
  }

  class UploadStore {
    const md5: Hash
    /** The metadata file of each upload directory, and the part files. */
    var uploads: map<string, Upload>
    var files: map<(string, nat), Bytes>
    ghost var history: seq<Event>

    ghost predicate Valid()
      reads this
    {
      Sized(md5) && forall id <- uploads :: Recorded(md5, history, files, id, uploads[id])
    }

    constructor (md5: Hash)
      requires Sized(md5)
      ensures Valid() && uploads == map[] && history == [] && this.md5 == md5
    {
      this.md5 := md5;
      uploads, files, history := map[], map[], [];
    }

    method Initiate(id: string, bucket: string, key: string) returns (r: Result<Upload>)
      requires Valid()
      modifies this
      ensures Valid()
      ensures r.Ok? <==> Trim(bucket) != "" && Trim(key) != ""
      ensures r.Ok? ==> r.value == Upload(id, Trim(bucket), Trim(key), map[])
      ensures uploads == if r.Ok? then old(uploads)[id := r.value] else old(uploads)
      ensures history == if r.Ok? then old(history) + [Initiated(id)] else old(history)
    {
      var upload := Upload(id, Trim(bucket), Trim(key), map[]);
      if upload.bucket == "" || upload.key == "" {
        return Err(InvalidPart);
      }
      InitiatedRecorded(md5, history, files, id, upload);
      forall x | x in uploads && x != id
        ensures Recorded(md5, history + [Initiated(id)], files, x, uploads[x])
      {
        OthersRecorded(md5, history, Initiated(id), files, files, x, uploads[x]);
      }
      uploads := uploads[id := upload];
      history := history + [Initiated(id)];
      return Ok(upload);
    }

    method Load(id: string) returns (r: Result<Upload>)
      ensures r == if !ValidUploadId(id) then Err(InvalidUploadId) else if id !in uploads then Err(NoSuchUpload) else Ok(uploads[id])
    {
      if !ValidUploadId(id) {
        return Err(InvalidUploadId);
      }
      return if id in uploads then Ok(uploads[id]) else Err(NoSuchUpload);
    }

    method PutPart(id: string, bucket: string, key: string, number: int, data: Bytes) returns (r: Result<Part>)
      requires Valid()
      modifies this
      ensures Valid()
      ensures r.Ok? <==> ValidUploadId(id) && id in old(uploads) && old(uploads)[id].bucket == bucket && old(uploads)[id].key == key && 1 <= number <= 10000
      ensures r.Ok? ==> Describes(md5, r.value, number, data) && history == old(history) + [PartPut(id, number, data)]
      ensures r.Ok? ==> uploads == old(uploads)[id := old(uploads)[id].(parts := old(uploads)[id].parts[number := r.value])]
      ensures r.Err? ==> uploads == old(uploads) && files == old(files) && history == old(history)
    {
      var loaded := Load(id);
      if loaded.Err? {
        return Err(loaded.error);
      }
      var upload := loaded.value;
      if upload.bucket != bucket || upload.key != key {
        return Err(NoSuchUpload);
      }
      if number < 1 || number > 10000 {
        return Err(InvalidPart);
      }
      var sum := md5(data);
      var part := Part(number, Quote(HexEncode(sum)), HexEncode(sum), |data|);
      PutRecorded(md5, history, files, id, upload, number, data, part);
      forall x | x in uploads && x != id
        ensures Recorded(md5, history + [PartPut(id, number, data)], files[(id, number) := data], x, uploads[x])
      {
        OthersRecorded(md5, history, PartPut(id, number, data), files, files[(id, number) := data], x, uploads[x]);
      }
      files := files[(id, number) := data];
      uploads := uploads[id := upload.(parts := upload.parts[number := part])];
      history := history + [PartPut(id, number, data)];
      return Ok(part);
    }

    /** abort, and the end of a completion. */
    method Abort(id: string) returns (r: Result<()>)
      requires Valid()
      modifies this
      ensures Valid()
      ensures r.Ok? <==> ValidUploadId(id) && id in old(uploads)
      ensures uploads == (if r.Ok? then old(uploads) - {id} else old(uploads))
      ensures history == (if r.Ok? then old(history) + [Ended(id)] else old(history))
    {
      if !ValidUploadId(id) {
        return Err(InvalidUploadId);
      }
      if id !in uploads {
        return Err(NoSuchUpload);
      }
      var left := map k | k in files && k.0 != id :: files[k];
      forall x | x in uploads && x != id
        ensures Recorded(md5, history + [Ended(id)], left, x, uploads[x])
      {
        OthersRecorded(md5, history, Ended(id), files, left, x, uploads[x]);
      }
      uploads := uploads - {id};
      files := left;
      history := history + [Ended(id)];
      return Ok(());
    }

    /** assemble: an accepted completion holds the latest bytes of the requested parts in ascending
        part order, all but the last large enough, under the promised tag. */
    method Assemble(id: string, requested: seq<Requested>) returns (r: Result<Assembled>)
      requires Valid()
      ensures r.Ok? <==> ValidUploadId(id) && id in uploads && requested != [] && Listed(uploads[id], requested) && LargeEnough(Chosen(uploads[id], requested))
      ensures r.Ok? ==>
        && (forall i | 0 <= i < |requested| :: requested[i].number >= 1 && Latest(history, id, requested[i].number).Some?)
        && (forall i, j | 0 <= i < j < |requested| :: requested[i].number < requested[j].number)
        && var bs := LatestParts(history, id, requested);
           && r.value == Assembled(Joined(bs), PromisedETag(md5, bs))
           && forall i | 0 <= i < |bs| - 1 :: |bs[i]| >= MinPartSize
    {
      var loaded := Load(id);
      if loaded.Err? {
        return Err(loaded.error);
      }
      var completed := CompleteParts(loaded.value, requested);
      if completed.Err? {
        return Err(completed.error);
      }
      var parts := completed.value;
      ghost var bs := ChosenAreLatest(md5, history, files, id, loaded.value, requested);
      var data := Concatenate(id, parts, bs);
      PromiseKept(md5, parts, bs);
      var etag := ComputeETag(md5, parts);
      return Ok(Assembled(data, etag));
    }

    /** assembleLocked: the files of the parts, one behind the other. */
    method Concatenate(id: string, parts: seq<Part>, ghost bs: seq<Bytes>) returns (data: Bytes)
      requires |bs| == |parts| && forall k | 0 <= k < |parts| :: (id, parts[k].number) in files && files[(id, parts[k].number)] == bs[k]
      ensures data == Joined(bs)
    {
      data := [];
      for k := 0 to |parts|
        invariant data == Joined(bs[..k])
      {
        assert bs[..k + 1] == bs[..k] + [bs[k]];
        JoinedSnoc(bs[..k], bs[k]);
        data := data + files[(id, parts[k].number)];
      }
      assert bs[..|bs|] == bs;
    }

    /** The whole completion: assemble, hand the object over, drop the upload. */
    method Complete(id: string, requested: seq<Requested>) returns (r: Result<Assembled>)
      requires Valid()
      modifies this
      ensures Valid()
      ensures r.Ok? ==> id in old(uploads) && id !in uploads && old(Listed(uploads[id], requested))
      ensures r.Ok? ==> forall i | 0 <= i < |requested| :: old(Latest(history, id, requested[i].number)).Some?
      ensures r.Ok? ==> r.value == Assembled(Joined(old(LatestParts(history, id, requested))), PromisedETag(md5, old(LatestParts(history, id, requested))))
      ensures r.Err? ==> uploads == old(uploads) && history == old(history)
    {
      r := Assemble(id, requested);
      if r.Ok? {
        var ended := Abort(id);
      }
    }
  }

  lemma {:induction false} ChosenAreLatest(md5: Hash, h: seq<Event>, files: map<(string, nat), Bytes>, id: string, u: Upload, requested: seq<Requested>) returns (bs: seq<Bytes>)
    requires Sized(md5) && Recorded(md5, h, files, id, u) && Listed(u, requested)
    ensures forall i | 0 <= i < |requested| :: Latest(h, id, requested[i].number).Some?
    ensures bs == LatestParts(h, id, requested)
    ensures var parts := Chosen(u, requested);
      forall i | 0 <= i < |parts| :: Describes(md5, parts[i], requested[i].number, bs[i]) && (id, parts[i].number) in files && files[(id, parts[i].number)] == bs[i]
  {
    forall i | 0 <= i < |requested|
      ensures Latest(h, id, requested[i].number).Some?
    {
      assert PartRecorded(md5, h, files, id, u.parts, requested[i].number);
    }
    bs := LatestParts(h, id, requested);
    forall i | 0 <= i < |requested|
      ensures Describes(md5, Chosen(u, requested)[i], requested[i].number, bs[i]) && (id, requested[i].number) in files && files[(id, requested[i].number)] == bs[i]
    {
      assert PartRecorded(md5, h, files, id, u.parts, requested[i].number);
      DigestKept(md5, u.parts[requested[i].number], bs[i]);
    }
  }

  /** The store as it is opened, with MD5 as its hash. */
  method Open() returns (s: UploadStore)
    ensures fresh(s) && s.Valid() && s.md5 == Md5 && s.uploads == map[]
  {
    Md5Sized();
    s := new UploadStore(Md5);
  }
}
