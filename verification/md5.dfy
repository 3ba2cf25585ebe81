/** RFC 1321, as sections 3.1 to 3.5 describe it. */
module Rfc1321 {
  newtype Byte = x: int | 0 <= x < 256
  type Word = bv32

  datatype Registers<W> = Registers(a: W, b: W, c: W, d: W)

  /** What the algorithm does with words. Everything else in it is the same for any words. */
  datatype Ops<!W> = Ops(
    initial: Registers<W>,
    mix: (nat, W, W, W, W, W) -> W,
    add: (W, W) -> W,
    load: (Byte, Byte, Byte, Byte) -> W,
    store: W -> seq<Byte>)

  const Two64 := 0x1_0000_0000_0000_0000

  /** How many bytes a length is short of 56 modulo 64 (see GapFills). */
  function Gap(n: nat): nat {
    var r := n % 64;
    if r <= 56 then 56 - r else 120 - r
  }

  function Zeros(n: nat): seq<Byte> {
    seq(n, i => 0)
  }

  /** The low-order bytes of a number, lowest first. */
  function LittleEndian(n: nat, count: nat): seq<Byte> {
    if count == 0 then [] else [(n % 256) as Byte] + LittleEndian(n / 256, count - 1)
  }

  /** Sections 3.1 and 3.2: a one bit, zeros, and the bit length modulo 2^64. */
  function Padded(m: seq<Byte>): seq<Byte> {
    m + [0x80] + Zeros(Gap(|m| + 1)) + LittleEndian((8 * |m|) % Two64, 8)
  }

  function F(x: Word, y: Word, z: Word): Word { (x & y) | (!x & z) }
  function G(x: Word, y: Word, z: Word): Word { (x & z) | (y & !z) }
  function H(x: Word, y: Word, z: Word): Word { x ^ y ^ z }
  function I(x: Word, y: Word, z: Word): Word { y ^ (x | !z) }

  function Aux(i: nat, x: Word, y: Word, z: Word): Word {
    if i < 16 then F(x, y, z) else if i < 32 then G(x, y, z) else if i < 48 then H(x, y, z) else I(x, y, z)
  }

  /** The k of each operation, as section 3.4 lists them round by round. */
  function K(i: nat): (k: nat)
    requires i < 64
    ensures k < 16
  {
    if i < 16 then i else if i < 32 then K2(i - 16) else if i < 48 then K3(i - 32) else K4(i - 48)
  }

  function K2(j: nat): (k: nat)
    ensures k < 16
  {
    match j
    case 0 => 1 case 1 => 6 case 2 => 11 case 3 => 0 case 4 => 5 case 5 => 10 case 6 => 15 case 7 => 4
    case 8 => 9 case 9 => 14 case 10 => 3 case 11 => 8 case 12 => 13 case 13 => 2 case 14 => 7 case _ => 12
  }

  function K3(j: nat): (k: nat)
    ensures k < 16
  {
    match j
    case 0 => 5 case 1 => 8 case 2 => 11 case 3 => 14 case 4 => 1 case 5 => 4 case 6 => 7 case 7 => 10
    case 8 => 13 case 9 => 0 case 10 => 3 case 11 => 6 case 12 => 9 case 13 => 12 case 14 => 15 case _ => 2
  }

  function K4(j: nat): (k: nat)
    ensures k < 16
  {
    match j
    case 0 => 0 case 1 => 7 case 2 => 14 case 3 => 5 case 4 => 12 case 5 => 3 case 6 => 10 case 7 => 1
    case 8 => 8 case 9 => 15 case 10 => 6 case 11 => 13 case 12 => 4 case 13 => 11 case 14 => 2 case _ => 9
  }

  /** The s of each operation: four per round, repeated. */
  function S(i: nat): nat
  {
    if i < 16 then Pick(i % 4, 7, 12, 17, 22) else if i < 32 then Pick(i % 4, 5, 9, 14, 20)
    else if i < 48 then Pick(i % 4, 4, 11, 16, 23) else Pick(i % 4, 6, 10, 15, 21)
  }

  function Pick(j: nat, s0: nat, s1: nat, s2: nat, s3: nat): nat {
    if j == 0 then s0 else if j == 1 then s1 else if j == 2 then s2 else s3
  }

  type Table = t: seq<Word> | |t| == 64 witness seq(64, _ => 0)

  /** The integer parts of 4294967296 |sin i|, i from 1 to 64. */
  const T: Table := T1 + T2 + T3 + T4

  const T1: seq<Word> := [
    0xd76aa478, 0xe8c7b756, 0x242070db, 0xc1bdceee, 0xf57c0faf, 0x4787c62a, 0xa8304613, 0xfd469501,
    0x698098d8, 0x8b44f7af, 0xffff5bb1, 0x895cd7be, 0x6b901122, 0xfd987193, 0xa679438e, 0x49b40821]
  const T2: seq<Word> := [
    0xf61e2562, 0xc040b340, 0x265e5a51, 0xe9b6c7aa, 0xd62f105d, 0x02441453, 0xd8a1e681, 0xe7d3fbc8,
    0x21e1cde6, 0xc33707d6, 0xf4d50d87, 0x455a14ed, 0xa9e3e905, 0xfcefa3f8, 0x676f02d9, 0x8d2a4c8a]
  const T3: seq<Word> := [
    0xfffa3942, 0x8771f681, 0x6d9d6122, 0xfde5380c, 0xa4beea44, 0x4bdecfa9, 0xf6bb4b60, 0xbebfbc70,
    0x289b7ec6, 0xeaa127fa, 0xd4ef3085, 0x04881d05, 0xd9d4d039, 0xe6db99e5, 0x1fa27cf8, 0xc4ac5665]
  const T4: seq<Word> := [
    0xf4292244, 0x432aff97, 0xab9423a7, 0xfc93a039, 0x655b59c3, 0x8f0ccc92, 0xffeff47d, 0x85845dd1,
    0x6fa87e4f, 0xfe2ce6e0, 0xa3014314, 0x4e0811a1, 0xf7537e82, 0xbd3af235, 0x2ad7d2bb, 0xeb86d391]

  function Sine(i: nat): Word {
    if i < 64 then T[i] else 0
  }

  function Plus(x: Word, y: Word): Word { x + y }

  /** What an operation is made of: +, <<<, the auxiliary functions, T and s. */
  datatype Kit = Kit(
    add: (Word, Word) -> Word, rotate: (Word, nat) -> Word,
    f: (nat, Word, Word, Word) -> Word, t: nat -> Word, s: nat -> nat)

  /** What a becomes in the operation [abcd k s i]: b + ((a + f(b, c, d) + X[k] + T[i]) <<< s). */
  function Mix(kit: Kit, i: nat, a: Word, b: Word, c: Word, d: Word, w: Word): Word {
    kit.add(b, kit.rotate(kit.add(kit.add(kit.add(a, kit.f(i, b, c, d)), w), kit.t(i)), kit.s(i)))
  }

  /** The operator <<<. */
  function Rotate(w: Word, s: nat): Word {
    if s < 32 then w.RotateLeft(s) else w
  }

  /** Four bytes as a word, low-order byte first (section 2). */
  function Load(b0: Byte, b1: Byte, b2: Byte, b3: Byte): Word {
    (b0 as Word) | ((b1 as Word) << 8) | ((b2 as Word) << 16) | ((b3 as Word) << 24)
  }

  function Store(w: Word): seq<Byte> {
    [(w & 0xff) as Byte, ((w >> 8) & 0xff) as Byte, ((w >> 16) & 0xff) as Byte, ((w >> 24) & 0xff) as Byte]
  }

  /** Section 3.3: the registers hold 01234567, 89abcdef, fedcba98, 76543210, low-order bytes first. */
  const Initial := Registers(0x67452301 as Word, 0xefcdab89 as Word, 0x98badcfe as Word, 0x10325476 as Word)

  /** The word operations of the standard. */
  const StandardKit := Kit(Plus, Rotate, Aux, Sine, S)

  const Standard: Ops<Word> := Ops(
    Initial,
    (i: nat, a: Word, b: Word, c: Word, d: Word, w: Word) => Mix(StandardKit, i, a, b, c, d, w),
    Plus,
    Load,
    Store)

  /** Section 3.4 names the registers in place: ABCD, DABC, CDAB, BCDA and around again. */
  function Operate<W>(ops: Ops<W>, x: seq<W>, r: Registers<W>, i: nat): Registers<W>
    requires |x| == 16 && i < 64
  {
    var w := x[K(i)];
    if i % 4 == 0 then r.(a := ops.mix(i, r.a, r.b, r.c, r.d, w))
    else if i % 4 == 1 then r.(d := ops.mix(i, r.d, r.a, r.b, r.c, w))
    else if i % 4 == 2 then r.(c := ops.mix(i, r.c, r.d, r.a, r.b, w))
    else r.(b := ops.mix(i, r.b, r.c, r.d, r.a, w))
  }

  function Operations<W>(ops: Ops<W>, x: seq<W>, r: Registers<W>, n: nat): Registers<W>
    requires |x| == 16 && n <= 64
  {
    if n == 0 then r else Operate(ops, x, Operations(ops, x, r, n - 1), n - 1)
  }

  function WordAt<W>(ops: Ops<W>, data: seq<Byte>, i: nat): W
    requires 4 * i + 4 <= |data|
  {
    ops.load(data[4 * i], data[4 * i + 1], data[4 * i + 2], data[4 * i + 3])
  }

  function Words<W>(ops: Ops<W>, block: seq<Byte>): seq<W>
    requires |block| == 64
  {
    seq(16, i requires 0 <= i < 16 => WordAt(ops, block, i))
  }

  function Block<W>(ops: Ops<W>, r: Registers<W>, block: seq<Byte>): Registers<W>
    requires |block| == 64
  {
    var x := Words(ops, block);
    var e := Operations(ops, x, r, 4 * |x|);
    Registers(ops.add(r.a, e.a), ops.add(r.b, e.b), ops.add(r.c, e.c), ops.add(r.d, e.d))
  }

  /** All whole blocks, one after the other. */
  function Process<W>(ops: Ops<W>, r: Registers<W>, data: seq<Byte>): Registers<W>
    decreases |data|
  {
    if |data| < 64 then r else Process(ops, Block(ops, r, data[..64]), data[64..])
  }

  /** Section 3.5: A to D, low-order bytes first. */
  function Output<W>(ops: Ops<W>, r: Registers<W>): seq<Byte> {
    ops.store(r.a) + ops.store(r.b) + ops.store(r.c) + ops.store(r.d)
  }

  function DigestBy<W>(ops: Ops<W>, m: seq<Byte>): seq<Byte> {
    Output(ops, Process(ops, ops.initial, Padded(m)))
  }

  /** The MD5 message digest. */
  function Md5(m: seq<Byte>): seq<Byte> {
    DigestBy(Standard, m)
  }

  // --- facts about the definition ---

  lemma {:induction false} ProcessThen<W>(ops: Ops<W>, r: Registers<W>, x: seq<Byte>, y: seq<Byte>)
    requires |x| % 64 == 0
    ensures Process(ops, r, x + y) == Process(ops, Process(ops, r, x), y)
    decreases |x|
  {
    if x == [] {
      assert x + y == y;
    } else {
      assert (x + y)[..64] == x[..64] && (x + y)[64..] == x[64..] + y;
      ProcessThen(ops, Block(ops, r, x[..64]), x[64..], y);
    }
  }

  /** The least number of zero bytes that brings a length to 56 modulo 64. */
  lemma {:induction false} GapFills(n: nat, z: nat)
    ensures (n + Gap(n)) % 64 == 56
    ensures (n + z) % 64 == 56 ==> Gap(n) <= z
  {
    assert n == 64 * (n / 64) + n % 64;
  }

  /** The padded message is a whole number of blocks. */
  lemma {:induction false} PaddedWhole(m: seq<Byte>)
    ensures |Padded(m)| % 64 == 0
  {
    LittleEndianSize(8 * |m| % Two64, 8);
    GapFills(|m| + 1, 0);
  }

  lemma {:induction false} LittleEndianSize(n: nat, count: nat)
    ensures |LittleEndian(n, count)| == count
  {
    if count > 0 { LittleEndianSize(n / 256, count - 1); }
  }

  /** Word operations that no digest can tell apart. */
  ghost predicate SameOps<W(!new)>(o: Ops<W>, p: Ops<W>) {
    && o.initial == p.initial
    && (forall i: nat, a: W, b: W, c: W, d: W, w: W | i < 64 :: o.mix(i, a, b, c, d, w) == p.mix(i, a, b, c, d, w))
    && (forall x: W, y: W :: o.add(x, y) == p.add(x, y))
    && (forall b0: Byte, b1: Byte, b2: Byte, b3: Byte :: o.load(b0, b1, b2, b3) == p.load(b0, b1, b2, b3))
    && (forall w: W :: o.store(w) == p.store(w))
  }

  lemma {:induction false} SameOperations<W(!new)>(o: Ops<W>, p: Ops<W>, x: seq<W>, r: Registers<W>, n: nat)
    requires SameOps(o, p) && |x| == 16 && n <= 64
    ensures Operations(o, x, r, n) == Operations(p, x, r, n)
  {
    if n > 0 { SameOperations(o, p, x, r, n - 1); }
  }

  lemma {:induction false} SameProcess<W(!new)>(o: Ops<W>, p: Ops<W>, r: Registers<W>, data: seq<Byte>)
    requires SameOps(o, p)
    ensures Process(o, r, data) == Process(p, r, data)
    decreases |data|
  {
    if |data| >= 64 {
      var x := Words(o, data[..64]);
      forall i | 0 <= i < 16
        ensures x[i] == WordAt(p, data[..64], i)
      {
        assert x[i] == WordAt(o, data[..64], i);
      }
      assert x == Words(p, data[..64]);
      SameOperations(o, p, x, r, 4 * |x|);
      SameProcess(o, p, Block(o, r, data[..64]), data[64..]);
    }
  }

  lemma {:induction false} SameDigest<W(!new)>(o: Ops<W>, p: Ops<W>, m: seq<Byte>)
    requires SameOps(o, p)
    ensures DigestBy(o, m) == DigestBy(p, m)
  {
    SameProcess(o, p, o.initial, Padded(m));
  }
}

/** The store's own streaming implementation. */
module StreamingMd5 {
  import opened Rfc1321

  const BlockSize := 64

  const Shift1: seq<nat> := [7, 12, 17, 22, 7, 12, 17, 22, 7, 12, 17, 22, 7, 12, 17, 22]
  const Shift2: seq<nat> := [5, 9, 14, 20, 5, 9, 14, 20, 5, 9, 14, 20, 5, 9, 14, 20]
  const Shift3: seq<nat> := [4, 11, 16, 23, 4, 11, 16, 23, 4, 11, 16, 23, 4, 11, 16, 23]
  const Shift4: seq<nat> := [6, 10, 15, 21, 6, 10, 15, 21, 6, 10, 15, 21, 6, 10, 15, 21]

  /** The table of shifts, a row per round. */
  function Shift(round: nat): nat {
    if round < 16 then Shift1[round] else if round < 32 then Shift2[round - 16]
    else if round < 48 then Shift3[round - 32] else if round < 64 then Shift4[round - 48] else 0
  }

  function RoundFunction(round: nat, b: Word, c: Word, d: Word): Word {
    if round < 16 then (b & c) | (!b & d)
    else if round < 32 then (d & b) | (!d & c)
    else if round < 48 then b ^ c ^ d
    else c ^ (b | !d)
  }

  function WordIndex(round: nat): (index: nat)
    ensures round < 64 ==> index < 16
  {
    if round < 16 then round
    else if round < 32 then (5 * round + 1) % 16
    else if round < 48 then (3 * round + 5) % 16
    else (7 * round) % 16
  }

  /** The computed round function, word index and shift table are those of section 3.4. */
  lemma {:induction false} RoundIsAux(round: nat, b: Word, c: Word, d: Word)
    ensures RoundFunction(round, b, c, d) == Aux(round, b, c, d)
  {
    if round < 16 {
      assert RoundFunction(round, b, c, d) == F(b, c, d);
    } else if round < 32 {
      SelectCommutes(b, c, d);
      assert RoundFunction(round, b, c, d) == G(b, c, d);
    } else if round < 48 {
      assert RoundFunction(round, b, c, d) == H(b, c, d);
    } else {
      assert RoundFunction(round, b, c, d) == I(b, c, d);
    }
  }

  lemma SelectCommutes(b: Word, c: Word, d: Word)
    ensures (d & b) | (!d & c) == G(b, c, d)
  {
  }

  lemma {:induction false} IndexIsK(round: nat)
    requires round < 64
    ensures WordIndex(round) == K(round)
  {
    if 16 <= round < 32 {
      SecondIndex(round - 16);
    } else if 32 <= round < 48 {
      ThirdIndex(round - 32);
    } else if 48 <= round {
      FourthIndex(round - 48);
    }
  }

  lemma SecondIndex(j: nat)
    requires j < 16
    ensures K2(j) == (5 * (16 + j) + 1) % 16
  {
  }

  lemma ThirdIndex(j: nat)
    requires j < 16
    ensures K3(j) == (3 * (32 + j) + 5) % 16
  {
  }

  lemma FourthIndex(j: nat)
    requires j < 16
    ensures K4(j) == (7 * (48 + j)) % 16
  {
  }

  lemma {:induction false} ShiftIsS(round: nat)
    requires round < 64
    ensures Shift(round) == S(round)
  {
    if round < 16 {
      RowPick(Shift1, 7, 12, 17, 22, round);
    } else if round < 32 {
      RowPick(Shift2, 5, 9, 14, 20, round - 16);
      SameLane(round - 16, 4);
    } else if round < 48 {
      RowPick(Shift3, 4, 11, 16, 23, round - 32);
      SameLane(round - 32, 8);
    } else {
      RowPick(Shift4, 6, 10, 15, 21, round - 48);
      SameLane(round - 48, 12);
    }
  }

  lemma SameLane(j: nat, q: nat)
    ensures (j + 4 * q) % 4 == j % 4
  {
    assert j == 4 * (j / 4) + j % 4;
    assert j + 4 * q == 4 * (j / 4 + q) + j % 4;
  }

  lemma {:induction false} RowPick(row: seq<nat>, s0: nat, s1: nat, s2: nat, s3: nat, j: nat)
    requires row == [s0, s1, s2, s3, s0, s1, s2, s3, s0, s1, s2, s3, s0, s1, s2, s3] && j < 16
    ensures row[j] == Pick(j % 4, s0, s1, s2, s3)
  {
    assert j == 4 * (j / 4) + j % 4;
  }

  /** The message word of a round, picked by the two switches. */
  function WordLow<W>(index: nat, words: seq<W>): W
    requires |words| == 16
  {
    match index
    case 0 => words[0] case 1 => words[1] case 2 => words[2] case 3 => words[3]
    case 4 => words[4] case 5 => words[5] case 6 => words[6] case _ => words[7]
  }

  function WordHigh<W>(index: nat, words: seq<W>): W
    requires |words| == 16
  {
    match index
    case 8 => words[8] case 9 => words[9] case 10 => words[10] case 11 => words[11]
    case 12 => words[12] case 13 => words[13] case 14 => words[14] case _ => words[15]
  }

  function WordOf<W>(round: nat, words: seq<W>): W
    requires |words| == 16
  {
    var index := WordIndex(round);
    if index < 8 then WordLow(index, words) else WordHigh(index, words)
  }

  lemma {:induction false} WordIsIndexed<W>(round: nat, words: seq<W>)
    requires |words| == 16 && round < 64
    ensures WordOf(round, words) == words[K(round)]
  {
    IndexIsK(round);
    WordSwitch(K(round), words);
  }

  lemma WordSwitch<W>(index: nat, words: seq<W>)
    requires |words| == 16 && index < 16
    ensures index < 8 ==> WordLow(index, words) == words[index]
    ensures index >= 8 ==> WordHigh(index, words) == words[index]
  {
  }

  /** The new word of a round, as the store adds it up. */
  function NextWord(kit: Kit, round: nat, a: Word, b: Word, c: Word, d: Word, word: Word): Word {
    kit.add(b, kit.rotate(kit.add(kit.add(kit.add(a, kit.f(round, b, c, d)), kit.t(round)), word), kit.s(round)))
  }

  lemma AddCommutes(x: Word, t: Word, w: Word)
    ensures (x + t) + w == (x + w) + t
  {
  }

  lemma SumCommutes(x: Word, t: Word, w: Word)
    ensures Plus(Plus(x, t), w) == Plus(Plus(x, w), t)
  {
    calc {
      Plus(Plus(x, t), w);
      Plus(x + t, w);
      (x + t) + w;
      { AddCommutes(x, t, w); }
      (x + w) + t;
      Plus(x + w, t);
      Plus(Plus(x, w), t);
    }
  }

  /** With the same round function and shift, the order of the sum does not matter. */
  lemma {:induction false} NextWordIsMix(k: Kit, n: Kit, i: nat, a: Word, b: Word, c: Word, d: Word, w: Word)
    requires k.add == n.add && k.rotate == n.rotate && k.t == n.t
    requires k.f(i, b, c, d) == n.f(i, b, c, d) && k.s(i) == n.s(i)
    requires var x := k.add(a, k.f(i, b, c, d)); k.add(k.add(x, k.t(i)), w) == k.add(k.add(x, w), k.t(i))
    ensures NextWord(k, i, a, b, c, d, w) == Mix(n, i, a, b, c, d, w)
  {
  }

  /** The word operations of the store. */
  const StoreKit := Kit(Plus, Rotate, RoundFunction, Sine, Shift)

  const Native: Ops<Word> := Ops(
    Initial,
    (i: nat, a: Word, b: Word, c: Word, d: Word, w: Word) => NextWord(StoreKit, i, a, b, c, d, w),
    Plus,
    Load,
    Store)

  lemma SameRound(i: nat, b: Word, c: Word, d: Word)
    requires i < 64
    ensures StoreKit.f(i, b, c, d) == StandardKit.f(i, b, c, d)
  {
    RoundIsAux(i, b, c, d);
  }

  lemma SameShift(i: nat)
    requires i < 64
    ensures StoreKit.s(i) == StandardKit.s(i)
  {
    ShiftIsS(i);
  }

  lemma SameKit()
    ensures StoreKit.add == StandardKit.add && StoreKit.rotate == StandardKit.rotate && StoreKit.t == StandardKit.t
  {
  }

  lemma KitCommutes(x: Word, t: Word, w: Word)
    ensures StoreKit.add(StoreKit.add(x, t), w) == StoreKit.add(StoreKit.add(x, w), t)
  {
    SumCommutes(x, t, w);
  }

  lemma MixIsStandard(i: nat, a: Word, b: Word, c: Word, d: Word, w: Word)
    requires i < 64
    ensures NextWord(StoreKit, i, a, b, c, d, w) == Mix(StandardKit, i, a, b, c, d, w)
  {
    SameRound(i, b, c, d);
    SameShift(i);
    SameKit();
    KitCommutes(StoreKit.add(a, StoreKit.f(i, b, c, d)), StoreKit.t(i), w);
    NextWordIsMix(StoreKit, StandardKit, i, a, b, c, d, w);
  }

  lemma {:induction false} NativeIsStandard()
    ensures SameOps(Native, Standard)
  {
    forall i: nat, a: Word, b: Word, c: Word, d: Word, w: Word | i < 64
      ensures Native.mix(i, a, b, c, d, w) == Standard.mix(i, a, b, c, d, w)
    {
      MixIsStandard(i, a, b, c, d, w);
    }
  }

  /** Where the rolled loop holds the registers after n turns. */
  function Rolled<W>(r: Registers<W>, n: nat): Registers<W> {
    if n % 4 == 0 then r
    else if n % 4 == 1 then Registers(r.d, r.a, r.b, r.c)
    else if n % 4 == 2 then Registers(r.c, r.d, r.a, r.b)
    else Registers(r.b, r.c, r.d, r.a)
  }

  /** One turn of the loop: a new word enters at b and every register moves down one place. */
  function Turn<W>(ops: Ops<W>, words: seq<W>, r: Registers<W>, round: nat): Registers<W>
    requires |words| == 16
  {
    Registers(r.d, ops.mix(round, r.a, r.b, r.c, r.d, WordOf(round, words)), r.b, r.c)
  }

  /** The rolled loop does section 3.4's operations on the registers it has moved around. */
  lemma {:induction false} TurnRefinesOperate<W>(ops: Ops<W>, words: seq<W>, r: Registers<W>, i: nat)
    requires |words| == 16 && i < 64
    ensures Turn(ops, words, Rolled(r, i), i) == Rolled(Operate(ops, words, r, i), i + 1)
  {
    NextLane(i);
    WordIsIndexed(i, words);
  }

  lemma NextLane(i: nat)
    ensures (i + 1) % 4 == if i % 4 == 3 then 0 else i % 4 + 1
  {
    assert i == 4 * (i / 4) + i % 4;
  }

  /** What the digest holds of the bytes written so far: whole blocks in the registers, the rest
      in the buffer. */
  ghost predicate Holding<W>(ops: Ops<W>, m: seq<Byte>, state: Registers<W>, buf: seq<Byte>, nx: nat) {
    && |buf| == BlockSize && nx == |m| % BlockSize
    && buf[..nx] == m[|m| - nx..]
    && state == Process(ops, ops.initial, m)
  }

  lemma {:induction false} ProcessBlock<W>(ops: Ops<W>, r: Registers<W>, p: seq<Byte>, block: seq<Byte>)
    requires |p| % BlockSize == 0 && |block| == BlockSize
    ensures Process(ops, r, p + block) == Block(ops, Process(ops, r, p), block)
    ensures |p + block| % BlockSize == 0
  {
    WholeMore(|p|);
    var s := Process(ops, r, p);
    calc {
      Process(ops, r, p + block);
      { ProcessThen(ops, r, p, block); }
      Process(ops, s, block);
      { OneBlock(ops, s, block); }
      Block(ops, s, block);
    }
  }

  lemma WholeMore(n: nat)
    requires n % BlockSize == 0
    ensures (n + BlockSize) % BlockSize == 0
  {
  }

  lemma OneBlock<W>(ops: Ops<W>, r: Registers<W>, block: seq<Byte>)
    requires |block| == BlockSize
    ensures Process(ops, r, block) == Block(ops, r, block)
  {
    assert block[..64] == block && block[64..] == [];
    assert Process(ops, Block(ops, r, block), block[64..]) == Block(ops, r, block);
  }

  lemma {:induction false} ProcessRest<W>(ops: Ops<W>, r: Registers<W>, p: seq<Byte>, rest: seq<Byte>)
    requires |p| % BlockSize == 0 && |rest| < BlockSize
    ensures Process(ops, r, p + rest) == Process(ops, r, p)
    ensures |p + rest| % BlockSize == |rest|
  {
    ProcessThen(ops, r, p, rest);
    RestMod(|p|, |rest|);
  }

  lemma RestMod(n: nat, m: nat)
    requires n % BlockSize == 0 && m < BlockSize
    ensures (n + m) % BlockSize == m
  {
  }

  lemma WholePart(n: nat)
    ensures n % BlockSize <= n && (n - n % BlockSize) % BlockSize == 0
  {
    assert n == 64 * (n / 64) + n % 64;
  }

  /** The message in whole blocks and what is buffered of it. */
  lemma {:induction false} Cut<W>(ops: Ops<W>, m: seq<Byte>, state: Registers<W>, buf: seq<Byte>, nx: nat)
    requires Holding(ops, m, state, buf, nx)
    ensures var whole := m[..|m| - nx]; m == whole + buf[..nx] && |whole| % BlockSize == 0 && state == Process(ops, ops.initial, whole)
  {
    var whole := m[..|m| - nx];
    assert m == whole + buf[..nx];
    WholePart(|m|);
    ProcessRest(ops, ops.initial, whole, buf[..nx]);
  }

  /** Bytes copied behind the buffered ones that do not fill the buffer. */
  lemma {:induction false} Appended<W>(ops: Ops<W>, m: seq<Byte>, state: Registers<W>, buf: seq<Byte>, nx: nat, data: seq<Byte>, after: seq<Byte>)
    requires Holding(ops, m, state, buf, nx) && nx + |data| < BlockSize
    requires |after| == BlockSize && after[..nx] == buf[..nx] && after[nx..nx + |data|] == data
    ensures Holding(ops, m + data, state, after, nx + |data|)
  {
    Cut(ops, m, state, buf, nx);
    var whole, tail := m[..|m| - nx], after[..nx + |data|];
    assert tail == buf[..nx] + data;
    assert m + data == whole + tail;
    ProcessRest(ops, ops.initial, whole, tail);
    assert (whole + tail)[|whole|..] == tail;
  }

  /** Bytes copied behind the buffered ones that fill it. */
  lemma {:induction false} Filled<W>(ops: Ops<W>, m: seq<Byte>, state: Registers<W>, buf: seq<Byte>, nx: nat, data: seq<Byte>, after: seq<Byte>)
    requires Holding(ops, m, state, buf, nx) && nx + |data| == BlockSize
    requires |after| == BlockSize && after[..nx] == buf[..nx] && after[nx..] == data
    ensures Holding(ops, m + data, Block(ops, state, after), after, 0)
  {
    Cut(ops, m, state, buf, nx);
    var whole := m[..|m| - nx];
    assert after == buf[..nx] + data;
    assert m + data == whole + after;
    ProcessBlock(ops, ops.initial, whole, after);
  }

  /** A whole block taken straight from the input. */
  lemma {:induction false} Absorbed<W>(ops: Ops<W>, m: seq<Byte>, state: Registers<W>, buf: seq<Byte>, block: seq<Byte>)
    requires Holding(ops, m, state, buf, 0) && |block| == BlockSize
    ensures Holding(ops, m + block, Block(ops, state, block), buf, 0)
  {
    ProcessBlock(ops, ops.initial, m, block);
  }

  lemma {:induction false} BlockOf<W>(ops: Ops<W>, m: seq<Byte>, data: seq<Byte>, n: nat, state: Registers<W>, buf: seq<Byte>)
    requires n + BlockSize <= |data| && Holding(ops, m + data[..n], state, buf, 0)
    ensures Holding(ops, m + data[..n + BlockSize], Block(ops, state, data[n..n + BlockSize]), buf, 0)
  {
    Absorbed(ops, m + data[..n], state, buf, data[n..n + BlockSize]);
    assert m + data[..n + BlockSize] == m + data[..n] + data[n..n + BlockSize];
  }

  lemma {:induction false} RestOf<W>(ops: Ops<W>, m: seq<Byte>, data: seq<Byte>, n: nat, state: Registers<W>, buf: seq<Byte>, after: seq<Byte>)
    requires n <= |data| < n + BlockSize && Holding(ops, m + data[..n], state, buf, 0)
    requires |after| == BlockSize && after[..|data| - n] == data[n..]
    ensures Holding(ops, m + data, state, after, |data| - n)
  {
    var rest := data[n..];
    assert after[0..0 + |rest|] == rest;
    Appended(ops, m + data[..n], state, buf, 0, rest, after);
    assert m + data == m + data[..n] + rest;
  }

  lemma HoldingNothing<W>(ops: Ops<W>, buf: seq<Byte>)
    requires |buf| == BlockSize
    ensures Holding(ops, [], ops.initial, buf, 0)
  {
    assert buf[..0] == [];
  }

  /** The digest as the store keeps it: registers, a buffer of one block, and how many bytes came. */
  class Digest<W(0)> {
    const ops: Ops<W>
    var state: Registers<W>
    var buf: array<Byte>
    var nx: nat
    var len: nat
    /** Everything written since the last reset. */
    ghost var message: seq<Byte>

    ghost predicate Valid()
      reads this, buf
    {
      buf.Length == BlockSize && Holding(ops, message, state, buf[..], nx) && len == |message| % Two64
    }

    constructor (ops: Ops<W>)
      ensures Valid() && fresh(buf) && message == [] && this.ops == ops
    {
      this.ops := ops;
      buf := new Byte[BlockSize](_ => 0);
      state, nx, len := ops.initial, 0, 0;
      message := [];
      new;
      HoldingNothing(ops, buf[..]);
    }

    constructor Copy(d: Digest<W>)
      requires d.Valid()
      ensures Valid() && fresh(buf) && message == d.message && ops == d.ops
    {
      ops := d.ops;
      buf := new Byte[BlockSize](i requires 0 <= i < BlockSize && d.Valid() reads d, d.buf => d.buf[i]);
      state, nx, len := d.state, d.nx, d.len;
      message := d.message;
      new;
      assert buf[..] == d.buf[..];
    }

    method Reset()
      requires Valid()
      modifies this
      ensures Valid() && message == [] && buf == old(buf)
    {
      state, nx, len := ops.initial, 0, 0;
      message := [];
    }

    method Write(data: seq<Byte>) returns (written: nat)
      requires Valid()
      modifies this, buf
      ensures Valid() && buf == old(buf)
      ensures message == old(message) + data && written == |data|
    {
      written := |data|;
      Count(data);
      Absorb(data);
      message := message + data;
    }

    method Absorb(data: seq<Byte>)
      requires buf.Length == BlockSize && Holding(ops, message, state, buf[..], nx)
      modifies this`nx, this`state, buf
      ensures Holding(ops, message + data, state, buf[..], nx)
    {
      var n := TopUp(data);
      n := Blocks(data, n);
      KeepRest(data, n);
    }

    method Count(data: seq<Byte>)
      requires len == |message| % Two64
      modifies this`len
      ensures len == |message + data| % Two64
    {
      LengthAdds(|message|, |data|);
      len := (len + |data|) % Two64;
    }

    /** Buffer what is left of the data. */
    method KeepRest(data: seq<Byte>, n: nat)
      requires n <= |data| < n + BlockSize && (nx == 0 || n == |data|)
      requires buf.Length == BlockSize && Holding(ops, message + data[..n], state, buf[..], nx)
      modifies this`nx, buf
      ensures Holding(ops, message + data, state, buf[..], nx)
    {
      if n == |data| {
        assert data[..n] == data;
        return;
      }
      ghost var before := buf[..];
      nx := CopyIn(0, data[n..]);
      assert data[n..][..nx] == data[n..];
      RestOf(ops, message, data, n, state, before, buf[..]);
    }

    /** Fill a buffer that is not empty; how much of the data that takes. */
    method TopUp(data: seq<Byte>) returns (n: nat)
      requires buf.Length == BlockSize && Holding(ops, message, state, buf[..], nx)
      modifies this`nx, this`state, buf
      ensures n <= |data| && (nx == 0 || n == |data|)
      ensures Holding(ops, message + data[..n], state, buf[..], nx)
    {
      n := 0;
      assert message + data[..0] == message;
      if nx > 0 {
        ghost var before := buf[..];
        n := CopyIn(nx, data);
        if nx + n == BlockSize {
          assert buf[..][nx..] == buf[nx..nx + n];
          Filled(ops, message, state, before, nx, data[..n], buf[..]);
          assert buf[..][..BlockSize] == buf[..];
          Compress(buf[..]);
          nx := 0;
        } else {
          Appended(ops, message, state, before, nx, data[..n], buf[..]);
          nx := nx + n;
        }
      }
    }

    method TakeBlock(data: seq<Byte>, n: nat)
      requires n + BlockSize <= |data| && nx == 0
      requires buf.Length == BlockSize && Holding(ops, message + data[..n], state, buf[..], nx)
      modifies this`state
      ensures Holding(ops, message + data[..n + BlockSize], state, buf[..], nx)
    {
      var block := data[n..n + BlockSize];
      assert block[..BlockSize] == block;
      BlockOf(ops, message, data, n, state, buf[..]);
      Compress(block);
    }

    /** Take whole blocks straight from the data; how far that gets. */
    method Blocks(data: seq<Byte>, start: nat) returns (n: nat)
      requires start <= |data| && (nx == 0 || start == |data|)
      requires buf.Length == BlockSize && Holding(ops, message + data[..start], state, buf[..], nx)
      modifies this`state
      ensures start <= n <= |data| < n + BlockSize && (nx == 0 || n == |data|)
      ensures Holding(ops, message + data[..n], state, buf[..], nx)
    {
      n := start;
      while |data| - n >= BlockSize
        invariant start <= n <= |data| && (nx == 0 || n == |data|)
        invariant Holding(ops, message + data[..n], state, buf[..], nx)
      {
        TakeBlock(data, n);
        n := n + BlockSize;
      }
    }

    /** copy: as much of the data as fits behind the first bytes of the buffer. */
    method CopyIn(at: nat, data: seq<Byte>) returns (n: nat)
      requires at <= buf.Length
      modifies buf
      ensures n == (if |data| < buf.Length - at then |data| else buf.Length - at)
      ensures buf[..at] == old(buf[..at]) && buf[at..at + n] == data[..n]
    {
      n := if |data| < buf.Length - at then |data| else buf.Length - at;
      forall i | 0 <= i < n {
        buf[at + i] := data[i];
      }
    }

    /** One block into the registers; anything shorter is ignored. */
    method Compress(data: seq<Byte>)
      modifies this`state
      ensures state == if |data| < BlockSize then old(state) else Block(ops, old(state), data[..BlockSize])
    {
      if |data| < BlockSize {
        return;
      }
      var words := new W[16];
      for index := 0 to 16
        invariant state == old(state)
        invariant forall i | 0 <= i < index :: words[i] == WordAt(ops, data[..BlockSize], i)
      {
        var offset := index * 4;
        words[index] := ops.load(data[offset], data[offset + 1], data[offset + 2], data[offset + 3]);
      }
      ghost var x := Words(ops, data[..BlockSize]);
      assert words[..] == x;
      var a, b, c, v := state.a, state.b, state.c, state.d;
      for round := 0 to 64
        invariant state == old(state) && words[..] == x
        invariant Registers(a, b, c, v) == Rolled(Operations(ops, x, state, round), round)
      {
        TurnRefinesOperate(ops, x, Operations(ops, x, state, round), round);
        var word := WordOf(round, words[..]);
        a, b, c, v := v, ops.mix(round, a, b, c, v, word), b, c;
      }
      state := Registers(ops.add(state.a, a), ops.add(state.b, b), ops.add(state.c, c), ops.add(state.d, v));
    }

    /** Pad to a whole number of blocks and append the length. */
    method Finish()
      requires Valid()
      modifies this, buf
      ensures Valid() && message == Padded(old(message))
    {
      var lengthBits := (len * 8) % Two64;
      var padLen := 56 - nx;
      if padLen <= 0 {
        padLen := padLen + BlockSize;
      }
      FinishPads(message, padLen);
      var _ := Write([0x80] + Zeros(padLen - 1));
      var _ := Write(LittleEndian(lengthBits, 8));
    }

    /** The digest of everything written; the receiver stays as it was and can go on. */
    method Sum() returns (output: seq<Byte>)
      requires Valid()
      ensures output == DigestBy(ops, message)
    {
      var copy := new Digest.Copy(this);
      copy.Finish();
      output := ops.store(copy.state.a) + ops.store(copy.state.b) + ops.store(copy.state.c) + ops.store(copy.state.d);
    }
  }

  /** What finish writes behind a message is the padding of sections 3.1 and 3.2. */
  lemma {:induction false} FinishPads(m: seq<Byte>, padLen: nat)
    requires padLen == if |m| % BlockSize < 56 then 56 - |m| % BlockSize else 120 - |m| % BlockSize
    ensures padLen > 0
    ensures m + ([0x80] + Zeros(padLen - 1)) + LittleEndian((|m| % Two64) * 8 % Two64, 8) == Padded(m)
  {
    GapAfterOne(|m|);
    assert m + ([0x80] + Zeros(padLen - 1)) == m + [0x80] + Zeros(padLen - 1);
    BitLength(|m|);
  }

  lemma GapAfterOne(n: nat)
    ensures Gap(n + 1) + 1 == if n % BlockSize < 56 then 56 - n % BlockSize else 120 - n % BlockSize
  {
    assert n == 64 * (n / 64) + n % 64;
  }

  /** Shifting the wrapped byte count gives the wrapped bit count. */
  lemma BitLength(n: nat)
    ensures (n % Two64) * 8 % Two64 == 8 * n % Two64
  {
    assert n == Two64 * (n / Two64) + n % Two64;
    assert 8 * n == Two64 * (8 * (n / Two64)) + (n % Two64) * 8;
  }

  lemma LengthAdds(m: nat, n: nat)
    ensures (m % Two64 + n) % Two64 == (m + n) % Two64
  {
    assert m == Two64 * (m / Two64) + m % Two64;
  }

  function Joined(chunks: seq<seq<Byte>>): seq<Byte> {
    if chunks == [] then [] else chunks[0] + Joined(chunks[1..])
  }

  lemma JoinedStep(m: seq<Byte>, chunks: seq<seq<Byte>>)
    requires chunks != []
    ensures m + chunks[0] + Joined(chunks[1..]) == m + Joined(chunks)
  {
  }

  /** Any number of writes append what was written, in order. */
  method WriteAll<W(0)>(digest: Digest<W>, chunks: seq<seq<Byte>>)
    requires digest.Valid()
    modifies digest, digest.buf
    ensures digest.Valid() && digest.buf == old(digest.buf)
    ensures digest.message == old(digest.message) + Joined(chunks)
    decreases |chunks|
  {
    if chunks == [] {
      assert digest.message + [] == digest.message;
    } else {
      var _ := digest.Write(chunks[0]);
      WriteAll(digest, chunks[1..]);
      JoinedStep(old(digest.message), chunks);
    }
  }

  method SumOf<W(0)>(ops: Ops<W>, chunks: seq<seq<Byte>>) returns (output: seq<Byte>)
    ensures output == DigestBy(ops, Joined(chunks))
  {
    var digest := new Digest(ops);
    WriteAll(digest, chunks);
    assert [] + Joined(chunks) == Joined(chunks);
    output := digest.Sum();
  }

  /** The store's MD5 of a message written in any pieces is the standard's. */
  method Md5Sum(chunks: seq<seq<Byte>>) returns (output: seq<Byte>)
    ensures output == Md5(Joined(chunks))
  {
    output := SumOf(Native, chunks);
    NativeIsStandard();
    SameDigest(Native, Standard, Joined(chunks));
  }
}
