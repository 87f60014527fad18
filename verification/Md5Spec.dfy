/** The MD5 message digest of RFC 1321, on whole messages. */
module Md5Spec {

  type Byte = bv8
  type Word = bv32

  /** The four chaining words, in the order A, B, C, D. */
  datatype Regs = Regs(a: Word, b: Word, c: Word, d: Word)

  /** Section 3.3. */
  const INIT := Regs(0x67452301, 0xefcdab89, 0x98badcfe, 0x10325476)

  // ---------------------------------------------------------------- section 3.4

  function Sum(x: Word, y: Word): Word {
    x + y
  }

  function RotateLeft(x: Word, s: Word): Word
    requires 0 < s < 32
  {
    (x << s) | (x >> (32 - s))
  }

  function F(x: Word, y: Word, z: Word): Word { (x & y) | (!x & z) }

  function G(x: Word, y: Word, z: Word): Word { (x & z) | (y & !z) }

  function H(x: Word, y: Word, z: Word): Word { x ^ y ^ z }

  function I(x: Word, y: Word, z: Word): Word { y ^ (x | !z) }

  /** The auxiliary function of a round; rounds and steps count from 0. */
  function Mix(round: nat, x: Word, y: Word, z: Word): Word {
    if round == 0 then F(x, y, z)
    else if round == 1 then G(x, y, z)
    else if round == 2 then H(x, y, z)
    else I(x, y, z)
  }

  /** Which message word step i uses. */
  function Index(i: nat): (k: nat)
    requires i < 64
    ensures k < 16
  {
    if i < 16 then i else if i < 32 then Index2(i) else if i < 48 then Index3(i) else Index4(i)
  }

  function Index2(i: nat): (k: nat)
    requires 16 <= i < 32
    ensures k < 16
  {
    match i
    case 16 => 1
    case 17 => 6
    case 18 => 11
    case 19 => 0
    case 20 => 5
    case 21 => 10
    case 22 => 15
    case 23 => 4
    case 24 => 9
    case 25 => 14
    case 26 => 3
    case 27 => 8
    case 28 => 13
    case 29 => 2
    case 30 => 7
    case _ => 12
  }

  function Index3(i: nat): (k: nat)
    requires 32 <= i < 48
    ensures k < 16
  {
    match i
    case 32 => 5
    case 33 => 8
    case 34 => 11
    case 35 => 14
    case 36 => 1
    case 37 => 4
    case 38 => 7
    case 39 => 10
    case 40 => 13
    case 41 => 0
    case 42 => 3
    case 43 => 6
    case 44 => 9
    case 45 => 12
    case 46 => 15
    case _ => 2
  }

  function Index4(i: nat): (k: nat)
    requires 48 <= i < 64
    ensures k < 16
  {
    match i
    case 48 => 0
    case 49 => 7
    case 50 => 14
    case 51 => 5
    case 52 => 12
    case 53 => 3
    case 54 => 10
    case 55 => 1
    case 56 => 8
    case 57 => 15
    case 58 => 6
    case 59 => 13
    case 60 => 4
    case 61 => 11
    case 62 => 2
    case _ => 9
  }

  /** By how much step i rotates. */
  function Shift(i: nat): (s: Word)
    ensures 0 < s < 32
  {
    var j := i % 4;
    if i < 16 then (if j == 0 then 7 else if j == 1 then 12 else if j == 2 then 17 else 22)
    else if i < 32 then (if j == 0 then 5 else if j == 1 then 9 else if j == 2 then 14 else 20)
    else if i < 48 then (if j == 0 then 4 else if j == 1 then 11 else if j == 2 then 16 else 23)
    else (if j == 0 then 6 else if j == 1 then 10 else if j == 2 then 15 else 21)
  }

  /** T[i + 1] of the RFC, the integer part of 2^32 * abs(sin(i + 1)). */
  function T(i: nat): Word
    requires i < 64
  {
    if i < 16 then T1(i) else if i < 32 then T2(i) else if i < 48 then T3(i) else T4(i)
  }

  function T1(i: nat): Word
    requires 0 <= i < 16
  {
    match i
    case 0 => 0xd76aa478
    case 1 => 0xe8c7b756
    case 2 => 0x242070db
    case 3 => 0xc1bdceee
    case 4 => 0xf57c0faf
    case 5 => 0x4787c62a
    case 6 => 0xa8304613
    case 7 => 0xfd469501
    case 8 => 0x698098d8
    case 9 => 0x8b44f7af
    case 10 => 0xffff5bb1
    case 11 => 0x895cd7be
    case 12 => 0x6b901122
    case 13 => 0xfd987193
    case 14 => 0xa679438e
    case _ => 0x49b40821
  }

  function T2(i: nat): Word
    requires 16 <= i < 32
  {
    match i
    case 16 => 0xf61e2562
    case 17 => 0xc040b340
    case 18 => 0x265e5a51
    case 19 => 0xe9b6c7aa
    case 20 => 0xd62f105d
    case 21 => 0x02441453
    case 22 => 0xd8a1e681
    case 23 => 0xe7d3fbc8
    case 24 => 0x21e1cde6
    case 25 => 0xc33707d6
    case 26 => 0xf4d50d87
    case 27 => 0x455a14ed
    case 28 => 0xa9e3e905
    case 29 => 0xfcefa3f8
    case 30 => 0x676f02d9
    case _ => 0x8d2a4c8a
  }

  function T3(i: nat): Word
    requires 32 <= i < 48
  {
    match i
    case 32 => 0xfffa3942
    case 33 => 0x8771f681
    case 34 => 0x6d9d6122
    case 35 => 0xfde5380c
    case 36 => 0xa4beea44
    case 37 => 0x4bdecfa9
    case 38 => 0xf6bb4b60
    case 39 => 0xbebfbc70
    case 40 => 0x289b7ec6
    case 41 => 0xeaa127fa
    case 42 => 0xd4ef3085
    case 43 => 0x04881d05
    case 44 => 0xd9d4d039
    case 45 => 0xe6db99e5
    case 46 => 0x1fa27cf8
    case _ => 0xc4ac5665
  }

  function T4(i: nat): Word
    requires 48 <= i < 64
  {
    match i
    case 48 => 0xf4292244
    case 49 => 0x432aff97
    case 50 => 0xab9423a7
    case 51 => 0xfc93a039
    case 52 => 0x655b59c3
    case 53 => 0x8f0ccc92
    case 54 => 0xffeff47d
    case 55 => 0x85845dd1
    case 56 => 0x6fa87e4f
    case 57 => 0xfe2ce6e0
    case 58 => 0xa3014314
    case 59 => 0x4e0811a1
    case 60 => 0xf7537e82
    case 61 => 0xbd3af235
    case 62 => 0x2ad7d2bb
    case _ => 0xeb86d391
  }

  /** Step i: the operation [abcd k s i], written so that the word just computed is
      always the second of the four. */
  function Step(i: nat, r: Regs, x: seq<Word>): Regs
    requires i < 64 && |x| == 16
  {
    var sum := Sum(r.a, Sum(Sum(Mix(i / 16, r.b, r.c, r.d), x[Index(i)]), T(i)));
    Regs(r.d, Sum(RotateLeft(sum, Shift(i)), r.b), r.b, r.c)
  }

  /** Steps i to j - 1. */
  function Steps(i: nat, j: nat, r: Regs, x: seq<Word>): Regs
    requires i <= j <= 64 && |x| == 16
  {
    if i == j then r else Step(j - 1, Steps(i, j - 1, r, x), x)
  }

  lemma {:induction false} StepsCompose(i: nat, j: nat, k: nat, r: Regs, x: seq<Word>)
    requires i <= j <= k <= 64 && |x| == 16
    ensures Steps(i, k, r, x) == Steps(j, k, Steps(i, j, r, x), x)
    decreases k
  {
    if j < k { StepsCompose(i, j, k - 1, r, x); }
  }

  /** A word from four bytes, low-order byte first (section 2). */
  function Decode(b0: Byte, b1: Byte, b2: Byte, b3: Byte): Word {
    (b0 as Word) | ((b1 as Word) << 8) | ((b2 as Word) << 16) | ((b3 as Word) << 24)
  }

  function Words(block: seq<Byte>): (x: seq<Word>)
    requires |block| == 64
    ensures |x| == 16
  {
    seq(16, k requires 0 <= k < 16 => Decode(block[4 * k], block[4 * k + 1], block[4 * k + 2], block[4 * k + 3]))
  }

  function Block(h: Regs, block: seq<Byte>): Regs
    requires |block| == 64
  {
    var r := Steps(0, 64, h, Words(block));
    Regs(Sum(h.a, r.a), Sum(h.b, r.b), Sum(h.c, r.c), Sum(h.d, r.d))
  }

  function Blocks(h: Regs, m: seq<Byte>): Regs
    requires |m| % 64 == 0
  {
    if |m| == 0 then h else Block(Blocks(h, m[..|m| - 64]), m[|m| - 64..])
  }

  lemma BlocksSnoc(h: Regs, m: seq<Byte>, block: seq<Byte>)
    requires |m| % 64 == 0 && |block| == 64
    ensures Blocks(h, m + block) == Block(Blocks(h, m), block)
  {
    assert (m + block)[..|m|] == m && (m + block)[|m|..] == block;
  }

  // ---------------------------------------------------------------- sections 3.1, 3.2 and 3.5

  /** How many bytes of padding bring a message of n bytes to 56 modulo 64. */
  function PadLength(n: nat): (p: nat)
    ensures 1 <= p <= 64 && (n + p) % 64 == 56
  {
    1 + (119 - n % 64) % 64
  }

  function Padding(n: nat): (p: seq<Byte>)
    ensures |p| == PadLength(n)
  {
    [0x80] + seq(PadLength(n) - 1, _ => 0)
  }

  /** The byte of n that counts multiples of d, a power of 256. */
  function ByteAt(n: nat, d: nat): Byte
    requires d > 0
  {
    (n / d % 0x100) as Byte
  }

  /** The number of bits modulo 2^64, low-order byte first. */
  function LengthField(n: nat): (f: seq<Byte>)
    ensures |f| == 8
  {
    var b := 8 * n % 0x1_0000_0000_0000_0000;
    [ByteAt(b, 1), ByteAt(b, 0x100), ByteAt(b, 0x1_0000), ByteAt(b, 0x100_0000),
     ByteAt(b, 0x1_0000_0000), ByteAt(b, 0x100_0000_0000),
     ByteAt(b, 0x1_0000_0000_0000), ByteAt(b, 0x100_0000_0000_0000)]
  }

  function Encode(w: Word): (f: seq<Byte>)
    ensures |f| == 4
  {
    [(w & 0xff) as Byte, ((w >> 8) & 0xff) as Byte, ((w >> 16) & 0xff) as Byte, ((w >> 24) & 0xff) as Byte]
  }

  function Output(r: Regs): (f: seq<Byte>)
    ensures |f| == 16
  {
    Encode(r.a) + Encode(r.b) + Encode(r.c) + Encode(r.d)
  }

  function Padded(m: seq<Byte>): (p: seq<Byte>)
    ensures |p| % 64 == 0
  {
    assert (|m| + PadLength(|m|) + 8) % 64 == 0 by {
      assert (|m| + PadLength(|m|)) % 64 == 56;
    }
    m + Padding(|m|) + LengthField(|m|)
  }

  /** The digest of a whole message. */
  function Digest(m: seq<Byte>): (f: seq<Byte>)
    ensures |f| == 16
  {
    Output(Blocks(INIT, Padded(m)))
  }
}
