/** Values of the digest of RFC 1321 (section A.5, the test suite), computed step by step. */
module Md5Vectors {
  import opened Md5Spec

  // ---------------------------------------------------------------- one step

  /** The word that a step computes, from the values its tables give. */
  function NewWord(round: nat, a: Word, b: Word, c: Word, d: Word, w: Word, s: Word, t: Word): Word
    requires 0 < s < 32
  {
    Sum(RotateLeft(Sum(a, Sum(Sum(Mix(round, b, c, d), w), t)), s), b)
  }

  /** Step i takes the message word w, rotates by s, adds t, and computes n. */
  lemma Goes(i: nat, h: Regs, a: Word, b: Word, c: Word, d: Word, x: seq<Word>, w: Word, s: Word, t: Word, n: Word)
    requires i < 64 && |x| == 16 && Steps(0, i, h, x) == Regs(a, b, c, d)
    requires x[Index(i)] == w && Shift(i) == s && T(i) == t
    requires NewWord(i / 16, a, b, c, d, w, s, t) == n
    ensures Steps(0, i + 1, h, x) == Regs(d, n, b, c)
  {
  }

  lemma Starts(h: Regs, x: seq<Word>)
    requires |x| == 16
    ensures Steps(0, 0, h, x) == h
  {
  }

  // ---------------------------------------------------------------- the empty message

  ghost predicate EmptyWords(x: seq<Word>) {
    |x| == 16 && x[0] == 0x80 && forall k | 1 <= k < 16 :: x[k] == 0
  }

  lemma Empty1(x: seq<Word>)
    requires EmptyWords(x)
    ensures Steps(0, 8, INIT, x) == Regs(0x32033344, 0x9bc13ce9, 0xf5b158db, 0x2f35d494)
  {
    hide Steps, Step;
    Starts(INIT, x);
    Goes(0, INIT, 0x67452301, 0xefcdab89, 0x98badcfe, 0x10325476, x, 0x80, 7, 0xd76aa478, 0xa5202774);
    Goes(1, INIT, 0x10325476, 0xa5202774, 0xefcdab89, 0x98badcfe, x, 0, 12, 0xe8c7b756, 0xf59592dd);
    Goes(2, INIT, 0x98badcfe, 0xf59592dd, 0xa5202774, 0xefcdab89, x, 0, 17, 0x242070db, 0xe7f06b23);
    Goes(3, INIT, 0xefcdab89, 0xe7f06b23, 0xf59592dd, 0xa5202774, x, 0, 22, 0xc1bdceee, 0x1b163203);
    Goes(4, INIT, 0xa5202774, 0x1b163203, 0xe7f06b23, 0xf59592dd, x, 0, 7, 0xf57c0faf, 0x32033344);
    Goes(5, INIT, 0xf59592dd, 0x32033344, 0x1b163203, 0xe7f06b23, x, 0, 12, 0x4787c62a, 0x2f35d494);
    Goes(6, INIT, 0xe7f06b23, 0x2f35d494, 0x32033344, 0x1b163203, x, 0, 17, 0xa8304613, 0xf5b158db);
    Goes(7, INIT, 0x1b163203, 0xf5b158db, 0x2f35d494, 0x32033344, x, 0, 22, 0xfd469501, 0x9bc13ce9);
  }

  lemma Empty2(x: seq<Word>)
    requires EmptyWords(x)
    ensures Steps(0, 16, INIT, x) == Regs(0xf56c7cf1, 0xd6819c6a, 0x5aa53f75, 0x374943a7)
  {
    hide Steps, Step;
    Empty1(x);
    Goes(8, INIT, 0x32033344, 0x9bc13ce9, 0xf5b158db, 0x2f35d494, x, 0, 7, 0x698098d8, 0x3893b991);
    Goes(9, INIT, 0x2f35d494, 0x3893b991, 0x9bc13ce9, 0xf5b158db, x, 0, 12, 0x8b44f7af, 0xfce4a312);
    Goes(10, INIT, 0xf5b158db, 0xfce4a312, 0x3893b991, 0x9bc13ce9, x, 0, 17, 0xffff5bb1, 0xe1ef0576);
    Goes(11, INIT, 0x9bc13ce9, 0xe1ef0576, 0xfce4a312, 0x3893b991, x, 0, 22, 0x895cd7be, 0x70768a29);
    Goes(12, INIT, 0x3893b991, 0x70768a29, 0xe1ef0576, 0xfce4a312, x, 0, 7, 0x6b901122, 0xf56c7cf1);
    Goes(13, INIT, 0xfce4a312, 0xf56c7cf1, 0x70768a29, 0xe1ef0576, x, 0, 12, 0xfd987193, 0x374943a7);
    Goes(14, INIT, 0xe1ef0576, 0x374943a7, 0xf56c7cf1, 0x70768a29, x, 0, 17, 0xa679438e, 0x5aa53f75);
    Goes(15, INIT, 0x70768a29, 0x5aa53f75, 0x374943a7, 0xf56c7cf1, x, 0, 22, 0x49b40821, 0xd6819c6a);
  }

  lemma Empty3(x: seq<Word>)
    requires EmptyWords(x)
    ensures Steps(0, 24, INIT, x) == Regs(0x3d1e3e6c, 0xe422531a, 0xeb41643e, 0x68b7b3e3)
  {
    hide Steps, Step;
    Empty2(x);
    Goes(16, INIT, 0xf56c7cf1, 0xd6819c6a, 0x5aa53f75, 0x374943a7, x, 0, 5, 0xf61e2562, 0x1c7d7513);
    Goes(17, INIT, 0x374943a7, 0x1c7d7513, 0xd6819c6a, 0x5aa53f75, x, 0, 9, 0xc040b340, 0x7bd57a3a);
    Goes(18, INIT, 0x5aa53f75, 0x7bd57a3a, 0x1c7d7513, 0xd6819c6a, x, 0, 14, 0x265e5a51, 0xc095f13a);
    Goes(19, INIT, 0xd6819c6a, 0xc095f13a, 0x7bd57a3a, 0x1c7d7513, x, 0x80, 20, 0xe9b6c7aa, 0xbd782e17);
    Goes(20, INIT, 0x1c7d7513, 0xbd782e17, 0xc095f13a, 0x7bd57a3a, x, 0, 5, 0xd62f105d, 0x3d1e3e6c);
    Goes(21, INIT, 0x7bd57a3a, 0x3d1e3e6c, 0xbd782e17, 0xc095f13a, x, 0, 9, 0x02441453, 0x68b7b3e3);
    Goes(22, INIT, 0xc095f13a, 0x68b7b3e3, 0x3d1e3e6c, 0xbd782e17, x, 0, 14, 0xd8a1e681, 0xeb41643e);
    Goes(23, INIT, 0xbd782e17, 0xeb41643e, 0x68b7b3e3, 0x3d1e3e6c, x, 0, 20, 0xe7d3fbc8, 0xe422531a);
  }

  lemma Empty4(x: seq<Word>)
    requires EmptyWords(x)
    ensures Steps(0, 32, INIT, x) == Regs(0x13707036, 0xa2205f1f, 0x1c31c384, 0xae7813db)
  {
    hide Steps, Step;
    Empty3(x);
    Goes(24, INIT, 0x3d1e3e6c, 0xe422531a, 0xeb41643e, 0x68b7b3e3, x, 0, 5, 0x21e1cde6, 0x306ec122);
    Goes(25, INIT, 0x68b7b3e3, 0x306ec122, 0xe422531a, 0xeb41643e, x, 0, 9, 0xc33707d6, 0xd28c77c2);
    Goes(26, INIT, 0xeb41643e, 0xd28c77c2, 0x306ec122, 0xe422531a, x, 0, 14, 0xf4d50d87, 0xa3c663da);
    Goes(27, INIT, 0xe422531a, 0xa3c663da, 0xd28c77c2, 0x306ec122, x, 0, 20, 0x455a14ed, 0xa0572807);
    Goes(28, INIT, 0x306ec122, 0xa0572807, 0xa3c663da, 0xd28c77c2, x, 0, 5, 0xa9e3e905, 0x13707036);
    Goes(29, INIT, 0xd28c77c2, 0x13707036, 0xa0572807, 0xa3c663da, x, 0, 9, 0xfcefa3f8, 0xae7813db);
    Goes(30, INIT, 0xa3c663da, 0xae7813db, 0x13707036, 0xa0572807, x, 0, 14, 0x676f02d9, 0x1c31c384);
    Goes(31, INIT, 0xa0572807, 0x1c31c384, 0xae7813db, 0x13707036, x, 0, 20, 0x8d2a4c8a, 0xa2205f1f);
  }

  lemma Empty5(x: seq<Word>)
    requires EmptyWords(x)
    ensures Steps(0, 40, INIT, x) == Regs(0x5f7a9b2e, 0xc5dc8c15, 0x91ca4cb7, 0xabc34e16)
  {
    hide Steps, Step;
    Empty4(x);
    Goes(32, INIT, 0x13707036, 0xa2205f1f, 0x1c31c384, 0xae7813db, x, 0, 4, 0xfffa3942, 0xdf63eaa1);
    Goes(33, INIT, 0xae7813db, 0xdf63eaa1, 0xa2205f1f, 0x1c31c384, x, 0, 11, 0x8771f681, 0xc3689f5b);
    Goes(34, INIT, 0x1c31c384, 0xc3689f5b, 0xdf63eaa1, 0xa2205f1f, x, 0, 16, 0x6d9d6122, 0x12f3e755);
    Goes(35, INIT, 0xa2205f1f, 0x12f3e755, 0xc3689f5b, 0xdf63eaa1, x, 0, 23, 0xfde5380c, 0x004b6669);
    Goes(36, INIT, 0xdf63eaa1, 0x004b6669, 0x12f3e755, 0xc3689f5b, x, 0, 4, 0xa4beea44, 0x5f7a9b2e);
    Goes(37, INIT, 0xc3689f5b, 0x5f7a9b2e, 0x004b6669, 0x12f3e755, x, 0, 11, 0x4bdecfa9, 0xabc34e16);
    Goes(38, INIT, 0x12f3e755, 0xabc34e16, 0x5f7a9b2e, 0x004b6669, x, 0, 16, 0xf6bb4b60, 0x91ca4cb7);
    Goes(39, INIT, 0x004b6669, 0x91ca4cb7, 0xabc34e16, 0x5f7a9b2e, x, 0, 23, 0xbebfbc70, 0xc5dc8c15);
  }

  lemma Empty6(x: seq<Word>)
    requires EmptyWords(x)
    ensures Steps(0, 48, INIT, x) == Regs(0x3f55edfd, 0xca7d2dbd, 0x68d84ea2, 0x22a31f54)
  {
    hide Steps, Step;
    Empty5(x);
    Goes(40, INIT, 0x5f7a9b2e, 0xc5dc8c15, 0x91ca4cb7, 0xabc34e16, x, 0, 4, 0x289b7ec6, 0x4497169d);
    Goes(41, INIT, 0xabc34e16, 0x4497169d, 0xc5dc8c15, 0x91ca4cb7, x, 0x80, 11, 0xeaa127fa, 0x76fd93d4);
    Goes(42, INIT, 0x91ca4cb7, 0x76fd93d4, 0x4497169d, 0xc5dc8c15, x, 0, 16, 0xd4ef3085, 0xfd95f243);
    Goes(43, INIT, 0xc5dc8c15, 0xfd95f243, 0x76fd93d4, 0x4497169d, x, 0, 23, 0x04881d05, 0x0fe32453);
    Goes(44, INIT, 0x4497169d, 0x0fe32453, 0xfd95f243, 0x76fd93d4, x, 0, 4, 0xd9d4d039, 0x3f55edfd);
    Goes(45, INIT, 0x76fd93d4, 0x3f55edfd, 0x0fe32453, 0xfd95f243, x, 0, 11, 0xe6db99e5, 0x22a31f54);
    Goes(46, INIT, 0xfd95f243, 0x22a31f54, 0x3f55edfd, 0x0fe32453, x, 0, 16, 0x1fa27cf8, 0x68d84ea2);
    Goes(47, INIT, 0x0fe32453, 0x68d84ea2, 0x22a31f54, 0x3f55edfd, x, 0, 23, 0xc4ac5665, 0xca7d2dbd);
  }

  lemma Empty7(x: seq<Word>)
    requires EmptyWords(x)
    ensures Steps(0, 56, INIT, x) == Regs(0x5625a114, 0x1e77fa61, 0x392ad0d0, 0x3450f42b)
  {
    hide Steps, Step;
    Empty6(x);
    Goes(48, INIT, 0x3f55edfd, 0xca7d2dbd, 0x68d84ea2, 0x22a31f54, x, 0x80, 6, 0xf4292244, 0x93aa2577);
    Goes(49, INIT, 0x22a31f54, 0x93aa2577, 0xca7d2dbd, 0x68d84ea2, x, 0, 10, 0x432aff97, 0x1688dc85);
    Goes(50, INIT, 0x68d84ea2, 0x1688dc85, 0x93aa2577, 0xca7d2dbd, x, 0, 15, 0xab9423a7, 0xcd85b8cb);
    Goes(51, INIT, 0xca7d2dbd, 0xcd85b8cb, 0x1688dc85, 0x93aa2577, x, 0, 21, 0xfc93a039, 0x561e0689);
    Goes(52, INIT, 0x93aa2577, 0x561e0689, 0xcd85b8cb, 0x1688dc85, x, 0, 6, 0x655b59c3, 0x5625a114);
    Goes(53, INIT, 0x1688dc85, 0x5625a114, 0x561e0689, 0xcd85b8cb, x, 0, 10, 0x8f0ccc92, 0x3450f42b);
    Goes(54, INIT, 0xcd85b8cb, 0x3450f42b, 0x5625a114, 0x561e0689, x, 0, 15, 0xffeff47d, 0x392ad0d0);
    Goes(55, INIT, 0x561e0689, 0x392ad0d0, 0x3450f42b, 0x5625a114, x, 0, 21, 0x85845dd1, 0x1e77fa61);
  }

  lemma Empty8(x: seq<Word>)
    requires EmptyWords(x)
    ensures Steps(0, 64, INIT, x) == Regs(0x7246fad3, 0x14e45506, 0xff4ea3eb, 0x6e10a476)
  {
    hide Steps, Step;
    Empty7(x);
    Goes(56, INIT, 0x5625a114, 0x1e77fa61, 0x392ad0d0, 0x3450f42b, x, 0, 6, 0x6fa87e4f, 0x474a9c8c);
    Goes(57, INIT, 0x3450f42b, 0x474a9c8c, 0x1e77fa61, 0x392ad0d0, x, 0, 10, 0xfe2ce6e0, 0xdfce00bc);
    Goes(58, INIT, 0x392ad0d0, 0xdfce00bc, 0x474a9c8c, 0x1e77fa61, x, 0, 15, 0xa3014314, 0x36594b14);
    Goes(59, INIT, 0x1e77fa61, 0x36594b14, 0xdfce00bc, 0x474a9c8c, x, 0, 21, 0x4e0811a1, 0x30130182);
    Goes(60, INIT, 0x474a9c8c, 0x30130182, 0x36594b14, 0xdfce00bc, x, 0, 6, 0xf7537e82, 0x7246fad3);
    Goes(61, INIT, 0xdfce00bc, 0x7246fad3, 0x30130182, 0x36594b14, x, 0, 10, 0xbd3af235, 0x6e10a476);
    Goes(62, INIT, 0x36594b14, 0x6e10a476, 0x7246fad3, 0x30130182, x, 0, 15, 0x2ad7d2bb, 0xff4ea3eb);
    Goes(63, INIT, 0x30130182, 0xff4ea3eb, 0x6e10a476, 0x7246fad3, x, 0, 21, 0xeb86d391, 0x14e45506);
  }

  lemma EmptyPadded(p: seq<Byte>)
    requires p == Padded([])
    ensures |p| == 64 && p[0] == 0x80 && forall k | 1 <= k < 64 :: p[k] == 0
  {
    LengthOfEmpty();
    hide LengthField;
  }

  lemma LengthOfEmpty()
    ensures forall k | 0 <= k < 8 :: LengthField(0)[k] == 0
  {
    ShortLength(0);
    NoByte(0, 1);
    NoByte(0, 0x100);
    hide ByteAt, LengthField;
  }

  /** A message of less than 2^13 bytes has a length field of two bytes. */
  lemma ShortLength(n: nat)
    requires n < 0x2000
    ensures var f := LengthField(n);
            f[0] == ByteAt(8 * n, 1) && f[1] == ByteAt(8 * n, 0x100) && forall k | 2 <= k < 8 :: f[k] == 0
  {
    hide ByteAt;
    HighBytesNone(8 * n);
    var b := 8 * n % 0x1_0000_0000_0000_0000;
    assert b == 8 * n;
    assert LengthField(n)[..2] == [ByteAt(b, 1), ByteAt(b, 0x100)];
    assert LengthField(n)[2..] == [0, 0, 0, 0, 0, 0];
  }

  lemma NoByte(n: nat, d: nat)
    requires n < d
    ensures ByteAt(n, d) == 0
  {
    assert n / d == 0;
  }

  lemma HighBytesNone(n: nat)
    requires n < 0x1_0000
    ensures ByteAt(n, 0x1_0000) == 0 && ByteAt(n, 0x100_0000) == 0
    ensures ByteAt(n, 0x1_0000_0000) == 0 && ByteAt(n, 0x100_0000_0000) == 0
    ensures ByteAt(n, 0x1_0000_0000_0000) == 0 && ByteAt(n, 0x100_0000_0000_0000) == 0
  {
    hide ByteAt;
    NoByte(n, 0x1_0000);
    NoByte(n, 0x100_0000);
    NoByte(n, 0x1_0000_0000);
    NoByte(n, 0x100_0000_0000);
    NoByte(n, 0x1_0000_0000_0000);
    NoByte(n, 0x100_0000_0000_0000);
  }

  lemma EmptyAsWords(p: seq<Byte>)
    requires |p| == 64 && p[0] == 0x80 && forall k | 1 <= k < 64 :: p[k] == 0
    ensures EmptyWords(Words(p))
  {
    assert Decode(0x80, 0, 0, 0) == 0x80 && Decode(0, 0, 0, 0) == 0;
    hide Decode;
  }

  lemma EmptyBlock(p: seq<Byte>)
    requires |p| == 64 && EmptyWords(Words(p))
    ensures Block(INIT, p) == Regs(0xd98c1dd4, 0x04b2008f, 0x980980e9, 0x7e42f8ec)
  {
    Empty8(Words(p));
    hide Steps, Words;
  }

  lemma EmptyOutput()
    ensures Output(Regs(0xd98c1dd4, 0x04b2008f, 0x980980e9, 0x7e42f8ec)) == [0xd4, 0x1d, 0x8c, 0xd9, 0x8f, 0, 0xb2, 0x04, 0xe9, 0x80, 0x09, 0x98, 0xec, 0xf8, 0x42, 0x7e]
  {
  }

  /** MD5 ("") = d41d8cd98f00b204e9800998ecf8427e. */
  lemma DigestOfEmpty()
    ensures Digest([]) == [0xd4, 0x1d, 0x8c, 0xd9, 0x8f, 0, 0xb2, 0x04, 0xe9, 0x80, 0x09, 0x98, 0xec, 0xf8, 0x42, 0x7e]
  {
    var p := Padded([]);
    EmptyPadded(p);
    EmptyAsWords(p);
    EmptyBlock(p);
    EmptyOutput();
    hide Block, Words, Padded, Output, EmptyWords;
    BlocksSnoc(INIT, [], p);
    assert [] + p == p;
  }

  // ---------------------------------------------------------------- a message of two blocks

  /** The characters 1 to 9 and 0, over and over. */
  function Digit(k: nat): Byte {
    match k % 10
    case 0 => 0x31
    case 1 => 0x32
    case 2 => 0x33
    case 3 => 0x34
    case 4 => 0x35
    case 5 => 0x36
    case 6 => 0x37
    case 7 => 0x38
    case 8 => 0x39
    case _ => 0x30
  }

  /** Eighty of them. */
  const DIGITS: seq<Byte> := seq(80, k requires 0 <= k < 80 => Digit(k))

  predicate FirstWords(x: seq<Word>) {
    && |x| == 16
    && x[0] == 0x34333231 && x[1] == 0x38373635 && x[2] == 0x32313039 && x[3] == 0x36353433
    && x[4] == 0x30393837 && x[5] == 0x34333231 && x[6] == 0x38373635 && x[7] == 0x32313039
    && x[8] == 0x36353433 && x[9] == 0x30393837 && x[10] == 0x34333231 && x[11] == 0x38373635
    && x[12] == 0x32313039 && x[13] == 0x36353433 && x[14] == 0x30393837 && x[15] == 0x34333231
  }

  predicate SecondWords(x: seq<Word>) {
    && |x| == 16
    && x[0] == 0x38373635 && x[1] == 0x32313039 && x[2] == 0x36353433 && x[3] == 0x30393837
    && x[4] == 0x80 && x[5] == 0 && x[6] == 0 && x[7] == 0
    && x[8] == 0 && x[9] == 0 && x[10] == 0 && x[11] == 0
    && x[12] == 0 && x[13] == 0 && x[14] == 0x280 && x[15] == 0
  }


  lemma First1(x: seq<Word>)
    requires FirstWords(x)
    ensures Steps(0, 8, INIT, x) == Regs(0x8c17de9f, 0xc57e78c1, 0xe99fec1b, 0xc0f32d81)
  {
    hide Steps, Step;
    Starts(INIT, x);
    Goes(0, INIT, 0x67452301, 0xefcdab89, 0x98badcfe, 0x10325476, x, 0x34333231, 7, 0xd76aa478, 0xbeb8ff8e);
    Goes(1, INIT, 0x10325476, 0xbeb8ff8e, 0xefcdab89, 0x98badcfe, x, 0x38373635, 12, 0xe8c7b756, 0x7d989d89);
    Goes(2, INIT, 0x98badcfe, 0x7d989d89, 0xbeb8ff8e, 0xefcdab89, x, 0x32313039, 17, 0x242070db, 0xf8cdf95d);
    Goes(3, INIT, 0xefcdab89, 0xf8cdf95d, 0x7d989d89, 0xbeb8ff8e, x, 0x36353433, 22, 0xc1bdceee, 0x862797b0);
    Goes(4, INIT, 0xbeb8ff8e, 0x862797b0, 0xf8cdf95d, 0x7d989d89, x, 0x30393837, 7, 0xf57c0faf, 0x8c17de9f);
    Goes(5, INIT, 0x7d989d89, 0x8c17de9f, 0x862797b0, 0xf8cdf95d, x, 0x34333231, 12, 0x4787c62a, 0xc0f32d81);
    Goes(6, INIT, 0xf8cdf95d, 0xc0f32d81, 0x8c17de9f, 0x862797b0, x, 0x38373635, 17, 0xa8304613, 0xe99fec1b);
    Goes(7, INIT, 0x862797b0, 0xe99fec1b, 0xc0f32d81, 0x8c17de9f, x, 0x32313039, 22, 0xfd469501, 0xc57e78c1);
  }

  lemma First2(x: seq<Word>)
    requires FirstWords(x)
    ensures Steps(0, 16, INIT, x) == Regs(0x5157e49e, 0xaf506a03, 0x27e983a0, 0xffac907e)
  {
    hide Steps, Step;
    First1(x);
    Goes(8, INIT, 0x8c17de9f, 0xc57e78c1, 0xe99fec1b, 0xc0f32d81, x, 0x36353433, 7, 0x698098d8, 0x7c0aceb7);
    Goes(9, INIT, 0xc0f32d81, 0x7c0aceb7, 0xc57e78c1, 0xe99fec1b, x, 0x30393837, 12, 0x8b44f7af, 0x8869d2d8);
    Goes(10, INIT, 0xe99fec1b, 0x8869d2d8, 0x7c0aceb7, 0xc57e78c1, x, 0x34333231, 17, 0xffff5bb1, 0x5186a8ba);
    Goes(11, INIT, 0xc57e78c1, 0x5186a8ba, 0x8869d2d8, 0x7c0aceb7, x, 0x38373635, 22, 0x895cd7be, 0xa5f36f8d);
    Goes(12, INIT, 0x7c0aceb7, 0xa5f36f8d, 0x5186a8ba, 0x8869d2d8, x, 0x32313039, 7, 0x6b901122, 0x5157e49e);
    Goes(13, INIT, 0x8869d2d8, 0x5157e49e, 0xa5f36f8d, 0x5186a8ba, x, 0x36353433, 12, 0xfd987193, 0xffac907e);
    Goes(14, INIT, 0x5186a8ba, 0xffac907e, 0x5157e49e, 0xa5f36f8d, x, 0x30393837, 17, 0xa679438e, 0x27e983a0);
    Goes(15, INIT, 0xa5f36f8d, 0x27e983a0, 0xffac907e, 0x5157e49e, x, 0x34333231, 22, 0x49b40821, 0xaf506a03);
  }

  lemma First3(x: seq<Word>)
    requires FirstWords(x)
    ensures Steps(0, 24, INIT, x) == Regs(0x78929ee0, 0xad400a91, 0xb18aca50, 0x375c6c2c)
  {
    hide Steps, Step;
    First2(x);
    Goes(16, INIT, 0x5157e49e, 0xaf506a03, 0x27e983a0, 0xffac907e, x, 0x38373635, 5, 0xf61e2562, 0x8d18e0e8);
    Goes(17, INIT, 0xffac907e, 0x8d18e0e8, 0xaf506a03, 0x27e983a0, x, 0x38373635, 9, 0xc040b340, 0x07de0df2);
    Goes(18, INIT, 0x27e983a0, 0x07de0df2, 0x8d18e0e8, 0xaf506a03, x, 0x38373635, 14, 0x265e5a51, 0xef223167);
    Goes(19, INIT, 0xaf506a03, 0xef223167, 0x07de0df2, 0x8d18e0e8, x, 0x34333231, 20, 0xe9b6c7aa, 0x04280170);
    Goes(20, INIT, 0x8d18e0e8, 0x04280170, 0xef223167, 0x07de0df2, x, 0x34333231, 5, 0xd62f105d, 0x78929ee0);
    Goes(21, INIT, 0x07de0df2, 0x78929ee0, 0x04280170, 0xef223167, x, 0x34333231, 9, 0x02441453, 0x375c6c2c);
    Goes(22, INIT, 0xef223167, 0x375c6c2c, 0x78929ee0, 0x04280170, x, 0x34333231, 14, 0xd8a1e681, 0xb18aca50);
    Goes(23, INIT, 0x04280170, 0xb18aca50, 0x375c6c2c, 0x78929ee0, x, 0x30393837, 20, 0xe7d3fbc8, 0xad400a91);
  }

  lemma First4(x: seq<Word>)
    requires FirstWords(x)
    ensures Steps(0, 32, INIT, x) == Regs(0xf8bcfbb0, 0x1bf25662, 0x99a0f1b8, 0xd760ed39)
  {
    hide Steps, Step;
    First3(x);
    Goes(24, INIT, 0x78929ee0, 0xad400a91, 0xb18aca50, 0x375c6c2c, x, 0x30393837, 5, 0x21e1cde6, 0xbb45f43f);
    Goes(25, INIT, 0x375c6c2c, 0xbb45f43f, 0xad400a91, 0xb18aca50, x, 0x30393837, 9, 0xc33707d6, 0xd61f8a0f);
    Goes(26, INIT, 0xb18aca50, 0xd61f8a0f, 0xbb45f43f, 0xad400a91, x, 0x36353433, 14, 0xf4d50d87, 0x98ade6b5);
    Goes(27, INIT, 0xad400a91, 0x98ade6b5, 0xd61f8a0f, 0xbb45f43f, x, 0x36353433, 20, 0x455a14ed, 0xb70e35a9);
    Goes(28, INIT, 0xbb45f43f, 0xb70e35a9, 0x98ade6b5, 0xd61f8a0f, x, 0x36353433, 5, 0xa9e3e905, 0xf8bcfbb0);
    Goes(29, INIT, 0xd61f8a0f, 0xf8bcfbb0, 0xb70e35a9, 0x98ade6b5, x, 0x32313039, 9, 0xfcefa3f8, 0xd760ed39);
    Goes(30, INIT, 0x98ade6b5, 0xd760ed39, 0xf8bcfbb0, 0xb70e35a9, x, 0x32313039, 14, 0x676f02d9, 0x99a0f1b8);
    Goes(31, INIT, 0xb70e35a9, 0x99a0f1b8, 0xd760ed39, 0xf8bcfbb0, x, 0x32313039, 20, 0x8d2a4c8a, 0x1bf25662);
  }

  lemma First5(x: seq<Word>)
    requires FirstWords(x)
    ensures Steps(0, 40, INIT, x) == Regs(0x3b32c408, 0x1d4d6f72, 0x9ef871ad, 0x7338d8b7)
  {
    hide Steps, Step;
    First4(x);
    Goes(32, INIT, 0xf8bcfbb0, 0x1bf25662, 0x99a0f1b8, 0xd760ed39, x, 0x34333231, 4, 0xfffa3942, 0x3dbd76ca);
    Goes(33, INIT, 0xd760ed39, 0x3dbd76ca, 0x1bf25662, 0x99a0f1b8, x, 0x36353433, 11, 0x8771f681, 0xfd056171);
    Goes(34, INIT, 0x99a0f1b8, 0xfd056171, 0x3dbd76ca, 0x1bf25662, x, 0x38373635, 16, 0x6d9d6122, 0xc7ed7c30);
    Goes(35, INIT, 0x1bf25662, 0xc7ed7c30, 0xfd056171, 0x3dbd76ca, x, 0x30393837, 23, 0xfde5380c, 0xe0162f49);
    Goes(36, INIT, 0x3dbd76ca, 0xe0162f49, 0xc7ed7c30, 0xfd056171, x, 0x38373635, 4, 0xa4beea44, 0x3b32c408);
    Goes(37, INIT, 0xfd056171, 0x3b32c408, 0xe0162f49, 0xc7ed7c30, x, 0x30393837, 11, 0x4bdecfa9, 0x7338d8b7);
    Goes(38, INIT, 0xc7ed7c30, 0x7338d8b7, 0x3b32c408, 0xe0162f49, x, 0x32313039, 16, 0xf6bb4b60, 0x9ef871ad);
    Goes(39, INIT, 0xe0162f49, 0x9ef871ad, 0x7338d8b7, 0x3b32c408, x, 0x34333231, 23, 0xbebfbc70, 0x1d4d6f72);
  }

  lemma First6(x: seq<Word>)
    requires FirstWords(x)
    ensures Steps(0, 48, INIT, x) == Regs(0x697032ec, 0xdb4197da, 0xefc2c171, 0xfa597bfc)
  {
    hide Steps, Step;
    First5(x);
    Goes(40, INIT, 0x3b32c408, 0x1d4d6f72, 0x9ef871ad, 0x7338d8b7, x, 0x36353433, 4, 0x289b7ec6, 0xc661460a);
    Goes(41, INIT, 0x7338d8b7, 0xc661460a, 0x1d4d6f72, 0x9ef871ad, x, 0x34333231, 11, 0xeaa127fa, 0xd2bf04c9);
    Goes(42, INIT, 0x9ef871ad, 0xd2bf04c9, 0xc661460a, 0x1d4d6f72, x, 0x36353433, 16, 0xd4ef3085, 0xd6d5b879);
    Goes(43, INIT, 0x1d4d6f72, 0xd6d5b879, 0xd2bf04c9, 0xc661460a, x, 0x38373635, 23, 0x04881d05, 0x89e3c4d7);
    Goes(44, INIT, 0xc661460a, 0x89e3c4d7, 0xd6d5b879, 0xd2bf04c9, x, 0x30393837, 4, 0xd9d4d039, 0x697032ec);
    Goes(45, INIT, 0xd2bf04c9, 0x697032ec, 0x89e3c4d7, 0xd6d5b879, x, 0x32313039, 11, 0xe6db99e5, 0xfa597bfc);
    Goes(46, INIT, 0xd6d5b879, 0xfa597bfc, 0x697032ec, 0x89e3c4d7, x, 0x34333231, 16, 0x1fa27cf8, 0xefc2c171);
    Goes(47, INIT, 0x89e3c4d7, 0xefc2c171, 0xfa597bfc, 0x697032ec, x, 0x32313039, 23, 0xc4ac5665, 0xdb4197da);
  }

  lemma First7(x: seq<Word>)
    requires FirstWords(x)
    ensures Steps(0, 56, INIT, x) == Regs(0x633d3f7c, 0x7713f5df, 0xccaa1524, 0x1a4d3beb)
  {
    hide Steps, Step;
    First6(x);
    Goes(48, INIT, 0x697032ec, 0xdb4197da, 0xefc2c171, 0xfa597bfc, x, 0x34333231, 6, 0xf4292244, 0x57b91aca);
    Goes(49, INIT, 0xfa597bfc, 0x57b91aca, 0xdb4197da, 0xefc2c171, x, 0x32313039, 10, 0x432aff97, 0x210c9ebc);
    Goes(50, INIT, 0xefc2c171, 0x210c9ebc, 0x57b91aca, 0xdb4197da, x, 0x30393837, 15, 0xab9423a7, 0x21efbd88);
    Goes(51, INIT, 0xdb4197da, 0x21efbd88, 0x210c9ebc, 0x57b91aca, x, 0x34333231, 21, 0xfc93a039, 0xcaa25b01);
    Goes(52, INIT, 0x57b91aca, 0xcaa25b01, 0x21efbd88, 0x210c9ebc, x, 0x32313039, 6, 0x655b59c3, 0x633d3f7c);
    Goes(53, INIT, 0x210c9ebc, 0x633d3f7c, 0xcaa25b01, 0x21efbd88, x, 0x36353433, 10, 0x8f0ccc92, 0x1a4d3beb);
    Goes(54, INIT, 0x21efbd88, 0x1a4d3beb, 0x633d3f7c, 0xcaa25b01, x, 0x34333231, 15, 0xffeff47d, 0xccaa1524);
    Goes(55, INIT, 0xcaa25b01, 0xccaa1524, 0x1a4d3beb, 0x633d3f7c, x, 0x38373635, 21, 0x85845dd1, 0x7713f5df);
  }

  lemma First8(x: seq<Word>)
    requires FirstWords(x)
    ensures Steps(0, 64, INIT, x) == Regs(0x614868eb, 0xb4d33102, 0x5133129b, 0xa09f38a7)
  {
    hide Steps, Step;
    First7(x);
    Goes(56, INIT, 0x633d3f7c, 0x7713f5df, 0xccaa1524, 0x1a4d3beb, x, 0x36353433, 6, 0x6fa87e4f, 0x8448b430);
    Goes(57, INIT, 0x1a4d3beb, 0x8448b430, 0x7713f5df, 0xccaa1524, x, 0x34333231, 10, 0xfe2ce6e0, 0x71c93463);
    Goes(58, INIT, 0xccaa1524, 0x71c93463, 0x8448b430, 0x7713f5df, x, 0x38373635, 15, 0xa3014314, 0x7e294727);
    Goes(59, INIT, 0x7713f5df, 0x7e294727, 0x71c93463, 0x8448b430, x, 0x36353433, 21, 0x4e0811a1, 0x660a801d);
    Goes(60, INIT, 0x8448b430, 0x660a801d, 0x7e294727, 0x71c93463, x, 0x30393837, 6, 0xf7537e82, 0x614868eb);
    Goes(61, INIT, 0x71c93463, 0x614868eb, 0x660a801d, 0x7e294727, x, 0x38373635, 10, 0xbd3af235, 0xa09f38a7);
    Goes(62, INIT, 0x7e294727, 0xa09f38a7, 0x614868eb, 0x660a801d, x, 0x32313039, 15, 0x2ad7d2bb, 0x5133129b);
    Goes(63, INIT, 0x660a801d, 0x5133129b, 0xa09f38a7, 0x614868eb, x, 0x30393837, 21, 0xeb86d391, 0xb4d33102);
  }

  /** The chaining words after the first block. */
  const MIDDLE := Regs(0xc88d8bec, 0xa4a0dc8b, 0xe9edef99, 0xb0d18d1d)

  lemma Second1(x: seq<Word>)
    requires SecondWords(x)
    ensures Steps(0, 8, MIDDLE, x) == Regs(0x3527497e, 0x377c7d0a, 0x948347ae, 0xab92660e)
  {
    hide Steps, Step;
    Starts(MIDDLE, x);
    Goes(0, MIDDLE, 0xc88d8bec, 0xa4a0dc8b, 0xe9edef99, 0xb0d18d1d, x, 0x38373635, 7, 0xd76aa478, 0x353af7cf);
    Goes(1, MIDDLE, 0xb0d18d1d, 0x353af7cf, 0xa4a0dc8b, 0xe9edef99, x, 0x32313039, 12, 0xe8c7b756, 0x3a4f735a);
    Goes(2, MIDDLE, 0xe9edef99, 0x3a4f735a, 0x353af7cf, 0xa4a0dc8b, x, 0x36353433, 17, 0x242070db, 0x63356537);
    Goes(3, MIDDLE, 0xa4a0dc8b, 0x63356537, 0x3a4f735a, 0x353af7cf, x, 0x30393837, 22, 0xc1bdceee, 0x45e88f2c);
    Goes(4, MIDDLE, 0x353af7cf, 0x45e88f2c, 0x63356537, 0x3a4f735a, x, 0x80, 7, 0xf57c0faf, 0x3527497e);
    Goes(5, MIDDLE, 0x3a4f735a, 0x3527497e, 0x45e88f2c, 0x63356537, x, 0, 12, 0x4787c62a, 0xab92660e);
    Goes(6, MIDDLE, 0x63356537, 0xab92660e, 0x3527497e, 0x45e88f2c, x, 0, 17, 0xa8304613, 0x948347ae);
    Goes(7, MIDDLE, 0x45e88f2c, 0x948347ae, 0xab92660e, 0x3527497e, x, 0, 22, 0xfd469501, 0x377c7d0a);
  }

  lemma Second2(x: seq<Word>)
    requires SecondWords(x)
    ensures Steps(0, 16, MIDDLE, x) == Regs(0xdb4ff71c, 0x58b12eab, 0x04396a39, 0x9b6b4960)
  {
    hide Steps, Step;
    Second1(x);
    Goes(8, MIDDLE, 0x3527497e, 0x377c7d0a, 0x948347ae, 0xab92660e, x, 0, 7, 0x698098d8, 0xcc912f27);
    Goes(9, MIDDLE, 0xab92660e, 0xcc912f27, 0x377c7d0a, 0x948347ae, x, 0, 12, 0x8b44f7af, 0x6945a3d5);
    Goes(10, MIDDLE, 0x948347ae, 0x6945a3d5, 0xcc912f27, 0x377c7d0a, x, 0, 17, 0xffff5bb1, 0xae23894d);
    Goes(11, MIDDLE, 0x377c7d0a, 0xae23894d, 0x6945a3d5, 0xcc912f27, x, 0, 22, 0x895cd7be, 0xb9ede40c);
    Goes(12, MIDDLE, 0xcc912f27, 0xb9ede40c, 0xae23894d, 0x6945a3d5, x, 0, 7, 0x6b901122, 0xdb4ff71c);
    Goes(13, MIDDLE, 0x6945a3d5, 0xdb4ff71c, 0xb9ede40c, 0xae23894d, x, 0, 12, 0xfd987193, 0x9b6b4960);
    Goes(14, MIDDLE, 0xae23894d, 0x9b6b4960, 0xdb4ff71c, 0xb9ede40c, x, 0x280, 17, 0xa679438e, 0x04396a39);
    Goes(15, MIDDLE, 0xb9ede40c, 0x04396a39, 0x9b6b4960, 0xdb4ff71c, x, 0, 22, 0x49b40821, 0x58b12eab);
  }

  lemma Second3(x: seq<Word>)
    requires SecondWords(x)
    ensures Steps(0, 24, MIDDLE, x) == Regs(0x0d6e6d91, 0x043cb080, 0xd5b7a850, 0x17d64195)
  {
    hide Steps, Step;
    Second2(x);
    Goes(16, MIDDLE, 0xdb4ff71c, 0x58b12eab, 0x04396a39, 0x9b6b4960, x, 0x32313039, 5, 0xf61e2562, 0x52c00cae);
    Goes(17, MIDDLE, 0x9b6b4960, 0x52c00cae, 0x58b12eab, 0x04396a39, x, 0, 9, 0xc040b340, 0xaad2a216);
    Goes(18, MIDDLE, 0x04396a39, 0xaad2a216, 0x52c00cae, 0x58b12eab, x, 0, 14, 0x265e5a51, 0xa476af6f);
    Goes(19, MIDDLE, 0x58b12eab, 0xa476af6f, 0xaad2a216, 0x52c00cae, x, 0x38373635, 20, 0xe9b6c7aa, 0x50f8de8c);
    Goes(20, MIDDLE, 0x52c00cae, 0x50f8de8c, 0xa476af6f, 0xaad2a216, x, 0, 5, 0xd62f105d, 0x0d6e6d91);
    Goes(21, MIDDLE, 0xaad2a216, 0x0d6e6d91, 0x50f8de8c, 0xa476af6f, x, 0, 9, 0x02441453, 0x17d64195);
    Goes(22, MIDDLE, 0xa476af6f, 0x17d64195, 0x0d6e6d91, 0x50f8de8c, x, 0, 14, 0xd8a1e681, 0xd5b7a850);
    Goes(23, MIDDLE, 0x50f8de8c, 0xd5b7a850, 0x17d64195, 0x0d6e6d91, x, 0x80, 20, 0xe7d3fbc8, 0x043cb080);
  }

  lemma Second4(x: seq<Word>)
    requires SecondWords(x)
    ensures Steps(0, 32, MIDDLE, x) == Regs(0x8761f38e, 0x67092c33, 0x061bc867, 0x7a516116)
  {
    hide Steps, Step;
    Second3(x);
    Goes(24, MIDDLE, 0x0d6e6d91, 0x043cb080, 0xd5b7a850, 0x17d64195, x, 0, 5, 0x21e1cde6, 0x74f9377e);
    Goes(25, MIDDLE, 0x17d64195, 0x74f9377e, 0x043cb080, 0xd5b7a850, x, 0x280, 9, 0xc33707d6, 0x01f2addd);
    Goes(26, MIDDLE, 0xd5b7a850, 0x01f2addd, 0x74f9377e, 0x043cb080, x, 0x30393837, 14, 0xf4d50d87, 0xe775c8ca);
    Goes(27, MIDDLE, 0x043cb080, 0xe775c8ca, 0x01f2addd, 0x74f9377e, x, 0, 20, 0x455a14ed, 0xcb00b96e);
    Goes(28, MIDDLE, 0x74f9377e, 0xcb00b96e, 0xe775c8ca, 0x01f2addd, x, 0, 5, 0xa9e3e905, 0x8761f38e);
    Goes(29, MIDDLE, 0x01f2addd, 0x8761f38e, 0xcb00b96e, 0xe775c8ca, x, 0x36353433, 9, 0xfcefa3f8, 0x7a516116);
    Goes(30, MIDDLE, 0xe775c8ca, 0x7a516116, 0x8761f38e, 0xcb00b96e, x, 0, 14, 0x676f02d9, 0x061bc867);
    Goes(31, MIDDLE, 0xcb00b96e, 0x061bc867, 0x7a516116, 0x8761f38e, x, 0, 20, 0x8d2a4c8a, 0x67092c33);
  }

  lemma Second5(x: seq<Word>)
    requires SecondWords(x)
    ensures Steps(0, 40, MIDDLE, x) == Regs(0xae26ed7d, 0xdbd1bff6, 0xff4a94dc, 0x71d8ecea)
  {
    hide Steps, Step;
    Second4(x);
    Goes(32, MIDDLE, 0x8761f38e, 0x67092c33, 0x061bc867, 0x7a516116, x, 0, 4, 0xfffa3942, 0x91044d5d);
    Goes(33, MIDDLE, 0x7a516116, 0x91044d5d, 0x67092c33, 0x061bc867, x, 0, 11, 0x8771f681, 0x610954eb);
    Goes(34, MIDDLE, 0x061bc867, 0x610954eb, 0x91044d5d, 0x67092c33, x, 0, 16, 0x6d9d6122, 0xc0175fa8);
    Goes(35, MIDDLE, 0x67092c33, 0xc0175fa8, 0x610954eb, 0x91044d5d, x, 0x280, 23, 0xfde5380c, 0x2ee1e3fe);
    Goes(36, MIDDLE, 0x91044d5d, 0x2ee1e3fe, 0xc0175fa8, 0x610954eb, x, 0x32313039, 4, 0xa4beea44, 0xae26ed7d);
    Goes(37, MIDDLE, 0x610954eb, 0xae26ed7d, 0x2ee1e3fe, 0xc0175fa8, x, 0x80, 11, 0x4bdecfa9, 0x71d8ecea);
    Goes(38, MIDDLE, 0xc0175fa8, 0x71d8ecea, 0xae26ed7d, 0x2ee1e3fe, x, 0, 16, 0xf6bb4b60, 0xff4a94dc);
    Goes(39, MIDDLE, 0x2ee1e3fe, 0xff4a94dc, 0x71d8ecea, 0xae26ed7d, x, 0, 23, 0xbebfbc70, 0xdbd1bff6);
  }

  lemma Second6(x: seq<Word>)
    requires SecondWords(x)
    ensures Steps(0, 48, MIDDLE, x) == Regs(0x71123afa, 0x1df7010a, 0xe6a8a386, 0xdc9c8ddb)
  {
    hide Steps, Step;
    Second5(x);
    Goes(40, MIDDLE, 0xae26ed7d, 0xdbd1bff6, 0xff4a94dc, 0x71d8ecea, x, 0, 4, 0x289b7ec6, 0x9c350028);
    Goes(41, MIDDLE, 0x71d8ecea, 0x9c350028, 0xdbd1bff6, 0xff4a94dc, x, 0x38373635, 11, 0xeaa127fa, 0x97e5da92);
    Goes(42, MIDDLE, 0xff4a94dc, 0x97e5da92, 0x9c350028, 0xdbd1bff6, x, 0x30393837, 16, 0xd4ef3085, 0xfacaaf06);
    Goes(43, MIDDLE, 0xdbd1bff6, 0xfacaaf06, 0x97e5da92, 0x9c350028, x, 0, 23, 0x04881d05, 0x56b3692f);
    Goes(44, MIDDLE, 0x9c350028, 0x56b3692f, 0xfacaaf06, 0x97e5da92, x, 0, 4, 0xd9d4d039, 0x71123afa);
    Goes(45, MIDDLE, 0x97e5da92, 0x71123afa, 0x56b3692f, 0xfacaaf06, x, 0, 11, 0xe6db99e5, 0xdc9c8ddb);
    Goes(46, MIDDLE, 0xfacaaf06, 0xdc9c8ddb, 0x71123afa, 0x56b3692f, x, 0, 16, 0x1fa27cf8, 0xe6a8a386);
    Goes(47, MIDDLE, 0x56b3692f, 0xe6a8a386, 0xdc9c8ddb, 0x71123afa, x, 0x36353433, 23, 0xc4ac5665, 0x1df7010a);
  }

  lemma Second7(x: seq<Word>)
    requires SecondWords(x)
    ensures Steps(0, 56, MIDDLE, x) == Regs(0x7a504abd, 0x9b31b114, 0xa290d6ce, 0x211cc65d)
  {
    hide Steps, Step;
    Second6(x);
    Goes(48, MIDDLE, 0x71123afa, 0x1df7010a, 0xe6a8a386, 0xdc9c8ddb, x, 0x38373635, 6, 0xf4292244, 0xd29007e7);
    Goes(49, MIDDLE, 0xdc9c8ddb, 0xd29007e7, 0x1df7010a, 0xe6a8a386, x, 0, 10, 0x432aff97, 0x7241a77e);
    Goes(50, MIDDLE, 0xe6a8a386, 0x7241a77e, 0xd29007e7, 0x1df7010a, x, 0x280, 15, 0xab9423a7, 0xd3248109);
    Goes(51, MIDDLE, 0x1df7010a, 0xd3248109, 0x7241a77e, 0xd29007e7, x, 0, 21, 0xfc93a039, 0xc8797828);
    Goes(52, MIDDLE, 0xd29007e7, 0xc8797828, 0xd3248109, 0x7241a77e, x, 0, 6, 0x655b59c3, 0x7a504abd);
    Goes(53, MIDDLE, 0x7241a77e, 0x7a504abd, 0xc8797828, 0xd3248109, x, 0x30393837, 10, 0x8f0ccc92, 0x211cc65d);
    Goes(54, MIDDLE, 0xd3248109, 0x211cc65d, 0x7a504abd, 0xc8797828, x, 0, 15, 0xffeff47d, 0xa290d6ce);
    Goes(55, MIDDLE, 0xc8797828, 0xa290d6ce, 0x211cc65d, 0x7a504abd, x, 0x32313039, 21, 0x85845dd1, 0x9b31b114);
  }

  lemma Second8(x: seq<Word>)
    requires SecondWords(x)
    ensures Steps(0, 64, MIDDLE, x) == Regs(0xda67616b, 0xb12906a0, 0x44ec5a13, 0xc9e47a04)
  {
    hide Steps, Step;
    Second7(x);
    Goes(56, MIDDLE, 0x7a504abd, 0x9b31b114, 0xa290d6ce, 0x211cc65d, x, 0, 6, 0x6fa87e4f, 0x723fd22d);
    Goes(57, MIDDLE, 0x211cc65d, 0x723fd22d, 0x9b31b114, 0xa290d6ce, x, 0, 10, 0xfe2ce6e0, 0xd21d6a3b);
    Goes(58, MIDDLE, 0xa290d6ce, 0xd21d6a3b, 0x723fd22d, 0x9b31b114, x, 0, 15, 0xa3014314, 0x3d79cf74);
    Goes(59, MIDDLE, 0x9b31b114, 0x3d79cf74, 0xd21d6a3b, 0x723fd22d, x, 0, 21, 0x4e0811a1, 0x4dc4f33d);
    Goes(60, MIDDLE, 0x723fd22d, 0x4dc4f33d, 0x3d79cf74, 0xd21d6a3b, x, 0x80, 6, 0xf7537e82, 0xda67616b);
    Goes(61, MIDDLE, 0xd21d6a3b, 0xda67616b, 0x4dc4f33d, 0x3d79cf74, x, 0, 10, 0xbd3af235, 0xc9e47a04);
    Goes(62, MIDDLE, 0x3d79cf74, 0xc9e47a04, 0xda67616b, 0x4dc4f33d, x, 0x36353433, 15, 0x2ad7d2bb, 0x44ec5a13);
    Goes(63, MIDDLE, 0x4dc4f33d, 0x44ec5a13, 0xc9e47a04, 0xda67616b, x, 0, 21, 0xeb86d391, 0xb12906a0);
  }

  /** The first block is digits; the second ends them, and goes on with the padding and the
      length of 640 bits. */
  predicate FirstBytes(b: seq<Byte>) {
    |b| == 64 && forall k | 0 <= k < 64 :: b[k] == Digit(k)
  }

  predicate SecondBytes(b: seq<Byte>) {
    && |b| == 64 && (forall k | 0 <= k < 16 :: b[k] == Digit(64 + k)) && b[16] == 0x80
    && (forall k | 17 <= k < 56 :: b[k] == 0) && b[56] == 0x80 && b[57] == 0x02
    && forall k | 58 <= k < 64 :: b[k] == 0
  }

  lemma LowBytesOfDigits()
    ensures ByteAt(640, 1) == 0x80 && ByteAt(640, 0x100) == 0x02
  {
    assert 640 / 1 % 0x100 == 0x80 && 640 / 0x100 % 0x100 == 2;
  }

  lemma LengthOfDigits()
    ensures var f := LengthField(80); f[0] == 0x80 && f[1] == 0x02 && forall k | 2 <= k < 8 :: f[k] == 0
  {
    LowBytesOfDigits();
    ShortLength(80);
    hide ByteAt, LengthField;
  }

  lemma DigitsPadded(p: seq<Byte>)
    requires p == Padded(DIGITS)
    ensures |p| == 128 && FirstBytes(p[..64]) && SecondBytes(p[64..])
  {
    LengthOfDigits();
    hide LengthField, Digit;
    assert p == DIGITS + Padding(80) + LengthField(80);
  }

  lemma WordIs(b: seq<Byte>, k: nat, b0: Byte, b1: Byte, b2: Byte, b3: Byte, w: Word)
    requires |b| == 64 && k < 16 && Decode(b0, b1, b2, b3) == w
    requires b[4 * k] == b0 && b[4 * k + 1] == b1 && b[4 * k + 2] == b2 && b[4 * k + 3] == b3
    ensures Words(b)[k] == w
  {
  }

  lemma FirstWord1(b: seq<Byte>)
    requires FirstBytes(b)
    ensures var x := Words(b); x[0] == 0x34333231 && x[1] == 0x38373635 && x[2] == 0x32313039 && x[3] == 0x36353433
  {
    hide Words;
    WordIs(b, 0, 0x31, 0x32, 0x33, 0x34, 0x34333231);
    WordIs(b, 1, 0x35, 0x36, 0x37, 0x38, 0x38373635);
    WordIs(b, 2, 0x39, 0x30, 0x31, 0x32, 0x32313039);
    WordIs(b, 3, 0x33, 0x34, 0x35, 0x36, 0x36353433);
  }

  lemma FirstWord2(b: seq<Byte>)
    requires FirstBytes(b)
    ensures var x := Words(b); x[4] == 0x30393837 && x[5] == 0x34333231 && x[6] == 0x38373635 && x[7] == 0x32313039
  {
    hide Words;
    WordIs(b, 4, 0x37, 0x38, 0x39, 0x30, 0x30393837);
    WordIs(b, 5, 0x31, 0x32, 0x33, 0x34, 0x34333231);
    WordIs(b, 6, 0x35, 0x36, 0x37, 0x38, 0x38373635);
    WordIs(b, 7, 0x39, 0x30, 0x31, 0x32, 0x32313039);
  }

  lemma FirstWord3(b: seq<Byte>)
    requires FirstBytes(b)
    ensures var x := Words(b); x[8] == 0x36353433 && x[9] == 0x30393837 && x[10] == 0x34333231 && x[11] == 0x38373635
  {
    hide Words;
    WordIs(b, 8, 0x33, 0x34, 0x35, 0x36, 0x36353433);
    WordIs(b, 9, 0x37, 0x38, 0x39, 0x30, 0x30393837);
    WordIs(b, 10, 0x31, 0x32, 0x33, 0x34, 0x34333231);
    WordIs(b, 11, 0x35, 0x36, 0x37, 0x38, 0x38373635);
  }

  lemma FirstWord4(b: seq<Byte>)
    requires FirstBytes(b)
    ensures var x := Words(b); x[12] == 0x32313039 && x[13] == 0x36353433 && x[14] == 0x30393837 && x[15] == 0x34333231
  {
    hide Words;
    WordIs(b, 12, 0x39, 0x30, 0x31, 0x32, 0x32313039);
    WordIs(b, 13, 0x33, 0x34, 0x35, 0x36, 0x36353433);
    WordIs(b, 14, 0x37, 0x38, 0x39, 0x30, 0x30393837);
    WordIs(b, 15, 0x31, 0x32, 0x33, 0x34, 0x34333231);
  }

  lemma SecondWord1(b: seq<Byte>)
    requires SecondBytes(b)
    ensures var x := Words(b); x[0] == 0x38373635 && x[1] == 0x32313039 && x[2] == 0x36353433 && x[3] == 0x30393837
  {
    hide Words;
    WordIs(b, 0, 0x35, 0x36, 0x37, 0x38, 0x38373635);
    WordIs(b, 1, 0x39, 0x30, 0x31, 0x32, 0x32313039);
    WordIs(b, 2, 0x33, 0x34, 0x35, 0x36, 0x36353433);
    WordIs(b, 3, 0x37, 0x38, 0x39, 0x30, 0x30393837);
  }

  lemma SecondWord2(b: seq<Byte>)
    requires SecondBytes(b)
    ensures var x := Words(b); x[4] == 0x80 && x[5] == 0x0 && x[6] == 0x0 && x[7] == 0x0
  {
    hide Words;
    WordIs(b, 4, 0x80, 0, 0, 0, 0x80);
    WordIs(b, 5, 0, 0, 0, 0, 0x0);
    WordIs(b, 6, 0, 0, 0, 0, 0x0);
    WordIs(b, 7, 0, 0, 0, 0, 0x0);
  }

  lemma SecondWord3(b: seq<Byte>)
    requires SecondBytes(b)
    ensures var x := Words(b); x[8] == 0x0 && x[9] == 0x0 && x[10] == 0x0 && x[11] == 0x0
  {
    hide Words;
    WordIs(b, 8, 0, 0, 0, 0, 0x0);
    WordIs(b, 9, 0, 0, 0, 0, 0x0);
    WordIs(b, 10, 0, 0, 0, 0, 0x0);
    WordIs(b, 11, 0, 0, 0, 0, 0x0);
  }

  lemma SecondWord4(b: seq<Byte>)
    requires SecondBytes(b)
    ensures var x := Words(b); x[12] == 0x0 && x[13] == 0x0 && x[14] == 0x280 && x[15] == 0x0
  {
    hide Words;
    WordIs(b, 12, 0, 0, 0, 0, 0x0);
    WordIs(b, 13, 0, 0, 0, 0, 0x0);
    WordIs(b, 14, 0x80, 0x02, 0, 0, 0x280);
    WordIs(b, 15, 0, 0, 0, 0, 0x0);
  }

  lemma DigitsBlocks(b1: seq<Byte>, b2: seq<Byte>)
    requires FirstBytes(b1) && SecondBytes(b2)
    ensures Block(INIT, b1) == MIDDLE
    ensures Block(MIDDLE, b2) == Regs(0xa2f4ed57, 0x55c9e32b, 0x2eda49ac, 0x7ab60721)
  {
    FirstWord1(b1); FirstWord2(b1); FirstWord3(b1); FirstWord4(b1);
    SecondWord1(b2); SecondWord2(b2); SecondWord3(b2); SecondWord4(b2);
    hide Steps, Words, FirstBytes, SecondBytes;
    First8(Words(b1));
    Second8(Words(b2));
  }

  lemma DigitsOutput()
    ensures Output(Regs(0xa2f4ed57, 0x55c9e32b, 0x2eda49ac, 0x7ab60721)) == [0x57, 0xed, 0xf4, 0xa2, 0x2b, 0xe3, 0xc9, 0x55, 0xac, 0x49, 0xda, 0x2e, 0x21, 0x07, 0xb6, 0x7a]
  {
  }

  /** MD5 ("1234567890..." of 80 digits) = 57edf4a22be3c955ac49da2e2107b67a. */
  lemma DigestOfDigits()
    ensures Digest(DIGITS) == [0x57, 0xed, 0xf4, 0xa2, 0x2b, 0xe3, 0xc9, 0x55, 0xac, 0x49, 0xda, 0x2e, 0x21, 0x07, 0xb6, 0x7a]
  {
    var p := Padded(DIGITS);
    DigitsPadded(p);
    DigitsBlocks(p[..64], p[64..]);
    DigitsOutput();
    hide Block, Words, Padded, Output, FirstBytes, SecondBytes;
    BlocksSnoc(INIT, p[..64], p[64..]);
    BlocksSnoc(INIT, [], p[..64]);
    assert [] + p[..64] == p[..64] && p[..64] + p[64..] == p;
  }
}
