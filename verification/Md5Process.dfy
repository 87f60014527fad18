/** One block: md5_process, whose 64 steps are written out, two halves to a round. */
module Md5Process {
  import opened Md5Spec
  import opened Md5Words

  /** The macro GET_UINT32. */
  function GetLong(b0: Byte, b1: Byte, b2: Byte, b3: Byte): Long {
    (b0 as Long) | ((b1 as Long) << 8) | ((b2 as Long) << 16) | ((b3 as Long) << 24)
  }

  lemma LoGetLong(b0: Byte, b1: Byte, b2: Byte, b3: Byte)
    ensures Lo(GetLong(b0, b1, b2, b3)) == Decode(b0, b1, b2, b3)
  {
  }

  /** The words X[0..16] of a block. */
  function GetLongs(data: seq<Byte>): (xs: seq<Long>)
    requires |data| == 64
    ensures |xs| == 16
  {
    seq(16, k requires 0 <= k < 16 => GetLong(data[4 * k], data[4 * k + 1], data[4 * k + 2], data[4 * k + 3]))
  }

  /** Word by word, xs stands for x. */
  predicate StandsFor(xs: seq<Long>, x: seq<Word>) {
    |xs| == |x| == 16 && forall k | 0 <= k < 16 :: Lo(xs[k]) == x[k]
  }

  /** The word, shift and constant on a line of the program are those of step i. */
  predicate Line(i: nat, k: nat, s: Long, t: Long)
    requires i < 64
  {
    k == Index(i) && 0 < s < 32 && s as Word == Shift(i) && Lo(t) == T(i)
  }

  lemma GetLongsStandForWords(data: seq<Byte>)
    requires |data| == 64
    ensures StandsFor(GetLongs(data), Words(data))
  {
    forall k | 0 <= k < 16 ensures Lo(GetLongs(data)[k]) == Words(data)[k] {
      LoGetLong(data[4 * k], data[4 * k + 1], data[4 * k + 2], data[4 * k + 3]);
    }
  }

  /** The macro P, as line i of the program uses it: the low half of the updated
      register is the word that step i of the RFC computes from the low halves. */
  method P(round: nat, a: Long, b: Long, c: Long, d: Long, X: seq<Long>, k: nat, s: Long, t: Long,
           ghost i: nat, ghost x: seq<Word>) returns (r: Long)
    requires i < 64 && StandsFor(X, x) && round == i / 16 && Line(i, k, s, t)
    ensures Lows(d, r, b, c) == Step(i, Lows(a, b, c, d), x)
  {
    LoStep(round, a, b, c, d, X[k], s, t);
    r := StepLong(round, a, b, c, d, X[k], s, t);
  }

  /** Four consecutive lines. The registers keep their names and are updated in turn. */
  method Quad(round: nat, a: Long, b: Long, c: Long, d: Long, X: seq<Long>,
              k0: nat, s0: Long, t0: Long, k1: nat, s1: Long, t1: Long,
              k2: nat, s2: Long, t2: Long, k3: nat, s3: Long, t3: Long,
              ghost i: nat, ghost x: seq<Word>)
    returns (A: Long, B: Long, C: Long, D: Long)
    requires i + 4 <= 64 && StandsFor(X, x) && round == i / 16 == (i + 3) / 16
    requires Line(i, k0, s0, t0) && Line(i + 1, k1, s1, t1)
    requires Line(i + 2, k2, s2, t2) && Line(i + 3, k3, s3, t3)
    ensures Lows(A, B, C, D) == Steps(i, i + 4, Lows(a, b, c, d), x)
  {
    assert |x| == 16;
    hide Step, Line, StandsFor;
    A, B, C, D := a, b, c, d;
    A := P(round, A, B, C, D, X, k0, s0, t0, i, x);
    assert Lows(D, A, B, C) == Steps(i, i + 1, Lows(a, b, c, d), x);
    D := P(round, D, A, B, C, X, k1, s1, t1, i + 1, x);
    assert Lows(C, D, A, B) == Steps(i, i + 2, Lows(a, b, c, d), x);
    C := P(round, C, D, A, B, X, k2, s2, t2, i + 2, x);
    assert Lows(B, C, D, A) == Steps(i, i + 3, Lows(a, b, c, d), x);
    B := P(round, B, C, D, A, X, k3, s3, t3, i + 3, x);
  }

  method Half1(a: Long, b: Long, c: Long, d: Long, X: seq<Long>, ghost x: seq<Word>)
    returns (A: Long, B: Long, C: Long, D: Long)
    requires StandsFor(X, x)
    ensures Lows(A, B, C, D) == Steps(0, 8, Lows(a, b, c, d), x)
  {
    assert |x| == 16;
    hide Steps, StandsFor, Lows;
    A, B, C, D := Quad(0, a, b, c, d, X, 0, 7, 0xD76AA478, 1, 12, 0xE8C7B756,
                       2, 17, 0x242070DB, 3, 22, 0xC1BDCEEE, 0, x);
    A, B, C, D := Quad(0, A, B, C, D, X, 4, 7, 0xF57C0FAF, 5, 12, 0x4787C62A,
                       6, 17, 0xA8304613, 7, 22, 0xFD469501, 4, x);
    StepsCompose(0, 4, 8, Lows(a, b, c, d), x);
  }

  method Half2(a: Long, b: Long, c: Long, d: Long, X: seq<Long>, ghost x: seq<Word>)
    returns (A: Long, B: Long, C: Long, D: Long)
    requires StandsFor(X, x)
    ensures Lows(A, B, C, D) == Steps(8, 16, Lows(a, b, c, d), x)
  {
    assert |x| == 16;
    hide Steps, StandsFor, Lows;
    A, B, C, D := Quad(0, a, b, c, d, X, 8, 7, 0x698098D8, 9, 12, 0x8B44F7AF,
                       10, 17, 0xFFFF5BB1, 11, 22, 0x895CD7BE, 8, x);
    A, B, C, D := Quad(0, A, B, C, D, X, 12, 7, 0x6B901122, 13, 12, 0xFD987193,
                       14, 17, 0xA679438E, 15, 22, 0x49B40821, 12, x);
    StepsCompose(8, 12, 16, Lows(a, b, c, d), x);
  }

  method Half3(a: Long, b: Long, c: Long, d: Long, X: seq<Long>, ghost x: seq<Word>)
    returns (A: Long, B: Long, C: Long, D: Long)
    requires StandsFor(X, x)
    ensures Lows(A, B, C, D) == Steps(16, 24, Lows(a, b, c, d), x)
  {
    assert |x| == 16;
    hide Steps, StandsFor, Lows;
    A, B, C, D := Quad(1, a, b, c, d, X, 1, 5, 0xF61E2562, 6, 9, 0xC040B340,
                       11, 14, 0x265E5A51, 0, 20, 0xE9B6C7AA, 16, x);
    A, B, C, D := Quad(1, A, B, C, D, X, 5, 5, 0xD62F105D, 10, 9, 0x02441453,
                       15, 14, 0xD8A1E681, 4, 20, 0xE7D3FBC8, 20, x);
    StepsCompose(16, 20, 24, Lows(a, b, c, d), x);
  }

  method Half4(a: Long, b: Long, c: Long, d: Long, X: seq<Long>, ghost x: seq<Word>)
    returns (A: Long, B: Long, C: Long, D: Long)
    requires StandsFor(X, x)
    ensures Lows(A, B, C, D) == Steps(24, 32, Lows(a, b, c, d), x)
  {
    assert |x| == 16;
    hide Steps, StandsFor, Lows;
    A, B, C, D := Quad(1, a, b, c, d, X, 9, 5, 0x21E1CDE6, 14, 9, 0xC33707D6,
                       3, 14, 0xF4D50D87, 8, 20, 0x455A14ED, 24, x);
    A, B, C, D := Quad(1, A, B, C, D, X, 13, 5, 0xA9E3E905, 2, 9, 0xFCEFA3F8,
                       7, 14, 0x676F02D9, 12, 20, 0x8D2A4C8A, 28, x);
    StepsCompose(24, 28, 32, Lows(a, b, c, d), x);
  }

  method Half5(a: Long, b: Long, c: Long, d: Long, X: seq<Long>, ghost x: seq<Word>)
    returns (A: Long, B: Long, C: Long, D: Long)
    requires StandsFor(X, x)
    ensures Lows(A, B, C, D) == Steps(32, 40, Lows(a, b, c, d), x)
  {
    assert |x| == 16;
    hide Steps, StandsFor, Lows;
    A, B, C, D := Quad(2, a, b, c, d, X, 5, 4, 0xFFFA3942, 8, 11, 0x8771F681,
                       11, 16, 0x6D9D6122, 14, 23, 0xFDE5380C, 32, x);
    A, B, C, D := Quad(2, A, B, C, D, X, 1, 4, 0xA4BEEA44, 4, 11, 0x4BDECFA9,
                       7, 16, 0xF6BB4B60, 10, 23, 0xBEBFBC70, 36, x);
    StepsCompose(32, 36, 40, Lows(a, b, c, d), x);
  }

  method Half6(a: Long, b: Long, c: Long, d: Long, X: seq<Long>, ghost x: seq<Word>)
    returns (A: Long, B: Long, C: Long, D: Long)
    requires StandsFor(X, x)
    ensures Lows(A, B, C, D) == Steps(40, 48, Lows(a, b, c, d), x)
  {
    assert |x| == 16;
    hide Steps, StandsFor, Lows;
    A, B, C, D := Quad(2, a, b, c, d, X, 13, 4, 0x289B7EC6, 0, 11, 0xEAA127FA,
                       3, 16, 0xD4EF3085, 6, 23, 0x04881D05, 40, x);
    A, B, C, D := Quad(2, A, B, C, D, X, 9, 4, 0xD9D4D039, 12, 11, 0xE6DB99E5,
                       15, 16, 0x1FA27CF8, 2, 23, 0xC4AC5665, 44, x);
    StepsCompose(40, 44, 48, Lows(a, b, c, d), x);
  }

  method Half7(a: Long, b: Long, c: Long, d: Long, X: seq<Long>, ghost x: seq<Word>)
    returns (A: Long, B: Long, C: Long, D: Long)
    requires StandsFor(X, x)
    ensures Lows(A, B, C, D) == Steps(48, 56, Lows(a, b, c, d), x)
  {
    assert |x| == 16;
    hide Steps, StandsFor, Lows;
    A, B, C, D := Quad(3, a, b, c, d, X, 0, 6, 0xF4292244, 7, 10, 0x432AFF97,
                       14, 15, 0xAB9423A7, 5, 21, 0xFC93A039, 48, x);
    A, B, C, D := Quad(3, A, B, C, D, X, 12, 6, 0x655B59C3, 3, 10, 0x8F0CCC92,
                       10, 15, 0xFFEFF47D, 1, 21, 0x85845DD1, 52, x);
    StepsCompose(48, 52, 56, Lows(a, b, c, d), x);
  }

  method Half8(a: Long, b: Long, c: Long, d: Long, X: seq<Long>, ghost x: seq<Word>)
    returns (A: Long, B: Long, C: Long, D: Long)
    requires StandsFor(X, x)
    ensures Lows(A, B, C, D) == Steps(56, 64, Lows(a, b, c, d), x)
  {
    assert |x| == 16;
    hide Steps, StandsFor, Lows;
    A, B, C, D := Quad(3, a, b, c, d, X, 8, 6, 0x6FA87E4F, 15, 10, 0xFE2CE6E0,
                       6, 15, 0xA3014314, 13, 21, 0x4E0811A1, 56, x);
    A, B, C, D := Quad(3, A, B, C, D, X, 4, 6, 0xF7537E82, 11, 10, 0xBD3AF235,
                       2, 15, 0x2AD7D2BB, 9, 21, 0xEB86D391, 60, x);
    StepsCompose(56, 60, 64, Lows(a, b, c, d), x);
  }

  /** The local part of md5_process: the registers after the 64 steps. */
  method Transform(a: Long, b: Long, c: Long, d: Long, data: seq<Byte>)
    returns (A: Long, B: Long, C: Long, D: Long)
    requires |data| == 64
    ensures Lows(A, B, C, D) == Steps(0, 64, Lows(a, b, c, d), Words(data))
  {
    ghost var h := Lows(a, b, c, d);
    ghost var x := Words(data);
    var X := GetLongs(data);
    GetLongsStandForWords(data);
    A, B, C, D := Half1(a, b, c, d, X, x);
    A, B, C, D := Half2(A, B, C, D, X, x);
    StepsCompose(0, 8, 16, h, x);
    A, B, C, D := Half3(A, B, C, D, X, x);
    StepsCompose(0, 16, 24, h, x);
    A, B, C, D := Half4(A, B, C, D, X, x);
    StepsCompose(0, 24, 32, h, x);
    A, B, C, D := Half5(A, B, C, D, X, x);
    StepsCompose(0, 32, 40, h, x);
    A, B, C, D := Half6(A, B, C, D, X, x);
    StepsCompose(0, 40, 48, h, x);
    A, B, C, D := Half7(A, B, C, D, X, x);
    StepsCompose(0, 48, 56, h, x);
    A, B, C, D := Half8(A, B, C, D, X, x);
    StepsCompose(0, 56, 64, h, x);
  }

  /** ctx->state[j] += the register, for each of the four. */
  lemma LoAdd(a: Long, b: Long, c: Long, d: Long, A: Long, B: Long, C: Long, D: Long, data: seq<Byte>)
    requires |data| == 64 && Lows(A, B, C, D) == Steps(0, 64, Lows(a, b, c, d), Words(data))
    ensures Lows(Plus(a, A), Plus(b, B), Plus(c, C), Plus(d, D)) == Block(Lows(a, b, c, d), data)
  {
    LoPlus(a, A);
    LoPlus(b, B);
    LoPlus(c, C);
    LoPlus(d, D);
  }
}
