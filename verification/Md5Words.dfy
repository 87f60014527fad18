/** The 64-bit evaluation of the MD5 steps, as compiled where unsigned long has 64 bits:
    sums and shifts are not masked, so the high halves of the words hold garbage. The
    low halves follow RFC 1321. */
module Md5Words {
  import opened Md5Spec

  type Long = bv64

  /** The 32-bit word that a 64-bit one stands for. */
  function Lo(v: Long): Word {
    (v & 0xffff_ffff) as Word
  }

  function Lows(a: Long, b: Long, c: Long, d: Long): Regs {
    Regs(Lo(a), Lo(b), Lo(c), Lo(d))
  }

  function Plus(x: Long, y: Long): Long {
    x + y
  }

  /** The macro S: only the right shift is masked. */
  function S(x: Long, n: Long): Long
    requires 0 < n < 32
  {
    (x << n) | ((x & 0xffff_ffff) >> (32 - n))
  }

  /** The four definitions of the macro F. */
  function FF(x: Long, y: Long, z: Long): Long { z ^ (x & (y ^ z)) }

  function GG(x: Long, y: Long, z: Long): Long { y ^ (z & (x ^ y)) }

  function HH(x: Long, y: Long, z: Long): Long { x ^ y ^ z }

  function II(x: Long, y: Long, z: Long): Long { y ^ (x | !z) }

  function MixLong(round: nat, x: Long, y: Long, z: Long): Long {
    if round == 0 then FF(x, y, z)
    else if round == 1 then GG(x, y, z)
    else if round == 2 then HH(x, y, z)
    else II(x, y, z)
  }

  // ---------------------------------------------------------------- low halves

  function Masked(x: Long): Long {
    x & 0xffff_ffff
  }

  function Wide(a: Word): Long {
    a as Long
  }

  lemma MaskedSum(x: Long, y: Long)
    ensures Masked(Plus(x, y)) == Masked(Plus(Masked(x), Masked(y)))
  {
  }

  lemma WideSum(a: Word, b: Word)
    ensures Masked(Plus(Wide(a), Wide(b))) == Wide(Sum(a, b))
  {
  }

  lemma WideLo(x: Long)
    ensures Wide(Lo(x)) == Masked(x)
  {
  }

  lemma LoOf(x: Long, a: Word)
    requires Masked(x) == Wide(a)
    ensures Lo(x) == a
  {
  }

  /** Carries only go up. */
  lemma LoPlus(x: Long, y: Long)
    ensures Lo(Plus(x, y)) == Sum(Lo(x), Lo(y))
  {
    MaskedSum(x, y);
    WideLo(x);
    WideLo(y);
    WideSum(Lo(x), Lo(y));
    LoOf(Plus(x, y), Sum(Lo(x), Lo(y)));
  }

  /** Whatever is shifted out of the low half does not come back. */
  lemma LoRotate(x: Long, n: Long)
    requires 0 < n < 32
    ensures Lo(S(x, n)) == RotateLeft(Lo(x), n as Word)
  {
  }

  lemma LoFF(x: Long, y: Long, z: Long)
    ensures Lo(FF(x, y, z)) == F(Lo(x), Lo(y), Lo(z))
  {
  }

  lemma LoGG(x: Long, y: Long, z: Long)
    ensures Lo(GG(x, y, z)) == G(Lo(x), Lo(y), Lo(z))
  {
  }

  lemma LoHH(x: Long, y: Long, z: Long)
    ensures Lo(HH(x, y, z)) == H(Lo(x), Lo(y), Lo(z))
  {
  }

  lemma LoII(x: Long, y: Long, z: Long)
    ensures Lo(II(x, y, z)) == I(Lo(x), Lo(y), Lo(z))
  {
  }

  lemma LoMix(round: nat, x: Long, y: Long, z: Long)
    ensures Lo(MixLong(round, x, y, z)) == Mix(round, Lo(x), Lo(y), Lo(z))
  {
    if round == 0 { LoFF(x, y, z); }
    else if round == 1 { LoGG(x, y, z); }
    else if round == 2 { LoHH(x, y, z); }
    else { LoII(x, y, z); }
  }

  // ---------------------------------------------------------------- one step

  /** The macro P: a += F(b,c,d) + X[k] + t; a = S(a,s) + b. */
  function StepLong(round: nat, a: Long, b: Long, c: Long, d: Long, x: Long, s: Long, t: Long): Long
    requires 0 < s < 32
  {
    Plus(S(Plus(a, Plus(Plus(MixLong(round, b, c, d), x), t)), s), b)
  }

  lemma LoStep(round: nat, a: Long, b: Long, c: Long, d: Long, x: Long, s: Long, t: Long)
    requires 0 < s < 32
    ensures Lo(StepLong(round, a, b, c, d, x, s, t))
         == Sum(RotateLeft(Sum(Lo(a), Sum(Sum(Mix(round, Lo(b), Lo(c), Lo(d)), Lo(x)), Lo(t))), s as Word), Lo(b))
  {
    var m := MixLong(round, b, c, d);
    LoMix(round, b, c, d);
    LoPlus(m, x);
    LoPlus(Plus(m, x), t);
    LoPlus(a, Plus(Plus(m, x), t));
    LoRotate(Plus(a, Plus(Plus(m, x), t)), s);
    LoPlus(S(Plus(a, Plus(Plus(m, x), t)), s), b);
  }
}
