/** The streaming digest: md5_starts, md5_update, md5_finish and their callers. */
module Md5 {
  import opened Md5Spec
  import opened Md5Words
  import opened Md5Process

  const LONG := 0x1_0000_0000_0000_0000  // 2^64, the range of the counter words
  const WORD := 0x1_0000_0000            // 2^32

  // ---------------------------------------------------------------- the bit counter

  /** total[0] after counting len more bytes. */
  function LowAfter(t0: nat, len: nat): nat {
    (t0 + len * 8 % LONG) % LONG % WORD
  }

  /** total[1] after counting len more bytes: the carry is taken to be a sum that is less
      than what was added, where the addend is not cut to 32 bits. */
  function HighAfter(t0: nat, t1: nat, len: nat): nat {
    ((t1 + len / 0x2000_0000) % LONG + (if LowAfter(t0, len) < len * 8 % LONG then 1 else 0)) % LONG
  }

  /** The counter words say how many bits n bytes have, modulo 2^64. */
  predicate CountsLow(t0: nat, n: nat) {
    t0 == 8 * n % WORD
  }

  predicate CountsHigh(t1: nat, n: nat) {
    t1 % WORD == 8 * n / WORD % WORD
  }

  /** When the carry is right: the length of one call stays below 2^29, or the low word
      carries anyway. */
  predicate CarryRight(t0: nat, len: nat) {
    len % 0x2000_0000_0000_0000 < 0x2000_0000 || t0 + 8 * len % WORD >= WORD
  }

  lemma LowCounts(t0: nat, n: nat, len: nat)
    requires CountsLow(t0, n)
    ensures CountsLow(LowAfter(t0, len), n + len)
  {
    var l := 8 * len % WORD;
    var c := if t0 + l >= WORD then 1 else 0;
    AddBits(n, len, t0, l, c);
    Bits(len);
    LowIs(t0, len * 8 % LONG, l, c);
  }

  lemma Congruent(x: int, y: int, z: int, d: int, e: int)
    requires x % WORD == y % WORD && 0 <= d <= 1 && 0 <= e <= 1
    ensures (x + z + d) % WORD == (y + z + e) % WORD <==> d == e
  {
    var a, b := x / WORD, y / WORD;
    assert x + z + d == (y + z + e) + WORD * (a - b) + d - e;
    if d != e {
      var u, v := x + z + d, y + z + e;
      assert u == WORD * (u / WORD) + u % WORD && v == WORD * (v / WORD) + v % WORD;
    }
  }

  lemma ModLong(x: nat)
    ensures x % LONG % WORD == x % WORD
  {
  }

  /** The quotient and remainder of a sum of bits, one carry apart. */
  lemma AddBits(n: nat, len: nat, t0: nat, l: nat, c: nat)
    requires t0 == 8 * n % WORD && l == 8 * len % WORD && c == (if t0 + l >= WORD then 1 else 0)
    ensures 8 * (n + len) / WORD == 8 * n / WORD + 8 * len / WORD + c
    ensures 8 * (n + len) % WORD == t0 + l - WORD * c
    ensures (t0 + l) % WORD == t0 + l - WORD * c
  {
  }

  lemma Bits(len: nat)
    ensures len * 8 % LONG == 8 * (len % 0x2000_0000_0000_0000)
    ensures len * 8 % LONG % WORD == 8 * len % WORD
  {
    ModLong(len * 8);
  }

  lemma LowIs(t0: nat, w: nat, l: nat, c: nat)
    requires t0 < WORD && l == w % WORD && c == (if t0 + l >= WORD then 1 else 0)
    ensures (t0 + w) % LONG % WORD == t0 + l - WORD * c
  {
    ModLong(t0 + w);
    var k := w / WORD;
    assert t0 + w == t0 + l - WORD * c + WORD * (k + c);
  }

  lemma CarryIs(t0: nat, len: nat, l: nat, c: nat)
    requires t0 < WORD && l == 8 * len % WORD && c == (if t0 + l >= WORD then 1 else 0)
    ensures (LowAfter(t0, len) < len * 8 % LONG <==> c == 1) <==> CarryRight(t0, len)
  {
    var w := len * 8 % LONG;
    Bits(len);
    LowIs(t0, w, l, c);
    assert LowAfter(t0, len) == t0 + l - WORD * c;
  }

  /** Counting len more bytes keeps the counter right exactly if CarryRight holds. */
  lemma HighCountsIff(t0: nat, t1: nat, n: nat, len: nat)
    requires CountsLow(t0, n) && CountsHigh(t1, n)
    ensures CountsHigh(HighAfter(t0, t1, len), n + len) <==> CarryRight(t0, len)
  {
    var l := 8 * len % WORD;
    var c := if t0 + l >= WORD then 1 else 0;
    var e := if LowAfter(t0, len) < len * 8 % LONG then 1 else 0;
    AddBits(n, len, t0, l, c);
    CarryIs(t0, len, l, c);
    var q := len / 0x2000_0000;
    assert q == 8 * len / WORD;
    ModLong((t1 + q) % LONG + e);
    ModLong(t1 + q);
    Congruent((t1 + q) % LONG, t1 + q, 0, e, e);
    Congruent(t1, 8 * n / WORD, q, e, c);
  }

  lemma ShortCallCounts(t0: nat, t1: nat, n: nat, len: nat)
    requires CountsLow(t0, n) && CountsHigh(t1, n) && len < 0x2000_0000
    ensures CountsHigh(HighAfter(t0, t1, len), n + len)
  {
    HighCountsIff(t0, t1, n, len);
  }

  // ---------------------------------------------------------------- bytes out

  /** The macro PUT_UINT32 on a state word. */
  function PutLong(v: Long): (f: seq<Byte>)
    ensures |f| == 4
  {
    [(v & 0xff) as Byte, ((v >> 8) & 0xff) as Byte, ((v >> 16) & 0xff) as Byte, ((v >> 24) & 0xff) as Byte]
  }

  lemma PutLongEncodes(v: Long)
    ensures PutLong(v) == Encode(Lo(v))
  {
  }

  /** The macro PUT_UINT32 on a counter word. */
  function PutCount(n: nat): (f: seq<Byte>)
    ensures |f| == 4
  {
    [ByteAt(n, 1), ByteAt(n, 0x100), ByteAt(n, 0x1_0000), ByteAt(n, 0x100_0000)]
  }

  lemma SameByte(x: nat, y: nat, k: int)
    requires x == y + 0x100 * k
    ensures x % 0x100 == y % 0x100
  {
  }

  /** What lies above 2^32 does not show in the low four bytes. */
  lemma Truncated(b: nat)
    ensures b % WORD % 0x100 == b % 0x100
    ensures b % WORD / 0x100 % 0x100 == b / 0x100 % 0x100
    ensures b % WORD / 0x1_0000 % 0x100 == b / 0x1_0000 % 0x100
    ensures b % WORD / 0x100_0000 % 0x100 == b / 0x100_0000 % 0x100
  {
    var q, r := b / WORD, b % WORD;
    SameByte(b, r, 0x100_0000 * q);
    SameByte(b / 0x100, r / 0x100, 0x1_0000 * q);
    SameByte(b / 0x1_0000, r / 0x1_0000, 0x100 * q);
    SameByte(b / 0x100_0000, r / 0x100_0000, q);
  }

  /** PUT_UINT32 writes the low 32 bits of a counter word. */
  lemma PutCountLow(n: nat)
    ensures PutCount(n % WORD) == PutCount(n)
  {
    Truncated(n);
  }

  lemma HighBytes(b: nat)
    ensures ByteAt(b / WORD, 1) == ByteAt(b, 0x1_0000_0000)
    ensures ByteAt(b / WORD, 0x100) == ByteAt(b, 0x100_0000_0000)
    ensures ByteAt(b / WORD, 0x1_0000) == ByteAt(b, 0x1_0000_0000_0000)
    ensures ByteAt(b / WORD, 0x100_0000) == ByteAt(b, 0x100_0000_0000_0000)
  {
    assert b / WORD / 0x100 == b / 0x100_0000_0000;
    assert b / WORD / 0x1_0000 == b / 0x1_0000_0000_0000;
    assert b / WORD / 0x100_0000 == b / 0x100_0000_0000_0000;
  }

  lemma CounterWords(t0: nat, t1: nat, bits: nat)
    requires t0 == bits % WORD && t1 % WORD == bits / WORD % WORD
    ensures t0 == bits % LONG % WORD && t1 % WORD == bits % LONG / WORD % WORD
  {
    ModLong(bits);
    assert bits / WORD == WORD * (bits / LONG) + bits % LONG / WORD;
  }

  /** A right counter is written out as the length field of the RFC. */
  lemma CounterIsLengthField(t0: nat, t1: nat, n: nat)
    requires CountsLow(t0, n) && CountsHigh(t1, n)
    ensures PutCount(t0) + PutCount(t1) == LengthField(n)
  {
    var b := 8 * n % LONG;
    CounterWords(t0, t1, 8 * n);
    PutCountLow(b);
    PutCountLow(t1);
    PutCountLow(b / WORD);
    HighBytes(b);
  }

  // ---------------------------------------------------------------- padding

  /** md5_padding. */
  const MD5_PADDING: seq<Byte> := [0x80] + seq(63, _ => 0)

  /** How much of md5_padding md5_finish uses. */
  function PadUpTo(t0: nat): (p: nat)
    ensures 1 <= p <= 64
  {
    var last := t0 / 8 % 64;
    if last < 56 then 56 - last else 120 - last
  }

  /** The padding of the program is the padding of the RFC. */
  lemma PaddingIs(t0: nat, n: nat)
    requires CountsLow(t0, n)
    ensures PadUpTo(t0) == PadLength(n) && MD5_PADDING[..PadUpTo(t0)] == Padding(n)
  {
    LeftIs(t0, n);
  }

  /** m padded as in the RFC, followed by any length field. */
  function PaddedWith(m: seq<Byte>, field: seq<Byte>): (p: seq<Byte>)
    requires |field| == 8
    ensures |p| % 64 == 0
  {
    assert (|m| + PadLength(|m|)) % 64 == 56;
    m + Padding(|m|) + field
  }

  // ---------------------------------------------------------------- the context

  function StateRegs(state: seq<Long>): Regs
    requires |state| == 4
  {
    Lows(state[0], state[1], state[2], state[3])
  }

  /** state holds the chaining words after the whole blocks m. */
  predicate Digested(state: seq<Long>, m: seq<Byte>)
    requires |state| == 4
  {
    |m| % 64 == 0 && StateRegs(state) == Blocks(INIT, m)
  }

  function Whole(m: seq<Byte>): seq<Byte> {
    m[..|m| - |m| % 64]
  }

  function Rest(m: seq<Byte>): (r: seq<Byte>)
    ensures |r| == |m| % 64 && Whole(m) + r == m
  {
    m[|m| - |m| % 64..]
  }

  class Context {
    var total0: nat
    var total1: nat
    const state: array<Long>
    const buffer: array<Byte>
    ghost var seen: seq<Byte>  // every byte given to Update so far

    ghost predicate Valid()
      reads this, state, buffer
    {
      && state.Length == 4 && buffer.Length == 64
      && CountsLow(total0, |seen|) && total1 < LONG
      && Digested(state[..], Whole(seen)) && buffer[..|Rest(seen)|] == Rest(seen)
    }

    constructor Starts()
      ensures Valid() && fresh(state) && fresh(buffer)
      ensures seen == [] && total0 == total1 == 0 && CountsHigh(total1, |seen|)
    {
      total0, total1 := 0, 0;
      state := new Long[4] [0x67452301, 0xEFCDAB89, 0x98BADCFE, 0x10325476];
      buffer := new Byte[64];
      seen := [];
      new;
      assert state[..] == [0x67452301, 0xEFCDAB89, 0x98BADCFE, 0x10325476];
    }

    method Process(data: seq<Byte>)
      requires state.Length == 4 && |data| == 64
      modifies state
      ensures StateRegs(state[..]) == Block(old(StateRegs(state[..])), data)
    {
      var A, B, C, D := Transform(state[0], state[1], state[2], state[3], data);
      LoAdd(state[0], state[1], state[2], state[3], A, B, C, D, data);
      state[0] := Plus(state[0], A);
      state[1] := Plus(state[1], B);
      state[2] := Plus(state[2], C);
      state[3] := Plus(state[3], D);
    }

    /** memcpy into the buffer. */
    method Fill(at: nat, bytes: seq<Byte>)
      requires buffer.Length == 64 && at + |bytes| <= 64
      modifies buffer
      ensures buffer[..] == old(buffer[..at]) + bytes + old(buffer[at + |bytes|..])
    {
      forall k | 0 <= k < |bytes| {
        buffer[at + k] := bytes[k];
      }
    }

    /** The counting part of md5_update. */
    method CountBits(length: nat)
      requires length < LONG && total0 < WORD && total1 < LONG
      modifies this`total0, this`total1
      ensures total0 == LowAfter(old(total0), length)
      ensures total1 == HighAfter(old(total0), old(total1), length)
    {
      total0 := (total0 + length * 8 % LONG) % LONG;
      total1 := (total1 + length / 0x2000_0000) % LONG;
      total0 := total0 % WORD;
      total1 := (total1 + if total0 < length * 8 % LONG then 1 else 0) % LONG;
    }

    /** Complete a block begun in the buffer, if there are bytes enough. */
    method TopUp(left: nat, input: seq<Byte>, ghost done: seq<Byte>)
      requires state.Length == 4 && buffer.Length == 64
      requires 0 < left < 64 && |input| >= 64 - left && Digested(state[..], done)
      modifies state, buffer
      ensures Digested(state[..], done + old(buffer[..left]) + input[..64 - left])
    {
      hide Block, StateRegs;
      ghost var held := buffer[..left];
      Fill(left, input[..64 - left]);
      assert buffer[..] == held + input[..64 - left];
      Process(buffer[..]);
      BlocksSnoc(INIT, done, buffer[..]);
      assert done + buffer[..] == done + held + input[..64 - left];
    }

    /** Digest whole blocks straight from the input; what remains is less than a block. */
    method WholeFrom(input: seq<Byte>, ghost done: seq<Byte>) returns (rest: seq<Byte>)
      requires state.Length == 4 && Digested(state[..], done)
      modifies state
      ensures rest == Rest(input) && Digested(state[..], done + Whole(input))
    {
      hide Block, StateRegs;
      var length := |input|;
      rest := input;
      ghost var n := 0;
      assert done + input[..0] == done;
      while length >= 64
        invariant 0 <= length && n + length == |input| && n % 64 == 0 && rest == input[n..]
        invariant Digested(state[..], done + input[..n])
        modifies state
      {
        Process(rest[..64]);
        BlocksSnoc(INIT, done + input[..n], rest[..64]);
        NextBlock(done, input, n);
        length := length - 64;
        rest := rest[64..];
        n := n + 64;
      }
    }

    /** The copying part of md5_update. */
    method Absorb(left0: nat, input: seq<Byte>)
      requires state.Length == 4 && buffer.Length == 64
      requires Digested(state[..], Whole(seen)) && buffer[..|Rest(seen)|] == Rest(seen) && left0 == |Rest(seen)|
      modifies this`seen, state, buffer
      ensures seen == old(seen) + input
      ensures Digested(state[..], Whole(seen)) && buffer[..|Rest(seen)|] == Rest(seen)
    {
      hide Blocks, StateRegs, Whole, Rest;
      var left, rest := left0, input;
      ghost var done, held := Whole(seen), Rest(seen);
      seen := seen + input;
      if left > 0 && |rest| >= 64 - left {
        TopUp(left, rest, done);
        done := done + held + rest[..64 - left];
        rest := rest[64 - left..];
        left, held := 0, [];
      }
      assert done + held + rest == seen;
      if left == 0 {
        var blocks := rest;
        rest := WholeFrom(blocks, done);
        done := done + Whole(blocks);
      }
      assert done + held + rest == seen;
      if |rest| > 0 {
        Fill(left, rest);
        assert buffer[..left + |rest|] == held + rest;
      }
      WholeBlocks(seen, done, held + rest);
    }

    /** md5_update: whatever the length, the bytes are absorbed and total0 is right;
        total1 follows the program's carry. */
    method Update(input: seq<Byte>)
      requires Valid() && |input| < LONG
      modifies this`total0, this`total1, this`seen, state, buffer
      ensures Valid() && seen == old(seen) + input
      ensures total0 == LowAfter(old(total0), |input|)
      ensures total1 == HighAfter(old(total0), old(total1), |input|)
    {
      hide Digested;
      LowCounts(total0, |seen|, |input|);
      if |input| == 0 {
        assert seen + input == seen;
        return;
      }
      var left := total0 / 8 % 64;
      LeftIs(total0, |seen|);
      CountBits(|input|);
      Absorb(left, input);
    }

    /** md5_finish: the digest of everything seen, padded as in the RFC, with the length
        field that the counter words give. */
    method Finish() returns (digest: seq<Byte>)
      requires Valid()
      modifies this`total0, this`total1, this`seen, state, buffer
      ensures digest == Output(Blocks(INIT, PaddedWith(old(seen), old(PutCount(total0) + PutCount(total1)))))
      ensures old(CountsHigh(total1, |seen|)) ==> digest == Digest(old(seen))
    {
      hide Block, Blocks, Output, StateRegs, PadUpTo, HighAfter, LowAfter;
      ghost var m := seen;
      var msglen := PutCount(total0) + PutCount(total1);
      var padn := PadUpTo(total0);
      PaddingIs(total0, |m|);
      if CountsHigh(total1, |m|) { CounterIsLengthField(total0, total1, |m|); }
      Update(MD5_PADDING[..padn]);
      Update(msglen);
      assert seen == PaddedWith(m, msglen);
      assert Whole(seen) == seen;
      digest := PutLong(state[0]) + PutLong(state[1]) + PutLong(state[2]) + PutLong(state[3]);
      OutputOf(state[..]);
    }
  }

  /** The digest is written out word by word. */
  lemma OutputOf(state: seq<Long>)
    requires |state| == 4
    ensures PutLong(state[0]) + PutLong(state[1]) + PutLong(state[2]) + PutLong(state[3])
         == Output(StateRegs(state))
  {
    PutLongEncodes(state[0]);
    PutLongEncodes(state[1]);
    PutLongEncodes(state[2]);
    PutLongEncodes(state[3]);
  }

  lemma LeftIs(t0: nat, n: nat)
    requires CountsLow(t0, n)
    ensures t0 / 8 % 64 == n % 64
  {
    LowWord(n);
    LowBlock(n);
  }

  lemma LowWord(n: nat)
    ensures 8 * n % WORD == 8 * (n % 0x2000_0000)
  {
  }

  lemma LowBlock(n: nat)
    ensures n % 0x2000_0000 % 64 == n % 64
  {
  }

  lemma NextBlock(done: seq<Byte>, input: seq<Byte>, n: nat)
    requires n + 64 <= |input|
    ensures done + input[..n] + input[n..][..64] == done + input[..n + 64]
    ensures input[n..][64..] == input[n + 64..]
  {
  }

  lemma WholeBlocks(all: seq<Byte>, done: seq<Byte>, tail: seq<Byte>)
    requires |done| % 64 == 0 && |tail| < 64 && all == done + tail
    ensures Whole(all) == done && Rest(all) == tail
  {
  }

  // ---------------------------------------------------------------- whole messages

  function Concat(chunks: seq<seq<Byte>>): seq<Byte> {
    if chunks == [] then [] else Concat(chunks[..|chunks| - 1]) + chunks[|chunks| - 1]
  }

  /** Starts, Update on each chunk, Finish: however a message is cut into chunks of less
      than 2^29 bytes, the result is the RFC 1321 digest of the whole. */
  method DigestOfChunks(chunks: seq<seq<Byte>>) returns (digest: seq<Byte>)
    requires forall i | 0 <= i < |chunks| :: |chunks[i]| < 0x2000_0000
    ensures digest == Digest(Concat(chunks))
  {
    hide Digest, HighAfter, LowAfter, CountsHigh, CountsLow, Digested, Whole, Rest, Blocks, Output, PaddedWith;
    var ctx := new Context.Starts();
    for i := 0 to |chunks|
      invariant ctx.Valid() && fresh(ctx) && fresh(ctx.state) && fresh(ctx.buffer)
      invariant ctx.seen == Concat(chunks[..i]) && CountsHigh(ctx.total1, |ctx.seen|)
    {
      ShortCallCounts(ctx.total0, ctx.total1, |ctx.seen|, |chunks[i]|);
      ctx.Update(chunks[i]);
      assert chunks[..i + 1][..i] == chunks[..i];
    }
    assert chunks[..|chunks|] == chunks;
    digest := ctx.Finish();
  }

  /** An int passed as an unsigned long: what is negative becomes huge. */
  function Length(n: int): (len: nat)
    requires -0x8000_0000 <= n < 0x8000_0000
    ensures len < LONG && (n >= 0 ==> len == n)
  {
    if n < 0 then n + LONG else n
  }

  class MD5 {
    const m_data: array<Byte>  // four 64-bit words, of which a digest fills the first two

    constructor ()
      ensures m_data.Length == 32 && fresh(m_data) && forall k | 0 <= k < 32 :: m_data[k] == 0
    {
      m_data := new Byte[32](_ => 0);
    }

    /** GenerateMD5: buffer is what the caller may read, of which the program takes as many
        bytes as the int stands for. */
    method GenerateMD5(buffer: seq<Byte>, bufferlen: int)
      requires m_data.Length == 32 && -0x8000_0000 <= bufferlen < 0x8000_0000 && |buffer| >= Length(bufferlen)
      modifies m_data
      ensures m_data[16..] == old(m_data[16..])
      ensures m_data[..16] == Output(Blocks(INIT, PaddedWith(buffer[..Length(bufferlen)],
                PutCount(LowAfter(0, Length(bufferlen))) + PutCount(HighAfter(0, 0, Length(bufferlen))))))
      ensures 0 <= bufferlen < 0x2000_0000 ==> m_data[..16] == Digest(buffer[..bufferlen])
    {
      hide Digest, Digested, Whole, Rest, Blocks, Output, HighAfter, LowAfter, CountsHigh, CountsLow, PaddedWith;
      var context := new Context.Starts();
      var input := buffer[..Length(bufferlen)];
      if |input| < 0x2000_0000 { ShortCallCounts(0, 0, 0, |input|); }
      context.Update(input);
      assert [] + input == input;
      var digest := context.Finish();
      forall k | 0 <= k < 16 {
        m_data[k] := digest[k];
      }
      assert m_data[..16] == digest;
    }
  }

  /** One call is too long for the carry from 2^29 bytes on: the length field is wrong for
      every message of 2^29 to 2^31 - 1 bytes given at once, and for every negative length. */
  lemma OneCallCountsIff(bufferlen: int)
    requires -0x8000_0000 <= bufferlen < 0x8000_0000
    ensures var len := Length(bufferlen);
            CountsHigh(HighAfter(0, 0, len), len) <==> 0 <= bufferlen < 0x2000_0000
  {
    HighCountsIff(0, 0, 0, Length(bufferlen));
    if bufferlen < 0 { assert Length(bufferlen) == LONG + bufferlen; }
  }
}
