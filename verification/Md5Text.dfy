/** Digests as text: MD5::ToString, and the constructor that reads such a text back. */
module Md5Text {

  const HEX := "0123456789abcdef"

  predicate IsHex(c: char) {
    '0' <= c <= '9' || 'a' <= c <= 'f'
  }

  function Value(c: char): (v: nat)
    requires IsHex(c)
    ensures v < 16 && HEX[v] == c
  {
    if c <= '9' then c as nat - '0' as nat else c as nat - 'a' as nat + 10
  }

  predicate Bytes(data: seq<nat>) {
    forall k | 0 <= k < |data| :: data[k] < 0x100
  }

  /** "%02x". */
  function Print(b: nat): string
    requires b < 0x100
  {
    [HEX[b / 16], HEX[b % 16]]
  }

  /** text is data, printed: two digits for each byte. */
  predicate Prints(data: seq<nat>, text: string)
    requires Bytes(data)
  {
    |text| == 2 * |data| && forall j | 0 <= j < |data| :: text[2 * j..2 * j + 2] == Print(data[j])
  }

  /** MD5::ToString. */
  method ToString(data: seq<nat>) returns (text: string)
    requires Bytes(data)
    ensures Prints(data, text)
  {
    text := "";
    for j := 0 to |data|
      invariant |text| == 2 * j
      invariant forall i | 0 <= i < j :: text[2 * i..2 * i + 2] == Print(data[i])
    {
      text := text + Print(data[j]);
    }
  }

  /** The hex digits at the start of a string, read as a number. */
  function Leading(s: string): string {
    if s == "" || !IsHex(s[0]) then "" else [s[0]] + Leading(s[1..])
  }

  function Number(digits: string): nat
    requires forall k | 0 <= k < |digits| :: IsHex(digits[k])
  {
    if digits == "" then 0 else 16 * Number(digits[..|digits| - 1]) + Value(digits[|digits| - 1])
  }

  lemma LeadingIsHex(s: string)
    ensures forall k | 0 <= k < |Leading(s)| :: IsHex(Leading(s)[k])
    ensures Leading(s) <= s && (|Leading(s)| < |s| ==> !IsHex(s[|Leading(s)|]))
  {
  }

  function AfterPrefix(value: string): string {
    if |value| >= 2 && value[0] == '0' && value[1] == 'X' then value[2..] else value
  }

  lemma PrefixIs(value: string)
    ensures value[..if |value| < 2 then 0 else 2] != "0X" ==> AfterPrefix(value) == value
    ensures |value| >= 2 && value[..2] == "0X" ==> AfterPrefix(value) == value[2..]
  {
    if |value| >= 2 {
      assert value[..2] == [value[0], value[1]];
    }
  }

  lemma Shift32(a: nat, k: nat)
    ensures (a + 0x1_0000_0000 * k) % 0x1_0000_0000 == a % 0x1_0000_0000
  {
  }

  lemma Shift8(a: nat, k: nat)
    requires a < 0x100
    ensures (a + 0x100 * k) % 0x100 == a
  {
  }

  /** One more digit, kept to 32 bits. */
  lemma NextDigit(d: string, n: nat, r: nat)
    requires n < |d| && (forall k | 0 <= k < |d| :: IsHex(d[k]))
    requires r == Number(d[..n]) % 0x1_0000_0000
    ensures (16 * r + Value(d[n])) % 0x1_0000_0000 == Number(d[..n + 1]) % 0x1_0000_0000
  {
    assert d[..n + 1][..n] == d[..n];
    var m := Number(d[..n]);
    assert 16 * m + Value(d[n]) == 16 * r + Value(d[n]) + 0x1_0000_0000 * (16 * (m / 0x1_0000_0000));
    Shift32(16 * r + Value(d[n]), 16 * (m / 0x1_0000_0000));
  }

  /** _httoi on the characters before the terminator: it stops at the first that is no
      lower-case hex digit. The int it returns keeps the low 32 bits. */
  method Httoi(value: string) returns (result: nat)
    ensures forall k | 0 <= k < |Leading(AfterPrefix(value))| :: IsHex(Leading(AfterPrefix(value))[k])
    ensures result == Number(Leading(AfterPrefix(value))) % 0x1_0000_0000
    ensures value[..if |value| < 2 then 0 else 2] != "0X" ==> AfterPrefix(value) == value
    ensures |value| >= 2 && value[..2] == "0X" ==> AfterPrefix(value) == value[2..]
  {
    PrefixIs(value);
    hide Number, IsHex, AfterPrefix;
    var s := AfterPrefix(value);
    ghost var d := Leading(s);
    LeadingIsHex(s);
    result := 0;
    ghost var n := 0;
    NumberNone();
    while s != "" && IsHex(s[0])
      invariant n <= |d| && Leading(s) == d[n..]
      invariant result == Number(d[..n]) % 0x1_0000_0000
      decreases |s|
    {
      assert d[n] == s[0];
      NextDigit(d, n, result);
      result := (16 * result + Value(s[0])) % 0x1_0000_0000;
      s := s[1..];
      n := n + 1;
    }
    assert d[..n] == d;
  }

  lemma NumberNone()
    ensures Number("") == 0
  {
  }

  /** What the constructor stores for a byte printed as text, when junk follows the two
      characters in its buffer. */
  function Stored(text: string, junk: string): nat
    requires |text| == 2
  {
    LeadingIsHex(AfterPrefix(text + junk));
    Number(Leading(AfterPrefix(text + junk))) % 0x100
  }

  lemma ByteOfInt(n: nat)
    ensures n % 0x1_0000_0000 % 0x100 == n % 0x100
  {
    assert n == n % 0x1_0000_0000 + 0x100 * (0x100_0000 * (n / 0x1_0000_0000));
  }

  /** The terminator of a C string. */
  const NUL := '\0'

  /** memory is what the caller may read from the argument on. The constructor looks for a
      terminator only at the very beginning and within a pair, so of a short text it reads
      what lies behind it. */
  predicate Readable(memory: string) {
    memory != "" && (memory[0] == NUL || |memory| >= 32 || (|memory| == 31 && memory[30] == NUL))
  }

  /** strncpy(buf, md5src, 2) for byte j. */
  function Pair(memory: string, j: nat): (pair: string)
    requires Readable(memory) && memory[0] != NUL && j < 16
    ensures |pair| == 2
  {
    if memory[2 * j] == NUL then [NUL, NUL] else memory[2 * j..2 * j + 2]
  }

  /** The constructor from text: the empty text gives zeros; otherwise each byte is read
      from a buffer of its own that holds two characters of the text and whatever was there
      before, since no terminator is written. */
  method FromText(memory: string, junk: seq<string>) returns (data: seq<nat>)
    requires Readable(memory) && |junk| == 16
    ensures |data| == 16 && Bytes(data)
    ensures memory[0] == NUL ==> forall j | 0 <= j < 16 :: data[j] == 0
    ensures memory[0] != NUL ==> forall j | 0 <= j < 16 :: data[j] == Stored(Pair(memory, j), junk[j])
  {
    hide Leading, AfterPrefix, Number, IsHex;
    if memory[0] == NUL {
      return seq(16, _ => 0);
    }
    data := [];
    for j := 0 to 16
      invariant |data| == j && Bytes(data)
      invariant forall i | 0 <= i < j :: data[i] == Stored(Pair(memory, i), junk[i])
    {
      var buf := Pair(memory, j) + junk[j];
      var value := Httoi(buf);
      ByteOfInt(Number(Leading(AfterPrefix(buf))));
      data := data + [value % 0x100];
    }
  }

  lemma LeadingOfDigits(d: string, junk: string)
    requires forall k | 0 <= k < |d| :: IsHex(d[k])
    ensures Leading(d + junk) == d + Leading(junk)
  {
    if d == "" {
      assert d + junk == junk;
    } else {
      LeadingOfDigits(d[1..], junk);
      assert (d + junk)[1..] == d[1..] + junk;
    }
  }

  lemma PrintedIsHex(b: nat)
    requires b < 0x100
    ensures forall k | 0 <= k < 2 :: IsHex(Print(b)[k])
    ensures Value(Print(b)[0]) == b / 16 && Value(Print(b)[1]) == b % 16
  {
  }

  /** Only the last two digits decide the low byte. */
  lemma LowByte(d: string)
    requires |d| >= 2 && forall k | 0 <= k < |d| :: IsHex(d[k])
    ensures Number(d) % 0x100 == 16 * Value(d[|d| - 2]) + Value(d[|d| - 1])
  {
    var n := |d|;
    assert d[..n - 1][..n - 2] == d[..n - 2];
    NumberLast(d);
    NumberLast(d[..n - 1]);
    assert d[..n - 1][n - 2] == d[n - 2];
    hide Number, IsHex, Value;
    Shift8(16 * Value(d[n - 2]) + Value(d[n - 1]), Number(d[..n - 2]));
  }

  lemma NumberLast(d: string)
    requires |d| >= 1 && forall k | 0 <= k < |d| :: IsHex(d[k])
    ensures Number(d) == 16 * Number(d[..|d| - 1]) + Value(d[|d| - 1])
  {
  }

  /** The byte stored for a printed byte: the last two hex digits of print and junk. */
  lemma StoredIs(b: nat, junk: string)
    requires b < 0x100
    ensures var d := Print(b) + Leading(junk);
            && (forall k | 0 <= k < |d| :: IsHex(d[k]))
            && Stored(Print(b), junk) == 16 * Value(d[|d| - 2]) + Value(d[|d| - 1])
  {
    PrintedIsHex(b);
    LeadingIsHex(junk);
    LeadingOfDigits(Print(b), junk);
    assert AfterPrefix(Print(b) + junk) == Print(b) + junk by {
      assert (Print(b) + junk)[1] == Print(b)[1];
    }
    LowByte(Print(b) + Leading(junk));
  }

  /** What lies behind the two characters in a buffer does not begin with a hex digit. */
  predicate Ends(junk: string) {
    junk == "" || !IsHex(junk[0])
  }

  /** The constructor from text gives back every printed digest exactly if none of its 16
      buffers goes on with a hex digit. */
  lemma RestoresIff(junk: seq<string>)
    requires |junk| == 16
    ensures (forall data: seq<nat> | |data| == 16 && Bytes(data) :: Restores(data, junk))
            <==> (forall j | 0 <= j < 16 :: Ends(junk[j]))
  {
    if forall j | 0 <= j < 16 :: Ends(junk[j]) {
      forall data: seq<nat> | |data| == 16 && Bytes(data) ensures Restores(data, junk) {
        forall j | 0 <= j < 16 ensures Stored(Print(data[j]), junk[j]) == data[j] {
          Restored(data[j], junk[j]);
        }
      }
    } else {
      var j :| 0 <= j < 16 && !Ends(junk[j]);
      Spoiled(junk[j]);
      var zeros, ones := seq(16, _ => 0), seq(16, _ => 1);
      assert zeros[j] == 0 && ones[j] == 1;
      assert !Restores(zeros, junk) || !Restores(ones, junk);
    }
  }

  /** Every byte of data comes back from its printed form. */
  predicate Restores(data: seq<nat>, junk: seq<string>)
    requires |data| == |junk| == 16 && Bytes(data)
  {
    forall j | 0 <= j < 16 :: Stored(Print(data[j]), junk[j]) == data[j]
  }

  lemma Restored(b: nat, junk: string)
    requires b < 0x100 && Ends(junk)
    ensures Stored(Print(b), junk) == b
  {
    StoredIs(b, junk);
    PrintedIsHex(b);
    assert Print(b) + Leading(junk) == Print(b);
  }

  /** One more digit pushes the first digit of the printed byte out. */
  lemma StoredWithOne(b: nat, junk: string)
    requires b < 0x100 && |Leading(junk)| == 1
    ensures Stored(Print(b), junk) >= 16 * (b % 16)
  {
    StoredIs(b, junk);
    PrintedIsHex(b);
    var d := Print(b) + Leading(junk);
    assert d[|d| - 2] == Print(b)[1];
  }

  /** Two or more push both out. */
  lemma StoredWithMore(b: nat, junk: string)
    requires b < 0x100 && |Leading(junk)| >= 2
    ensures var l := Leading(junk);
            IsHex(l[|l| - 2]) && IsHex(l[|l| - 1]) &&
            Stored(Print(b), junk) == 16 * Value(l[|l| - 2]) + Value(l[|l| - 1])
  {
    hide Stored, Leading, IsHex, Value;
    StoredIs(b, junk);
    LeadingIsHex(junk);
    var d := Print(b) + Leading(junk);
    assert d[|d| - 2] == Leading(junk)[|Leading(junk)| - 2];
    assert d[|d| - 1] == Leading(junk)[|Leading(junk)| - 1];
  }

  lemma Spoiled(junk: string)
    requires !Ends(junk)
    ensures Stored(Print(0), junk) != 0 || Stored(Print(1), junk) != 1
  {
    assert |Leading(junk)| >= 1;
    hide Stored, Leading, IsHex, Print;
    if |Leading(junk)| == 1 {
      StoredWithOne(1, junk);
    } else {
      StoredWithMore(0, junk);
      StoredWithMore(1, junk);
    }
  }

  lemma PrintInjective(a: nat, b: nat)
    requires a < 0x100 && b < 0x100 && Print(a) == Print(b)
    ensures a == b
  {
    PrintedIsHex(a);
    PrintedIsHex(b);
  }

  /** Digests print differently unless they are the same. */
  lemma PrintsApart(a: seq<nat>, b: seq<nat>, text: string)
    requires Bytes(a) && Bytes(b) && Prints(a, text) && Prints(b, text)
    ensures a == b
  {
    forall j | 0 <= j < |a| ensures a[j] == b[j] {
      assert Print(a[j]) == text[2 * j..2 * j + 2] == Print(b[j]);
      PrintInjective(a[j], b[j]);
    }
  }

  /** A printed digest has no terminator in it. */
  lemma PrintedPair(data: seq<nat>, text: string, after: string, j: nat)
    requires Bytes(data) && |data| == 16 && Prints(data, text) && j < 16
    ensures Readable(text + after) && text[0] != NUL && Pair(text + after, j) == Print(data[j])
  {
    var memory := text + after;
    assert text[0..2] == Print(data[0]) && text[0] == text[0..2][0];
    PrintedIsHex(data[0]);
    assert memory[2 * j..2 * j + 2] == text[2 * j..2 * j + 2] == Print(data[j]);
    assert memory[2 * j] == memory[2 * j..2 * j + 2][0];
    PrintedIsHex(data[j]);
  }

  /** Printing and reading back, under the condition that makes reading back work, whatever
      lies in memory after the text and its terminator. */
  method RoundTrip(data: seq<nat>, after: string, junk: seq<string>) returns (back: seq<nat>)
    requires |data| == 16 && Bytes(data)
    requires |junk| == 16 && forall j | 0 <= j < 16 :: Ends(junk[j])
    ensures back == data
  {
    var text := ToString(data);
    PrintedPair(data, text, [NUL] + after, 0);
    back := FromText(text + ([NUL] + after), junk);
    forall j | 0 <= j < 16 ensures back[j] == data[j] {
      PrintedPair(data, text, [NUL] + after, j);
      Restored(data[j], junk[j]);
    }
  }
}
