/**
 Time-ordered identifiers: a 48-bit millisecond clock and 80 bits of entropy, written as 26 base-32
 characters. Encoding is reversible, and strings compare as the 128-bit numbers do.
 */
module Ulid {

  type Byte = x: int | 0 <= x < 256 witness 0

  const ALPHABET: string := "0123456789ABCDEFGHJKMNPQRSTVWXYZ"
  const TWO48: int := 0x1_0000_0000_0000
  const TWO59: int := 0x800_0000_0000_0000
  const TWO64: int := 0x1_0000_0000_0000_0000
  const TWO80: int := 0x1_0000_0000_0000_0000_0000
  const TWO128: int := 0x1_0000_0000_0000_0000_0000_0000_0000_0000

  // ---------------------------------------------------------------- numbers

  function Pow32(n: nat): nat {
    if n == 0 then 1 else 32 * Pow32(n - 1)
  }

  function Pow256(n: nat): nat {
    if n == 0 then 1 else 256 * Pow256(n - 1)
  }

  /** The last n base-32 digits of v, most significant first. */
  function Digits(v: nat, n: nat): (r: seq<nat>)
    ensures |r| == n && AreDigits(r)
  {
    if n == 0 then [] else Digits(v / 32, n - 1) + [v % 32]
  }

  predicate AreDigits(digits: seq<nat>) {
    forall i | 0 <= i < |digits| :: digits[i] < 32
  }

  function Value(digits: seq<nat>): nat {
    if digits == [] then 0 else Value(digits[..|digits| - 1]) * 32 + digits[|digits| - 1]
  }

  lemma {:induction false} ValueOfDigits(v: nat, n: nat)
    requires v < Pow32(n)
    ensures Value(Digits(v, n)) == v
  {
    if n > 0 {
      ValueOfDigits(v / 32, n - 1);
    }
  }

  lemma Room()
    ensures TWO128 <= Pow32(26)
  {
    assert Pow32(8) == 0x100_0000_0000;
    assert Pow32(16) == 0x1_0000_0000_0000_0000_0000 by {
      PowSum(8, 8);
    }
    PowSum(16, 8);
    assert Pow32(24) == 0x100_0000_0000 * 0x1_0000_0000_0000_0000_0000;
    assert Pow32(26) == 32 * (32 * Pow32(24));
  }

  lemma {:induction false} PowSum(m: nat, n: nat)
    ensures Pow32(m + n) == Pow32(m) * Pow32(n)
  {
    if n > 0 {
      PowSum(m, n - 1);
      assert Pow32(m) * (32 * Pow32(n - 1)) == 32 * (Pow32(m) * Pow32(n - 1));
    }
  }

  /** The big-endian value of a byte string. */
  function BigEndian(data: seq<Byte>): nat {
    if data == [] then 0 else BigEndian(data[..|data| - 1]) * 256 + data[|data| - 1]
  }

  lemma {:induction false} BigEndianBound(data: seq<Byte>)
    ensures BigEndian(data) < Pow256(|data|)
  {
    if data != [] {
      BigEndianBound(data[..|data| - 1]);
    }
  }

  lemma {:induction false} BigEndianConcat(high: seq<Byte>, low: seq<Byte>)
    ensures BigEndian(high + low) == BigEndian(high) * Pow256(|low|) + BigEndian(low)
  {
    if low == [] {
      assert high + low == high;
    } else {
      var front := low[..|low| - 1];
      BigEndianConcat(high, front);
      assert (high + low)[..|high + low| - 1] == high + front;
      Regroup(BigEndian(high), Pow256(|front|));
    }
  }

  lemma Regroup(x: nat, y: nat)
    ensures x * (256 * y) == (x * y) * 256
  {
  }

  lemma {:induction false} BigEndianInjective(d: seq<Byte>, e: seq<Byte>)
    requires |d| == |e| && BigEndian(d) == BigEndian(e)
    ensures d == e
  {
    if d != [] {
      BigEndianInjective(d[..|d| - 1], e[..|e| - 1]);
      assert d == d[..|d| - 1] + [d[|d| - 1]] && e == e[..|e| - 1] + [e[|e| - 1]];
    }
  }

  lemma SixteenBytes(data: seq<Byte>)
    requires |data| == 16
    ensures BigEndian(data) == BigEndian(data[..8]) * TWO64 + BigEndian(data[8..])
    ensures BigEndian(data[..8]) < TWO64 && BigEndian(data[8..]) < TWO64 && BigEndian(data) < TWO128
  {
    assert Pow256(8) == TWO64;
    BigEndianConcat(data[..8], data[8..]);
    assert data[..8] + data[8..] == data;
    BigEndianBound(data[..8]);
    BigEndianBound(data[8..]);
  }

  // ---------------------------------------------------------------- text

  function Text(digits: seq<nat>): (s: string)
    requires AreDigits(digits)
    ensures |s| == |digits| && forall i | 0 <= i < |s| :: s[i] == ALPHABET[digits[i]]
  {
    seq(|digits|, i requires 0 <= i < |digits| => ALPHABET[digits[i]])
  }

  /** What the encoder writes for a 128-bit number. */
  function Encoded(v: nat): (s: string)
    ensures |s| == 26
  {
    Text(Digits(v, 26))
  }

  /** Go's order on strings. */
  predicate Less(s: string, t: string) {
    t != [] && (s == [] || s[0] < t[0] || (s[0] == t[0] && Less(s[1..], t[1..])))
  }

  lemma {:induction false} LessSnoc(s: string, t: string, a: char, b: char)
    requires |s| == |t|
    ensures Less(s + [a], t + [b]) <==> Less(s, t) || (s == t && a < b)
  {
    var s', t' := s + [a], t + [b];
    if s == [] {
      assert s'[0] == a && t'[0] == b;
    } else {
      assert s'[1..] == s[1..] + [a] && t'[1..] == t[1..] + [b] && s'[0] == s[0] && t'[0] == t[0];
      LessSnoc(s[1..], t[1..], a, b);
      assert s == [s[0]] + s[1..] && t == [t[0]] + t[1..];
    }
  }

  lemma {:induction false} LessAfterPrefix(p: string, s: string, t: string)
    ensures Less(p + s, p + t) <==> Less(s, t)
  {
    if p == [] {
      assert p + s == s && p + t == t;
    } else {
      assert (p + s)[1..] == p[1..] + s && (p + t)[1..] == p[1..] + t;
      LessAfterPrefix(p[1..], s, t);
    }
  }

  /** The alphabet as character codes: runs of digits and letters, ascending. */
  function Code(d: nat): int {
    if d < 10 then 48 + d
    else if d < 18 then 55 + d
    else if d < 20 then 56 + d
    else if d < 22 then 57 + d
    else if d < 27 then 58 + d
    else 59 + d
  }

  lemma AlphabetCode(d: nat)
    requires d < 32
    ensures ALPHABET[d] as int == Code(d)
  {
  }

  /** The ten digits and the capital letters without I, L, O and U: Crockford's alphabet, in order. */
  lemma AlphabetIsCrockford(c: char)
    ensures c in ALPHABET <==> ('0' <= c <= '9' || 'A' <= c <= 'Z') && c !in {'I', 'L', 'O', 'U'}
  {
    if c in ALPHABET {
      var d :| 0 <= d < |ALPHABET| && ALPHABET[d] == c;
      AlphabetCode(d);
    }
    if ('0' <= c <= '9' || 'A' <= c <= 'Z') && c !in {'I', 'L', 'O', 'U'} {
      var d := IndexOf(c);
      AlphabetCode(d);
      assert ALPHABET[d] == c;
    }
  }

  lemma IndexOf(c: char) returns (d: nat)
    requires ('0' <= c <= '9' || 'A' <= c <= 'Z') && c !in {'I', 'L', 'O', 'U'}
    ensures d < 32 && Code(d) == c as int
  {
    d := if c <= '9' then c as int - 48
         else if c <= 'H' then c as int - 55
         else if c <= 'K' then c as int - 56
         else if c <= 'N' then c as int - 57
         else if c <= 'T' then c as int - 58
         else c as int - 59;
  }

  lemma AlphabetAscends(a: nat, b: nat)
    requires a < 32 && b < 32
    ensures ALPHABET[a] < ALPHABET[b] <==> a < b
    ensures ALPHABET[a] == ALPHABET[b] <==> a == b
  {
    AlphabetCode(a);
    AlphabetCode(b);
  }

  lemma TextSnoc(digits: seq<nat>, d: nat)
    requires AreDigits(digits) && d < 32
    ensures AreDigits(digits + [d]) && Text(digits + [d]) == Text(digits) + [ALPHABET[d]]
  {
  }

  /** Fixed-length encodings compare as the numbers do, and differ when the numbers do. */
  lemma {:induction false} DigitsAscend(v: nat, w: nat, n: nat)
    requires v < Pow32(n) && w < Pow32(n)
    ensures Less(Text(Digits(v, n)), Text(Digits(w, n))) <==> v < w
    ensures Text(Digits(v, n)) == Text(Digits(w, n)) <==> v == w
  {
    if n > 0 {
      DigitsAscend(v / 32, w / 32, n - 1);
      var s, t := Text(Digits(v / 32, n - 1)), Text(Digits(w / 32, n - 1));
      TextSnoc(Digits(v / 32, n - 1), v % 32);
      TextSnoc(Digits(w / 32, n - 1), w % 32);
      LessSnoc(s, t, ALPHABET[v % 32], ALPHABET[w % 32]);
      AlphabetAscends(v % 32, w % 32);
      SnocEqual(s, t, ALPHABET[v % 32], ALPHABET[w % 32]);
    }
  }

  lemma SnocEqual(s: string, t: string, a: char, b: char)
    requires |s| == |t|
    ensures s + [a] == t + [b] <==> s == t && a == b
  {
    if s + [a] == t + [b] {
      assert (s + [a])[..|s|] == s && (t + [b])[..|t|] == t && (s + [a])[|s|] == a && (t + [b])[|t|] == b;
    }
  }

  /**
   For all 16-byte values: the strings compare lexicographically exactly as the numbers, and are equal only
   for equal bytes.
   */
  lemma EncodingIsOrderPreserving(d: seq<Byte>, e: seq<Byte>)
    requires |d| == |e| == 16
    ensures Less(Encoded(BigEndian(d)), Encoded(BigEndian(e))) <==> BigEndian(d) < BigEndian(e)
    ensures Encoded(BigEndian(d)) == Encoded(BigEndian(e)) <==> d == e
  {
    SixteenBytes(d);
    SixteenBytes(e);
    Room();
    DigitsAscend(BigEndian(d), BigEndian(e), 26);
    if BigEndian(d) == BigEndian(e) {
      BigEndianInjective(d, e);
    }
  }

  // ---------------------------------------------------------------- decoding

  function Index(c: char): (i: int)
    ensures i >= 0 ==> i < 32 && ALPHABET[i] == c
  {
    if exists i | 0 <= i < 32 :: ALPHABET[i] == c then
      AlphabetIsInjective();
      var i :| 0 <= i < 32 && ALPHABET[i] == c; i
    else -1
  }

  lemma AlphabetIsInjective()
    ensures forall i, j | 0 <= i < 32 && 0 <= j < 32 && ALPHABET[i] == ALPHABET[j] :: i == j
  {
    forall i, j | 0 <= i < 32 && 0 <= j < 32 && ALPHABET[i] == ALPHABET[j] ensures i == j {
      AlphabetAscends(i, j);
    }
  }

  /** Reading the digits back; characters outside the alphabet count as zero. */
  function Decoded(s: string): nat {
    Value(seq(|s|, i requires 0 <= i < |s| => if Index(s[i]) >= 0 then Index(s[i]) else 0))
  }

  lemma RoundTrip(data: seq<Byte>)
    requires |data| == 16
    ensures Decoded(Encoded(BigEndian(data))) == BigEndian(data)
  {
    var v := BigEndian(data);
    var digits, s := Digits(v, 26), Encoded(v);
    SixteenBytes(data);
    Room();
    ValueOfDigits(v, 26);
    forall i | 0 <= i < 26 ensures Index(s[i]) == digits[i] {
      assert s[i] == ALPHABET[digits[i]];
      AlphabetIsInjective();
    }
    assert seq(|s|, i requires 0 <= i < |s| => if Index(s[i]) >= 0 then Index(s[i]) else 0) == digits;
  }

  // ---------------------------------------------------------------- the encoder

  /** Five bits out of the low word, five bits over from the high one. */
  lemma ShiftPair(hi: nat, lo: nat)
    requires hi < TWO64 && lo < TWO64
    ensures var lo', hi' := lo / 32 + (hi % 32) * TWO59, hi / 32;
            lo' < TWO64 && hi' < TWO64 && hi' * TWO64 + lo' == (hi * TWO64 + lo) / 32
    ensures lo % 32 == (hi * TWO64 + lo) % 32
  {
    var lo', hi' := lo / 32 + (hi % 32) * TWO59, hi / 32;
    assert hi * TWO64 + lo == 32 * (hi' * TWO64 + lo') + lo % 32;
  }

  // ---------------------------------------------------------------- the same, bit by bit

  /** Bit i of a machine word, from the least significant one. */
  function Bit(x: nat, i: nat): (b: nat)
    ensures b <= 1
  {
    if i == 0 then x % 2 else Bit(x / 2, i - 1)
  }

  function Pow2(n: nat): (p: nat)
    ensures p > 0
  {
    if n == 0 then 1 else 2 * Pow2(n - 1)
  }

  /** The low bits of a word put below another. */
  lemma {:induction false} BitsBelow(a: nat, b: nat, n: nat, i: nat)
    requires i < n
    ensures Bit(a + b * Pow2(n), i) == Bit(a, i)
  {
    Halved(a, b, n);
    if i > 0 {
      BitsBelow(a / 2, b, n - 1, i - 1);
    }
  }

  lemma {:induction false} BitsAbove(a: nat, b: nat, n: nat, i: nat)
    requires a < Pow2(n)
    ensures Bit(a + b * Pow2(n), n + i) == Bit(b, i)
  {
    if n > 0 {
      Halved(a, b, n);
      BitsAbove(a / 2, b, n - 1, i);
    }
  }

  lemma Halved(a: nat, b: nat, n: nat)
    requires n > 0
    ensures (a + b * Pow2(n)) % 2 == a % 2 && (a + b * Pow2(n)) / 2 == a / 2 + b * Pow2(n - 1)
  {
    var half := b * Pow2(n - 1);
    assert b * Pow2(n) == 2 * half;
  }

  lemma ShiftedRight(x: nat, i: nat)
    ensures Bit(x / 32, i) == Bit(x, i + 5)
  {
    assert Bit(x, i + 5) == Bit(x / 2, i + 4) && Bit(x / 2, i + 4) == Bit(x / 4, i + 3);
    assert Bit(x / 4, i + 3) == Bit(x / 8, i + 2) && Bit(x / 8, i + 2) == Bit(x / 16, i + 1);
  }

  lemma Masked(x: nat, i: nat)
    requires i < 5
    ensures Bit(x % 32, i) == Bit(x, i)
  {
    assert Pow2(5) == 32;
    assert x == x % 32 + (x / 32) * 32;
    BitsBelow(x % 32, x / 32, 5, i);
  }

  lemma Pow59()
    ensures Pow2(59) == TWO59
  {
    assert Pow2(8) == 0x100 && Pow2(16) == 0x100 * Pow2(8) && Pow2(24) == 0x100 * Pow2(16)
           && Pow2(32) == 0x100 * Pow2(24);
    assert Pow2(40) == 0x100 * Pow2(32) && Pow2(48) == 0x100 * Pow2(40) && Pow2(56) == 0x100 * Pow2(48)
           && Pow2(59) == 8 * Pow2(56);
  }

  /** The pair of words moved five places down: every bit comes from the one five above it. */
  ghost predicate ShiftedPair(hi: nat, lo: nat, hi': nat, lo': nat) {
    && (forall i | 0 <= i < 59 :: Bit(lo', i) == Bit(lo, i + 5))
    && (forall i | 0 <= i < 5 :: Bit(lo', 59 + i) == Bit(hi, i))
    && (forall i: nat :: Bit(hi', i) == Bit(hi, i + 5))
  }

  /** Division and addition do what the shifts, the mask and the `or` do. */
  lemma ShiftsAreDivisions(hi: nat, lo: nat)
    requires lo < TWO64
    ensures ShiftedPair(hi, lo, hi / 32, lo / 32 + (hi % 32) * TWO59)
  {
    Pow59();
    var lo' := lo / 32 + (hi % 32) * TWO59;
    forall i | 0 <= i < 59 ensures Bit(lo', i) == Bit(lo, i + 5) {
      BitsBelow(lo / 32, hi % 32, 59, i);
      ShiftedRight(lo, i);
    }
    forall i | 0 <= i < 5 ensures Bit(lo', 59 + i) == Bit(hi, i) {
      BitsAbove(lo / 32, hi % 32, 59, i);
      Masked(hi, i);
    }
    forall i: nat ensures Bit(hi / 32, i) == Bit(hi, i + 5) {
      ShiftedRight(hi, i);
    }
  }

  /** What remains to be written of `goal`, from the front, is what the two words still hold. */
  ghost predicate Pending(goal: string, i: nat, hi: nat, lo: nat) {
    i <= |goal| && hi < TWO64 && lo < TWO64 && goal[..i] == Text(Digits(hi * TWO64 + lo, i))
  }

  method ShiftOut(hi: nat, lo: nat, ghost goal: string, ghost i: nat) returns (c: char, hi': nat, lo': nat)
    requires Pending(goal, i + 1, hi, lo)
    ensures Pending(goal, i, hi', lo') && c == goal[i]
    ensures ShiftedPair(hi, lo, hi', lo')
  {
    ShiftPair(hi, lo);
    ShiftsAreDivisions(hi, lo);
    TextSnoc(Digits((hi * TWO64 + lo) / 32, i), (hi * TWO64 + lo) % 32);
    c := ALPHABET[lo % 32];
    lo' := lo / 32 + (hi % 32) * TWO59;
    hi' := hi / 32;
    assert goal[i] == goal[..i + 1][i] && goal[..i] == goal[..i + 1][..i];
  }

  /** The loop that fills the output from its last character to its first. */
  method WriteDigits(high: nat, low: nat, length: nat) returns (s: string)
    requires high < TWO64 && low < TWO64
    ensures s == Text(Digits(high * TWO64 + low, length))
  {
    var hi, lo := high, low;
    var out := new char[length];
    ghost var goal := Text(Digits(high * TWO64 + low, length));
    assert goal[..length] == goal;
    for i := length downto 0
      invariant Pending(goal, i, hi, lo)
      invariant forall k | i <= k < length :: out[k] == goal[k]
    {
      var c;
      c, hi, lo := ShiftOut(hi, lo, goal, i);
      out[i] := c;
    }
    s := out[..];
  }

  method EncodeCrockford128(data: seq<Byte>) returns (s: string)
    requires |data| == 16
    ensures s == Encoded(BigEndian(data))
  {
    SixteenBytes(data);
    s := WriteDigits(BigEndian(data[..8]), BigEndian(data[8..]), 26);
  }

  // ---------------------------------------------------------------- clock and entropy

  /** The number an identifier stands for: the clock's low 48 bits above the entropy. */
  function Stamp(ms: int, entropy: nat): nat {
    ms % TWO48 * TWO80 + entropy
  }

  lemma MulLe(a: nat, b: nat, k: nat)
    ensures a <= b ==> a * k <= b * k
  {
  }

  lemma RemainderIs(x: nat, k: nat, q: nat, r: nat)
    requires r < k && x == q * k + r
    ensures x % k == r
  {
    assert x == (x / k) * k + x % k;
    MulLe(x / k + 1, q, k);
    MulLe(q + 1, x / k, k);
  }

  lemma Distribute(a: nat, b: nat, m: nat)
    ensures (256 * a + b) * m == a * (256 * m) + b * m
  {
  }

  /** The byte above the low m splits off. */
  lemma OneByteUp(ms: nat, m: nat)
    requires m > 0
    ensures ms % (256 * m) == ms / m % 256 * m + ms % m
  {
    var q, r := ms / m, ms % m;
    var a, b := q / 256, q % 256;
    Distribute(a, b, m);
    MulLe(b, 255, m);
    RemainderIs(ms, 256 * m, a, b * m + r);
  }

  lemma SixBytes(a: Byte, b: Byte, c: Byte, d: Byte, e: Byte, f: Byte)
    ensures BigEndian([a, b, c, d, e, f])
            == a * 0x100_0000_0000 + b * 0x1_0000_0000 + c * 0x100_0000 + d * 0x1_0000 + e * 0x100 + f
  {
    ThreeBytes(a, b, c);
    ThreeBytes(d, e, f);
    assert Pow256(3) == 0x100_0000;
    BigEndianConcat([a, b, c], [d, e, f]);
    assert [a, b, c] + [d, e, f] == [a, b, c, d, e, f];
  }

  lemma ThreeBytes(a: Byte, b: Byte, c: Byte)
    ensures BigEndian([a, b, c]) == a * 0x1_0000 + b * 0x100 + c
  {
    assert [a, b, c][..2] == [a, b] && [a, b][..1] == [a] && [a][..0] == [];
    assert BigEndian([a]) == a && BigEndian([a, b]) == a * 0x100 + b;
  }

  lemma LowBits(ms: int)
    ensures ms % TWO64 % TWO48 == ms % TWO48
  {
  }

  /** `ms` is the clock's signed count of milliseconds, taken modulo 2^64 by the conversion to an unsigned word. */
  method EncodeTimeEntropy(ms: int, entropy: seq<Byte>) returns (s: string)
    requires |entropy| == 10
    ensures s == Encoded(Stamp(ms, BigEndian(entropy)))
  {
    var u: nat := ms % TWO64;
    var data := new Byte[16](_ => 0);
    data[0] := u / 0x100_0000_0000 % 256;
    data[1] := u / 0x1_0000_0000 % 256;
    data[2] := u / 0x100_0000 % 256;
    data[3] := u / 0x1_0000 % 256;
    data[4] := u / 0x100 % 256;
    data[5] := u % 256;
    StampedBytes(ms, u, data[..6], entropy);
    ghost var clock := data[..6];
    forall i | 0 <= i < 10 {
      data[6 + i] := entropy[i];
    }
    assert data[..] == clock + entropy;
    s := EncodeCrockford128(data[..]);
  }

  lemma StampedBytes(ms: int, u: nat, clock: seq<Byte>, entropy: seq<Byte>)
    requires u == ms % TWO64 && |entropy| == 10
    requires clock == [u / 0x100_0000_0000 % 256, u / 0x1_0000_0000 % 256, u / 0x100_0000 % 256, u / 0x1_0000 % 256,
             u / 0x100 % 256, u % 256]
    ensures BigEndian(clock + entropy) == Stamp(ms, BigEndian(entropy))
  {
    SixBytes(clock[0], clock[1], clock[2], clock[3], clock[4], clock[5]);
    OneByteUp(u, 0x100);
    OneByteUp(u, 0x1_0000);
    OneByteUp(u, 0x100_0000);
    OneByteUp(u, 0x1_0000_0000);
    OneByteUp(u, 0x100_0000_0000);
    LowBits(ms);
    assert Pow256(10) == TWO80;
    BigEndianConcat(clock, entropy);
  }

  lemma StampBound(ms: int, entropy: seq<Byte>)
    requires |entropy| == 10
    ensures BigEndian(entropy) < TWO80 && Stamp(ms, BigEndian(entropy)) < TWO128 <= Pow32(26)
  {
    assert Pow256(10) == TWO80;
    BigEndianBound(entropy);
    Room();
  }

  function Id(prefix: string, ms: int, entropy: seq<Byte>): string {
    prefix + "_" + Encoded(Stamp(ms, BigEndian(entropy)))
  }

  /** Two ids with one prefix compare by the clock's low 48 bits, then by entropy. */
  lemma IdOrder(prefix: string, ms: int, entropy: seq<Byte>, ms': int, entropy': seq<Byte>)
    requires |entropy| == |entropy'| == 10
    ensures Less(Id(prefix, ms, entropy), Id(prefix, ms', entropy'))
            <==> ms % TWO48 < ms' % TWO48 || (ms % TWO48 == ms' % TWO48 && BigEndian(entropy) < BigEndian(entropy'))
  {
    var v, w := Stamp(ms, BigEndian(entropy)), Stamp(ms', BigEndian(entropy'));
    StampBound(ms, entropy);
    StampBound(ms', entropy');
    DigitsAscend(v, w, 26);
    LessAfterPrefix(prefix + "_", Encoded(v), Encoded(w));
  }

  /** Below 2^48 milliseconds, ids with one prefix sort by time whatever the entropy. */
  lemma IdsSortByTime(prefix: string, ms: int, entropy: seq<Byte>, ms': int, entropy': seq<Byte>)
    requires |entropy| == |entropy'| == 10 && 0 <= ms < ms' < TWO48
    ensures Less(Id(prefix, ms, entropy), Id(prefix, ms', entropy'))
  {
    IdOrder(prefix, ms, entropy, ms', entropy');
  }

  /** At 2^48 milliseconds the clock starts over: that id sorts before the one of the first millisecond. */
  lemma ClockStartsOver(prefix: string, entropy: seq<Byte>)
    requires |entropy| == 10
    ensures Less(Id(prefix, TWO48, entropy), Id(prefix, 1, entropy))
  {
    IdOrder(prefix, TWO48, entropy, 1, entropy);
  }
}
