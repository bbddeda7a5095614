/**
 SHA-256: the functional specification of FIPS 180-4 (sections 4.1.2, 5.1.1, 5.2.1, 5.3.3 and 6.2.2),
 the byte-and-loop implementation that refines it, and the structure of its three layers: padding can be
 undone, the message schedule can be rewound, and the rounds permute the working variables.
 */
module Sha256 {

  newtype byte = x: int | 0 <= x < 256
  type Word = bv32
  type uint32 = x: int | 0 <= x < 0x1_0000_0000

  // The eight working variables, or a hash value H0..H7.
  datatype Vars = Vars(a: Word, b: Word, c: Word, d: Word, e: Word, f: Word, g: Word, h: Word)

  function RoundConstant(i: nat): uint32
    requires i < 64
  {
    match i
    case 0 => 0x428a2f98 case 1 => 0x71374491 case 2 => 0xb5c0fbcf case 3 => 0xe9b5dba5
    case 4 => 0x3956c25b case 5 => 0x59f111f1 case 6 => 0x923f82a4 case 7 => 0xab1c5ed5
    case 8 => 0xd807aa98 case 9 => 0x12835b01 case 10 => 0x243185be case 11 => 0x550c7dc3
    case 12 => 0x72be5d74 case 13 => 0x80deb1fe case 14 => 0x9bdc06a7 case 15 => 0xc19bf174
    case 16 => 0xe49b69c1 case 17 => 0xefbe4786 case 18 => 0x0fc19dc6 case 19 => 0x240ca1cc
    case 20 => 0x2de92c6f case 21 => 0x4a7484aa case 22 => 0x5cb0a9dc case 23 => 0x76f988da
    case 24 => 0x983e5152 case 25 => 0xa831c66d case 26 => 0xb00327c8 case 27 => 0xbf597fc7
    case 28 => 0xc6e00bf3 case 29 => 0xd5a79147 case 30 => 0x06ca6351 case 31 => 0x14292967
    case 32 => 0x27b70a85 case 33 => 0x2e1b2138 case 34 => 0x4d2c6dfc case 35 => 0x53380d13
    case 36 => 0x650a7354 case 37 => 0x766a0abb case 38 => 0x81c2c92e case 39 => 0x92722c85
    case 40 => 0xa2bfe8a1 case 41 => 0xa81a664b case 42 => 0xc24b8b70 case 43 => 0xc76c51a3
    case 44 => 0xd192e819 case 45 => 0xd6990624 case 46 => 0xf40e3585 case 47 => 0x106aa070
    case 48 => 0x19a4c116 case 49 => 0x1e376c08 case 50 => 0x2748774c case 51 => 0x34b0bcb5
    case 52 => 0x391c0cb3 case 53 => 0x4ed8aa4a case 54 => 0x5b9cca4f case 55 => 0x682e6ff3
    case 56 => 0x748f82ee case 57 => 0x78a5636f case 58 => 0x84c87814 case 59 => 0x8cc70208
    case 60 => 0x90befffa case 61 => 0xa4506ceb case 62 => 0xbef9a3f7 case _ => 0xc67178f2
  }

  function InitialWord(i: nat): uint32
    requires i < 8
  {
    match i
    case 0 => 0x6a09e667 case 1 => 0xbb67ae85 case 2 => 0x3c6ef372 case 3 => 0xa54ff53a
    case 4 => 0x510e527f case 5 => 0x9b05688c case 6 => 0x1f83d9ab case _ => 0x5be0cd19
  }

  function K(i: nat): Word
    requires i < 64
  {
    RoundConstant(i) as Word
  }

  function H(i: nat): Word
    requires i < 8
  {
    InitialWord(i) as Word
  }

  function InitialHash(): Vars { Vars(H(0), H(1), H(2), H(3), H(4), H(5), H(6), H(7)) }

  // ---------------------------------------------------------------- functions of section 4.1.2

  function Ch(x: Word, y: Word, z: Word): Word { (x & y) ^ (!x & z) }
  function Maj(x: Word, y: Word, z: Word): Word { (x & y) ^ (x & z) ^ (y & z) }
  function Xor(x: Word, y: Word, z: Word): Word { x ^ y ^ z }
  function BigSigma0(x: Word): Word { Xor(x.RotateRight(2), x.RotateRight(13), x.RotateRight(22)) }
  function BigSigma1(x: Word): Word { Xor(x.RotateRight(6), x.RotateRight(11), x.RotateRight(25)) }
  function SmallSigma0(x: Word): Word { Xor(x.RotateRight(7), x.RotateRight(18), x >> 3) }
  function SmallSigma1(x: Word): Word { Xor(x.RotateRight(17), x.RotateRight(19), x >> 10) }

  // Sums of words, modulo 2^32, and what takes them apart.
  function Plus(x: Word, y: Word): Word { x + y }
  function Minus(x: Word, y: Word): Word { x - y }
  function Sum5(h: Word, s: Word, c: Word, k: Word, w: Word): Word { h + s + c + k + w }
  function First5(sum: Word, s: Word, c: Word, k: Word, w: Word): Word { sum - w - k - c - s }
  function Sum4(w16: Word, s0: Word, w7: Word, s1: Word): Word { w16 + s0 + w7 + s1 }
  function First4(sum: Word, s0: Word, w7: Word, s1: Word): Word { sum - s1 - w7 - s0 }

  lemma PlusUndone(x: Word, y: Word)
    ensures Minus(Plus(x, y), y) == x
  {
    assert Minus(x + y, y) == x;
  }

  lemma MinusUndone(x: Word, y: Word)
    ensures Plus(Minus(x, y), y) == x
  {
    assert Plus(x - y, y) == x;
  }

  lemma Sum5Undone(h: Word, s: Word, c: Word, k: Word, w: Word)
    ensures First5(Sum5(h, s, c, k, w), s, c, k, w) == h
  {
    assert First5(h + s + c + k + w, s, c, k, w) == h;
  }

  lemma First5Undone(sum: Word, s: Word, c: Word, k: Word, w: Word)
    ensures Sum5(First5(sum, s, c, k, w), s, c, k, w) == sum
  {
    assert Sum5(sum - w - k - c - s, s, c, k, w) == sum;
  }

  lemma Sum4Undone(w16: Word, s0: Word, w7: Word, s1: Word)
    ensures First4(Sum4(w16, s0, w7, s1), s0, w7, s1) == w16
  {
    assert First4(w16 + s0 + w7 + s1, s0, w7, s1) == w16;
  }

  // The implementation's rotation, by two shifts.
  function Rotr32(x: Word, n: Word): Word
    requires 0 < n < 32
  {
    (x >> n) | (x << (32 - n))
  }

  /** The shift form is the rotation, at every amount the four mixing functions use. */
  lemma ShiftsBig0(x: Word)
    ensures Xor(Rotr32(x, 2), Rotr32(x, 13), Rotr32(x, 22)) == BigSigma0(x)
  {
    assert Rotr32(x, 2) == x.RotateRight(2) && Rotr32(x, 13) == x.RotateRight(13) && Rotr32(x, 22) == x.RotateRight(22);
  }

  lemma ShiftsBig1(x: Word)
    ensures Xor(Rotr32(x, 6), Rotr32(x, 11), Rotr32(x, 25)) == BigSigma1(x)
  {
    assert Rotr32(x, 6) == x.RotateRight(6) && Rotr32(x, 11) == x.RotateRight(11) && Rotr32(x, 25) == x.RotateRight(25);
  }

  lemma ShiftsSmall0(x: Word)
    ensures Xor(Rotr32(x, 7), Rotr32(x, 18), x >> 3) == SmallSigma0(x)
  {
    assert Rotr32(x, 7) == x.RotateRight(7) && Rotr32(x, 18) == x.RotateRight(18);
  }

  lemma ShiftsSmall1(x: Word)
    ensures Xor(Rotr32(x, 17), Rotr32(x, 19), x >> 10) == SmallSigma1(x)
  {
    assert Rotr32(x, 17) == x.RotateRight(17) && Rotr32(x, 19) == x.RotateRight(19);
  }

  // ---------------------------------------------------------------- padding, section 5.1.1

  // n in `count` big-endian bytes.
  function BigEndian(n: nat, count: nat): (s: seq<byte>)
    ensures |s| == count
  {
    if count == 0 then [] else BigEndian(n / 256, count - 1) + [(n % 256) as byte]
  }

  function FromBigEndian(s: seq<byte>): nat {
    if s == [] then 0 else FromBigEndian(s[..|s| - 1]) * 256 + s[|s| - 1] as nat
  }

  function Pow256(k: nat): nat { if k == 0 then 1 else 256 * Pow256(k - 1) }

  lemma {:induction false} BigEndianRoundTrip(n: nat, count: nat)
    requires n < Pow256(count)
    ensures FromBigEndian(BigEndian(n, count)) == n
  {
    if count > 0 {
      BigEndianRoundTrip(n / 256, count - 1);
      var s := BigEndian(n, count);
      assert s[..|s| - 1] == BigEndian(n / 256, count - 1);
    }
  }

  // Longer numbers lose their leading bytes.
  lemma {:induction false} BigEndianWraps(n: nat, q: nat, count: nat)
    ensures BigEndian(n + q * Pow256(count), count) == BigEndian(n, count)
  {
    if count > 0 {
      var p := Pow256(count - 1);
      assert n + q * Pow256(count) == n + 256 * (q * p);
      assert (n + 256 * (q * p)) / 256 == n / 256 + q * p && (n + 256 * (q * p)) % 256 == n % 256;
      BigEndianWraps(n / 256, q, count - 1);
    }
  }

  lemma LengthLimit()
    ensures Pow256(8) == 8 * LENGTH_LIMIT
  {
    assert Pow256(4) == 0x1_0000_0000;
    assert Pow256(8) == 256 * 256 * 256 * 256 * Pow256(4);
  }

  lemma LengthWraps(n: nat)
    ensures BigEndian(n % 0x1_0000_0000_0000_0000, 8) == BigEndian(n, 8)
  {
    hide BigEndian;
    LengthLimit();
    BigEndianWraps(n % (8 * LENGTH_LIMIT), n / (8 * LENGTH_LIMIT), 8);
  }

  function Zeros(k: nat): (s: seq<byte>)
    ensures |s| == k
  {
    seq(k, _ => 0 as byte)
  }

  // The number of zero bytes: the least k with |m| + 1 + k = 56 modulo 64.
  function ZeroCount(length: nat): nat { (55 - length) % 64 }

  function Pad(m: seq<byte>): seq<byte> {
    m + [0x80] + Zeros(ZeroCount(|m|)) + BigEndian(8 * |m|, 8)
  }

  function Unpad(p: seq<byte>): seq<byte> {
    if |p| < 8 then [] else
    var length := FromBigEndian(p[|p| - 8..]) / 8;
    if length <= |p| then p[..length] else []
  }

  const LENGTH_LIMIT: nat := 0x2000_0000_0000_0000

  /** The padded length is the least multiple of 64 that holds the message, the marker and the length. */
  lemma PadMinimal(m: seq<byte>)
    ensures |Pad(m)| % 64 == 0 && |m| + 9 <= |Pad(m)|
    ensures forall n: nat :: n % 64 == 0 && |m| + 9 <= n ==> |Pad(m)| <= n
  {
    hide Zeros, BigEndian;
    var q := (55 - |m|) / 64;
    assert 55 - |m| == 64 * q + ZeroCount(|m|);
    assert |Pad(m)| == 64 * (1 - q);
  }

  /** Padding can be undone, so distinct messages have distinct padded forms. */
  lemma UnpadPad(m: seq<byte>)
    requires |m| < LENGTH_LIMIT
    ensures Unpad(Pad(m)) == m
  {
    var p := Pad(m);
    assert p[|p| - 8..] == BigEndian(8 * |m|, 8);
    LengthLimit();
    BigEndianRoundTrip(8 * |m|, 8);
    assert p[..|m|] == m;
  }

  // ---------------------------------------------------------------- schedule and compression, section 6.2.2

  function WordOfBytes(b0: byte, b1: byte, b2: byte, b3: byte): Word {
    ((b0 as bv32) << 24) | ((b1 as bv32) << 16) | ((b2 as bv32) << 8) | (b3 as bv32)
  }

  function WordAt(s: seq<byte>, i: nat): Word
    requires i + 4 <= |s|
  {
    WordOfBytes(s[i], s[i + 1], s[i + 2], s[i + 3])
  }

  function BlockWords(block: seq<byte>, n: nat): (w: seq<Word>)
    requires 4 * n <= |block|
    ensures |w| == n
  {
    if n == 0 then [] else BlockWords(block, n - 1) + [WordAt(block, 4 * (n - 1))]
  }

  function NextWord(w: seq<Word>): Word
    requires |w| >= 16
  {
    var t := |w|;
    Sum4(w[t - 16], SmallSigma0(w[t - 15]), w[t - 7], SmallSigma1(w[t - 2]))
  }

  // The first n words of the message schedule of a block given as 16 words.
  function Schedule(m: seq<Word>, n: nat): (w: seq<Word>)
    requires |m| == 16 && n >= 16
    ensures |w| == n
  {
    if n == 16 then m else Schedule(m, n - 1) + [NextWord(Schedule(m, n - 1))]
  }

  function Round(v: Vars, k: Word, w: Word): Vars {
    var t1 := Sum5(v.h, BigSigma1(v.e), Ch(v.e, v.f, v.g), k, w);
    var t2 := Plus(BigSigma0(v.a), Maj(v.a, v.b, v.c));
    Vars(Plus(t1, t2), v.a, v.b, v.c, Plus(v.d, t1), v.e, v.f, v.g)
  }

  function Rounds(v: Vars, w: seq<Word>, n: nat): Vars
    requires n <= 64 && n <= |w|
  {
    if n == 0 then v else Round(Rounds(v, w, n - 1), K(n - 1), w[n - 1])
  }

  function Add(x: Vars, y: Vars): Vars {
    Vars(Plus(x.a, y.a), Plus(x.b, y.b), Plus(x.c, y.c), Plus(x.d, y.d),
         Plus(x.e, y.e), Plus(x.f, y.f), Plus(x.g, y.g), Plus(x.h, y.h))
  }

  function Compress(hash: Vars, block: seq<byte>): Vars
    requires |block| == 64
  {
    Add(hash, Rounds(hash, Schedule(BlockWords(block, 16), 64), 64))
  }

  function HashBlocks(p: seq<byte>, n: nat): Vars
    requires 64 * n <= |p|
  {
    if n == 0 then InitialHash() else Compress(HashBlocks(p, n - 1), p[64 * (n - 1)..64 * n])
  }

  function Digest(m: seq<byte>): Vars {
    HashBlocks(Pad(m), |Pad(m)| / 64)
  }

  // ---------------------------------------------------------------- hexadecimal output

  function HexDigit(n: Word): char
    requires n < 16
  {
    if n == 0 then '0' else if n == 1 then '1' else if n == 2 then '2' else if n == 3 then '3'
    else if n == 4 then '4' else if n == 5 then '5' else if n == 6 then '6' else if n == 7 then '7'
    else if n == 8 then '8' else if n == 9 then '9' else if n == 10 then 'a' else if n == 11 then 'b'
    else if n == 12 then 'c' else if n == 13 then 'd' else if n == 14 then 'e' else 'f'
  }

  function DigitValue(c: char): Word {
    if c == '0' then 0 else if c == '1' then 1 else if c == '2' then 2 else if c == '3' then 3
    else if c == '4' then 4 else if c == '5' then 5 else if c == '6' then 6 else if c == '7' then 7
    else if c == '8' then 8 else if c == '9' then 9 else if c == 'a' then 10 else if c == 'b' then 11
    else if c == 'c' then 12 else if c == 'd' then 13 else if c == 'e' then 14 else 15
  }

  predicate IsHexDigit(c: char) { '0' <= c <= '9' || 'a' <= c <= 'f' }

  function HexWord(w: Word): (s: string)
    ensures |s| == 8
  {
    [HexDigit((w >> 28) & 15), HexDigit((w >> 24) & 15), HexDigit((w >> 20) & 15), HexDigit((w >> 16) & 15),
     HexDigit((w >> 12) & 15), HexDigit((w >> 8) & 15), HexDigit((w >> 4) & 15), HexDigit(w & 15)]
  }

  function WordOfHex(s: string): Word
    requires |s| == 8
  {
    (DigitValue(s[0]) << 28) | (DigitValue(s[1]) << 24) | (DigitValue(s[2]) << 20) | (DigitValue(s[3]) << 16)
    | (DigitValue(s[4]) << 12) | (DigitValue(s[5]) << 8) | (DigitValue(s[6]) << 4) | DigitValue(s[7])
  }

  function Words(v: Vars): seq<Word> { [v.a, v.b, v.c, v.d, v.e, v.f, v.g, v.h] }

  function Hex(ws: seq<Word>): (s: string)
    ensures |s| == 8 * |ws|
  {
    if ws == [] then "" else Hex(ws[..|ws| - 1]) + HexWord(ws[|ws| - 1])
  }

  function WordsOfHex(s: string): seq<Word> {
    if |s| < 8 then [] else WordsOfHex(s[..|s| - 8]) + [WordOfHex(s[|s| - 8..])]
  }

  lemma HexDigitRoundTrip(n: Word)
    requires n < 16
    ensures DigitValue(HexDigit(n)) == n && IsHexDigit(HexDigit(n))
  {
  }

  lemma NibblesMakeWord(w: Word)
    ensures (((w >> 28) & 15) << 28) | (((w >> 24) & 15) << 24) | (((w >> 20) & 15) << 20) | (((w >> 16) & 15) << 16)
            | (((w >> 12) & 15) << 12) | (((w >> 8) & 15) << 8) | (((w >> 4) & 15) << 4) | (w & 15) == w
  {
  }

  lemma HexWordRoundTrip(w: Word)
    ensures WordOfHex(HexWord(w)) == w
    ensures forall i :: 0 <= i < 8 ==> IsHexDigit(HexWord(w)[i])
  {
    HexDigitRoundTrip((w >> 28) & 15);
    HexDigitRoundTrip((w >> 24) & 15);
    HexDigitRoundTrip((w >> 20) & 15);
    HexDigitRoundTrip((w >> 16) & 15);
    HexDigitRoundTrip((w >> 12) & 15);
    HexDigitRoundTrip((w >> 8) & 15);
    HexDigitRoundTrip((w >> 4) & 15);
    HexDigitRoundTrip(w & 15);
    NibblesMakeWord(w);
  }

  /** The printed words are lowercase hexadecimal digits, eight to a word, that decode back to the words. */
  lemma {:induction false} HexRoundTrip(ws: seq<Word>)
    ensures WordsOfHex(Hex(ws)) == ws
    ensures forall i :: 0 <= i < |Hex(ws)| ==> IsHexDigit(Hex(ws)[i])
  {
    hide HexWord, WordOfHex;
    if ws != [] {
      var rest, last := ws[..|ws| - 1], ws[|ws| - 1];
      HexRoundTrip(rest);
      HexWordRoundTrip(last);
      assert Hex(ws)[..8 * |rest|] == Hex(rest) && Hex(ws)[8 * |rest|..] == HexWord(last);
    }
  }

  // ---------------------------------------------------------------- the compression is invertible

  function UnRound(v: Vars, k: Word, w: Word): Vars {
    var t1 := Minus(v.a, Plus(BigSigma0(v.b), Maj(v.b, v.c, v.d)));
    Vars(v.b, v.c, v.d, Minus(v.e, t1), v.f, v.g, v.h, First5(t1, BigSigma1(v.f), Ch(v.f, v.g, v.h), k, w))
  }

  function UnRounds(v: Vars, w: seq<Word>, n: nat): Vars
    requires n <= 64 && n <= |w|
    decreases n
  {
    if n == 0 then v else UnRounds(UnRound(v, K(n - 1), w[n - 1]), w, n - 1)
  }

  lemma RoundThenUnRound(v: Vars, k: Word, w: Word)
    ensures UnRound(Round(v, k, w), k, w) == v
  {
    hide BigSigma0, BigSigma1, Ch, Maj, Plus, Minus, Sum5, First5;
    var s1, ch := BigSigma1(v.e), Ch(v.e, v.f, v.g);
    var t1 := Sum5(v.h, s1, ch, k, w);
    var t2 := Plus(BigSigma0(v.a), Maj(v.a, v.b, v.c));
    Sum5Undone(v.h, s1, ch, k, w);
    PlusUndone(t1, t2);
    PlusUndone(v.d, t1);
  }

  lemma UnRoundThenRound(v: Vars, k: Word, w: Word)
    ensures Round(UnRound(v, k, w), k, w) == v
  {
    hide BigSigma0, BigSigma1, Ch, Maj, Plus, Minus, Sum5, First5;
    var t2 := Plus(BigSigma0(v.b), Maj(v.b, v.c, v.d));
    var t1 := Minus(v.a, t2);
    MinusUndone(v.a, t2);
    MinusUndone(v.e, t1);
    First5Undone(t1, BigSigma1(v.f), Ch(v.f, v.g, v.h), k, w);
  }

  /** For a fixed schedule the 64 rounds, and any number of them, are a bijection on the eight words. */
  lemma {:induction false} RoundsBijective(v: Vars, w: seq<Word>, n: nat)
    requires n <= 64 && n <= |w|
    ensures UnRounds(Rounds(v, w, n), w, n) == v
    ensures Rounds(UnRounds(v, w, n), w, n) == v
    decreases n
  {
    if n > 0 {
      hide Round, UnRound, K;
      RoundThenUnRound(Rounds(v, w, n - 1), K(n - 1), w[n - 1]);
      UnRoundThenRound(v, K(n - 1), w[n - 1]);
      RoundsBijective(v, w, n - 1);
      RoundsBijective(UnRound(v, K(n - 1), w[n - 1]), w, n - 1);
    }
  }

  // Steps a window of 16 consecutive schedule words back by t places.
  function Rewind(window: seq<Word>, t: nat): (m: seq<Word>)
    requires |window| == 16
    ensures |m| == 16
    decreases t
  {
    if t == 0 then window
    else
      var before := First4(window[15], SmallSigma0(window[0]), window[8], SmallSigma1(window[13]));
      Rewind([before] + window[..15], t - 1)
  }

  /** Any 16 consecutive words of the schedule determine the block. */
  lemma {:induction false} ScheduleRewinds(m: seq<Word>, n: nat)
    requires |m| == 16 && n >= 16
    ensures Rewind(Schedule(m, n)[n - 16..], n - 16) == m
  {
    if n > 16 {
      ScheduleRewinds(m, n - 1);
      WindowSteps(Schedule(m, n - 1), n);
    }
  }

  lemma WindowSteps(p: seq<Word>, n: nat)
    requires n > 16 && |p| == n - 1
    ensures Rewind((p + [NextWord(p)])[n - 16..], n - 16) == Rewind(p[n - 17..], n - 17)
  {
    hide SmallSigma0, SmallSigma1, Sum4, First4;
    var window := (p + [NextWord(p)])[n - 16..];
    Sum4Undone(p[n - 17], SmallSigma0(p[n - 16]), p[n - 8], SmallSigma1(p[n - 3]));
    assert window == p[n - 16..] + [NextWord(p)];
    assert [p[n - 17]] + window[..15] == p[n - 17..];
  }

  // ---------------------------------------------------------------- the implementation

  // msg grows by the marker, zero bytes up to 56 modulo 64, and the bit length kept in 64 bits.
  method PadMessage(input: seq<byte>) returns (msg: seq<byte>)
    ensures msg == Pad(input) && |msg| % 64 == 0
  {
    hide BigEndian, Zeros;
    var bitLen := (|input| * 8) % 0x1_0000_0000_0000_0000;
    LengthWraps(8 * |input|);
    var body := PadZeros(input + [0x80]);
    msg := AppendLength(body, bitLen);
    assert |msg| == |body| + 8;
  }

  // The length field, most significant byte first.
  method AppendLength(body: seq<byte>, bitLen: nat) returns (msg: seq<byte>)
    ensures msg == body + BigEndian(bitLen, 8)
  {
    msg := body;
    var i := 7;
    while i >= 0
      invariant -1 <= i <= 7 && msg == body + BigEndian(Shifted(bitLen, i + 1), 7 - i)
    {
      ghost var tail := BigEndian(Shifted(bitLen, i + 1), 7 - i);
      msg := msg + [(Shifted(bitLen, i) % 256) as byte];
      assert tail + [(Shifted(bitLen, i) % 256) as byte] == BigEndian(Shifted(bitLen, i), 8 - i);
      i := i - 1;
    }
  }

  method PadZeros(start: seq<byte>) returns (msg: seq<byte>)
    ensures msg == start + Zeros((56 - |start|) % 64) && |msg| % 64 == 56
  {
    msg := start;
    ghost var zeros := 0;
    while |msg| % 64 != 56
      invariant zeros <= (56 - |start|) % 64 && msg == start + Zeros(zeros)
      decreases (56 - |start|) % 64 - zeros
    {
      msg := msg + [0];
      zeros := zeros + 1;
    }
  }

  // n >> (8 * k)
  function Shifted(n: nat, k: nat): nat {
    if k == 0 then n else Shifted(n, k - 1) / 256
  }

  // uint32_t w[64]
  method PrepareSchedule(msg: seq<byte>, offset: nat, w: array<Word>)
    requires offset + 64 <= |msg| && w.Length == 64
    modifies w
    ensures w[..] == Schedule(BlockWords(msg[offset..offset + 64], 16), 64)
  {
    ghost var m := BlockWords(msg[offset..offset + 64], 16);
    LoadWords(msg, offset, w);
    hide BlockWords;
    ScheduleStarts(m);
    var i := 16;
    while i < 64
      invariant 16 <= i <= 64 && w[..i] == Schedule(m, i)
    {
      hide Sum4, SmallSigma0, SmallSigma1, Schedule;
      ghost var done := w[..i];
      w[i] := MixSchedule(w[i - 16], w[i - 15], w[i - 7], w[i - 2]);
      ScheduleGrows(m, i);
      i := i + 1;
      assert w[..i] == done + [NextWord(done)];
    }
    assert w[..] == w[..i];
  }

  lemma ScheduleStarts(m: seq<Word>)
    requires |m| == 16
    ensures Schedule(m, 16) == m
  {
  }

  lemma ScheduleGrows(m: seq<Word>, n: nat)
    requires |m| == 16 && n >= 16
    ensures Schedule(m, n + 1) == Schedule(m, n) + [NextWord(Schedule(m, n))]
  {
  }

  method LoadWords(msg: seq<byte>, offset: nat, w: array<Word>)
    requires offset + 64 <= |msg| && w.Length == 64
    modifies w
    ensures w[..16] == BlockWords(msg[offset..offset + 64], 16)
  {
    hide WordOfBytes;
    ghost var block := msg[offset..offset + 64];
    var i := 0;
    while i < 16
      invariant i <= 16 && w[..i] == BlockWords(block, i)
    {
      ghost var done := w[..i];
      w[i] := WordOfBytes(msg[offset + i * 4], msg[offset + i * 4 + 1], msg[offset + i * 4 + 2],
                          msg[offset + i * 4 + 3]);
      assert w[i] == WordAt(block, 4 * i);
      i := i + 1;
      assert w[..i] == done + [WordAt(block, 4 * (i - 1))];
    }
  }

  method MixSchedule(w16: Word, w15: Word, w7: Word, w2: Word) returns (w: Word)
    ensures w == Sum4(w16, SmallSigma0(w15), w7, SmallSigma1(w2))
  {
    hide Rotr32, Xor, SmallSigma0, SmallSigma1, Sum4;
    ShiftsSmall0(w15);
    ShiftsSmall1(w2);
    var s0 := Xor(Rotr32(w15, 7), Rotr32(w15, 18), w15 >> 3);
    var s1 := Xor(Rotr32(w2, 17), Rotr32(w2, 19), w2 >> 10);
    w := Sum4(w16, s0, w7, s1);
  }

  method MixRound(v: Vars, k: Word, w: Word) returns (temp1: Word, temp2: Word)
    ensures temp1 == Sum5(v.h, BigSigma1(v.e), Ch(v.e, v.f, v.g), k, w)
    ensures temp2 == Plus(BigSigma0(v.a), Maj(v.a, v.b, v.c))
  {
    hide Rotr32, Xor, BigSigma0, BigSigma1, Ch, Maj, Sum5, Plus;
    ShiftsBig1(v.e);
    ShiftsBig0(v.a);
    var s1 := Xor(Rotr32(v.e, 6), Rotr32(v.e, 11), Rotr32(v.e, 25));
    temp1 := Sum5(v.h, s1, Ch(v.e, v.f, v.g), k, w);
    var s0 := Xor(Rotr32(v.a, 2), Rotr32(v.a, 13), Rotr32(v.a, 22));
    temp2 := Plus(s0, Maj(v.a, v.b, v.c));
  }

  method CompressBlock(hash: Vars, w: array<Word>) returns (out: Vars)
    requires w.Length == 64
    ensures out == Add(hash, Rounds(hash, w[..], 64))
  {
    hide BigSigma0, BigSigma1, Ch, Maj, Plus, Sum5, K;
    var a, b, c, d := hash.a, hash.b, hash.c, hash.d;
    var e, f, g, hh := hash.e, hash.f, hash.g, hash.h;
    var i := 0;
    while i < 64
      invariant i <= 64 && Vars(a, b, c, d, e, f, g, hh) == Rounds(hash, w[..], i)
    {
      var temp1, temp2 := MixRound(Vars(a, b, c, d, e, f, g, hh), K(i), w[i]);
      hh := g;
      g := f;
      f := e;
      e := Plus(d, temp1);
      d := c;
      c := b;
      b := a;
      a := Plus(temp1, temp2);
      i := i + 1;
    }
    out := Vars(Plus(hash.a, a), Plus(hash.b, b), Plus(hash.c, c), Plus(hash.d, d),
                Plus(hash.e, e), Plus(hash.f, f), Plus(hash.g, g), Plus(hash.h, hh));
  }

  /** The loops over bytes, blocks, schedule and rounds compute the specified digest, in hexadecimal.  For
      inputs of LENGTH_LIMIT bytes and more, which FIPS 180-4 does not define, the length field wraps in both. */
  method Compute(input: seq<byte>) returns (hex: string)
    ensures hex == Hex(Words(Digest(input))) && |hex| == 64
  {
    hide InitialHash, Pad, Add, Rounds, Schedule, BlockWords, Hex;
    var hash := InitialHash();
    var msg := PadMessage(input);
    var w := new Word[64];
    var offset := 0;
    ghost var n := 0;
    while offset < |msg|
      invariant 64 * n == offset <= |msg| && hash == HashBlocks(msg, n)
    {
      PrepareSchedule(msg, offset, w);
      hash := CompressBlock(hash, w);
      offset := offset + 64;
      n := n + 1;
    }
    hex := Hex(Words(hash));
  }
}
