/**
 SHA-256 of a text (FIPS 180-4, section 6.2), as far as the fallback WLAN id needs it: the first
 24 hex digits of the digest (internal/wireless/plan.go).
 */
module TextDigest {
  type Word = bv32

  // ---- bytes of a text ----------------------------------------------------------------------------

  /** The UTF-8 bytes of one character (section 3 of RFC 3629). */
  function CharBytes(c: char): seq<Word> {
    var n := c as int;
    if n < 0x80 then [n as Word]
    else if n < 0x800 then [(0xC0 + n / 0x40) as Word, (0x80 + n % 0x40) as Word]
    else if n < 0x10000 then [(0xE0 + n / 0x1000) as Word, (0x80 + n / 0x40 % 0x40) as Word, (0x80 + n % 0x40) as Word]
    else [(0xF0 + n / 0x40000) as Word, (0x80 + n / 0x1000 % 0x40) as Word, (0x80 + n / 0x40 % 0x40) as Word, (0x80 + n % 0x40) as Word]
  }

  function Utf8(s: string): seq<Word> {
    if s == "" then [] else CharBytes(s[0]) + Utf8(s[1..])
  }

  // ---- padding and blocks -----------------------------------------------------------------------------

  function Zeros(n: nat): (z: seq<Word>)
    ensures |z| == n
  {
    seq(n, i => 0)
  }

  function WordBytes(x: Word): (b: seq<Word>)
    ensures |b| == 4
  {
    [(x >> 24) & 0xFF, (x >> 16) & 0xFF, (x >> 8) & 0xFF, x & 0xFF]
  }

  /** Zero bytes behind a message of n bytes, so that one byte before and eight after them end a block. */
  function Gap(n: nat): (g: nat)
    ensures (n + 1 + g + 8) % 64 == 0
  {
    63 - (n + 8) % 64
  }

  /** A one bit, zeros, and the length in bits modulo 2^64, in whole blocks (section 5.1.1). */
  function Padded(m: seq<Word>): (p: seq<Word>)
    ensures |p| % 64 == 0
  {
    var bits := |m| * 8;
    var tail := WordBytes((bits / 0x1_0000_0000 % 0x1_0000_0000) as Word) + WordBytes((bits % 0x1_0000_0000) as Word);
    m + [0x80] + Zeros(Gap(|m|)) + tail
  }

  function WordAt(p: seq<Word>, i: nat): Word
    requires i + 4 <= |p|
  {
    (p[i] << 24) | (p[i + 1] << 16) | (p[i + 2] << 8) | p[i + 3]
  }

  // ---- compression --------------------------------------------------------------------------------------

  const ROUNDS: seq<Word> := [
    0x428a2f98, 0x71374491, 0xb5c0fbcf, 0xe9b5dba5, 0x3956c25b, 0x59f111f1, 0x923f82a4, 0xab1c5ed5,
    0xd807aa98, 0x12835b01, 0x243185be, 0x550c7dc3, 0x72be5d74, 0x80deb1fe, 0x9bdc06a7, 0xc19bf174,
    0xe49b69c1, 0xefbe4786, 0x0fc19dc6, 0x240ca1cc, 0x2de92c6f, 0x4a7484aa, 0x5cb0a9dc, 0x76f988da,
    0x983e5152, 0xa831c66d, 0xb00327c8, 0xbf597fc7, 0xc6e00bf3, 0xd5a79147, 0x06ca6351, 0x14292967,
    0x27b70a85, 0x2e1b2138, 0x4d2c6dfc, 0x53380d13, 0x650a7354, 0x766a0abb, 0x81c2c92e, 0x92722c85,
    0xa2bfe8a1, 0xa81a664b, 0xc24b8b70, 0xc76c51a3, 0xd192e819, 0xd6990624, 0xf40e3585, 0x106aa070,
    0x19a4c116, 0x1e376c08, 0x2748774c, 0x34b0bcb5, 0x391c0cb3, 0x4ed8aa4a, 0x5b9cca4f, 0x682e6ff3,
    0x748f82ee, 0x78a5636f, 0x84c87814, 0x8cc70208, 0x90befffa, 0xa4506ceb, 0xbef9a3f7, 0xc67178f2]

  datatype Vars = Vars(a: Word, b: Word, c: Word, d: Word, e: Word, f: Word, g: Word, h: Word)

  const Initial := Vars(0x6a09e667, 0xbb67ae85, 0x3c6ef372, 0xa54ff53a, 0x510e527f, 0x9b05688c, 0x1f83d9ab, 0x5be0cd19)

  function Rotated(x: Word, n: nat): Word
    requires 0 < n < 32
  {
    (x >> n) | (x << (32 - n))
  }

  /** The first t words of the message schedule of the block at offset from. */
  function Schedule(p: seq<Word>, from: nat, t: nat): (w: seq<Word>)
    requires from + 64 <= |p| && t <= 64
    ensures |w| == t
  {
    if t == 0 then []
    else
      var w := Schedule(p, from, t - 1);
      if t <= 16 then w + [WordAt(p, from + 4 * (t - 1))]
      else
        var x, y := w[t - 16], w[t - 3];
        w + [(Rotated(y, 17) ^ Rotated(y, 19) ^ (y >> 10)) + w[t - 8] + (Rotated(x, 7) ^ Rotated(x, 18) ^ (x >> 3)) + w[t - 17]]
  }

  function Round(v: Vars, k: Word, w: Word): Vars {
    var t1 := v.h + (Rotated(v.e, 6) ^ Rotated(v.e, 11) ^ Rotated(v.e, 25)) + ((v.e & v.f) ^ (!v.e & v.g)) + k + w;
    var t2 := (Rotated(v.a, 2) ^ Rotated(v.a, 13) ^ Rotated(v.a, 22)) + ((v.a & v.b) ^ (v.a & v.c) ^ (v.b & v.c));
    Vars(t1 + t2, v.a, v.b, v.c, v.d + t1, v.e, v.f, v.g)
  }

  function Rounds(v: Vars, w: seq<Word>, t: nat): Vars
    requires |w| == 64 && t <= 64
  {
    if t == 0 then v else Round(Rounds(v, w, t - 1), ROUNDS[t - 1], w[t - 1])
  }

  /** The hash value after the first n blocks. */
  function After(p: seq<Word>, n: nat): Vars
    requires 64 * n <= |p|
  {
    if n == 0 then Initial
    else
      var v := After(p, n - 1);
      var r := Rounds(v, Schedule(p, 64 * (n - 1), 64), 64);
      Vars(v.a + r.a, v.b + r.b, v.c + r.c, v.d + r.d, v.e + r.e, v.f + r.f, v.g + r.g, v.h + r.h)
  }

  // ---- hex digits --------------------------------------------------------------------------------------------

  function HexChar(x: Word): (c: char)
    ensures '0' <= c <= '9' || 'a' <= c <= 'f'
  {
    if x == 0 then '0' else if x == 1 then '1' else if x == 2 then '2' else if x == 3 then '3'
    else if x == 4 then '4' else if x == 5 then '5' else if x == 6 then '6' else if x == 7 then '7'
    else if x == 8 then '8' else if x == 9 then '9' else if x == 10 then 'a' else if x == 11 then 'b'
    else if x == 12 then 'c' else if x == 13 then 'd' else if x == 14 then 'e' else 'f'
  }

  predicate HexText(s: string) {
    forall i :: 0 <= i < |s| ==> '0' <= s[i] <= '9' || 'a' <= s[i] <= 'f'
  }

  function HexWord(x: Word): (s: string)
    ensures |s| == 8 && HexText(s)
  {
    [HexChar((x >> 28) & 0xF), HexChar((x >> 24) & 0xF), HexChar((x >> 20) & 0xF), HexChar((x >> 16) & 0xF),
     HexChar((x >> 12) & 0xF), HexChar((x >> 8) & 0xF), HexChar((x >> 4) & 0xF), HexChar(x & 0xF)]
  }

  function HexWords(v: Vars): (s: string)
    ensures |s| == 24 && HexText(s)
  {
    HexWord(v.a) + HexWord(v.b) + HexWord(v.c)
  }

  /** The first 24 hex digits of the digest of a text. */
  function Hex24(text: string): (s: string)
    ensures |s| == 24 && HexText(s)
  {
    var p := Padded(Utf8(text));
    HexWords(After(p, |p| / 64))
  }
}
