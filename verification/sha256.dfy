/**
 * SHA-256 as specified in FIPS 180-4 (sections 4.1.2, 4.2.2, 5.1.1, 5.3.3
 * and 6.2), over the UTF-8 encoding of a string, and its lowercase
 * hexadecimal digest, as used for the embedding cache key.
 */
module Sha256 {

  type Byte = bv8
  type Word = bv32

  // ---------------------------------------------------------------------
  // UTF-8 (RFC 3629 section 3)

  /** The UTF-8 bytes of one Unicode scalar value. */
  function Utf8Char(c: char): (r: seq<Byte>)
    ensures 1 <= |r| <= 4
  {
    var n := c as int;
    if n < 0x80 then [n as bv8]
    else if n < 0x800 then [(0xC0 + n / 64) as bv8, (0x80 + n % 64) as bv8]
    else if n < 0x10000 then
      [(0xE0 + n / 4096) as bv8, (0x80 + (n / 64) % 64) as bv8, (0x80 + n % 64) as bv8]
    else
      [(0xF0 + n / 262144) as bv8, (0x80 + (n / 4096) % 64) as bv8,
       (0x80 + (n / 64) % 64) as bv8, (0x80 + n % 64) as bv8]
  }

  /** `s.encode()`: the UTF-8 encoding of a string. */
  function Utf8(s: string): (r: seq<Byte>)
    ensures |s| <= |r| <= 4 * |s|
  {
    if s == [] then [] else Utf8(s[..|s| - 1]) + Utf8Char(s[|s| - 1])
  }

  // ---------------------------------------------------------------------
  // Constants (section 4.2.2 and 5.3.3)

  const K: seq<Word> := [
    0x428a2f98, 0x71374491, 0xb5c0fbcf, 0xe9b5dba5, 0x3956c25b, 0x59f111f1, 0x923f82a4, 0xab1c5ed5,
    0xd807aa98, 0x12835b01, 0x243185be, 0x550c7dc3, 0x72be5d74, 0x80deb1fe, 0x9bdc06a7, 0xc19bf174,
    0xe49b69c1, 0xefbe4786, 0x0fc19dc6, 0x240ca1cc, 0x2de92c6f, 0x4a7484aa, 0x5cb0a9dc, 0x76f988da,
    0x983e5152, 0xa831c66d, 0xb00327c8, 0xbf597fc7, 0xc6e00bf3, 0xd5a79147, 0x06ca6351, 0x14292967,
    0x27b70a85, 0x2e1b2138, 0x4d2c6dfc, 0x53380d13, 0x650a7354, 0x766a0abb, 0x81c2c92e, 0x92722c85,
    0xa2bfe8a1, 0xa81a664b, 0xc24b8b70, 0xc76c51a3, 0xd192e819, 0xd6990624, 0xf40e3585, 0x106aa070,
    0x19a4c116, 0x1e376c08, 0x2748774c, 0x34b0bcb5, 0x391c0cb3, 0x4ed8aa4a, 0x5b9cca4f, 0x682e6ff3,
    0x748f82ee, 0x78a5636f, 0x84c87814, 0x8cc70208, 0x90befffa, 0xa4506ceb, 0xbef9a3f7, 0xc67178f2
  ]

  const H0: seq<Word> := [
    0x6a09e667, 0xbb67ae85, 0x3c6ef372, 0xa54ff53a, 0x510e527f, 0x9b05688c, 0x1f83d9ab, 0x5be0cd19
  ]

  // ---------------------------------------------------------------------
  // Functions (section 4.1.2)

  function Ch(x: Word, y: Word, z: Word): Word { (x & y) ^ (!x & z) }

  function Maj(x: Word, y: Word, z: Word): Word { (x & y) ^ (x & z) ^ (y & z) }

  function BigSigma0(x: Word): Word { x.RotateRight(2) ^ x.RotateRight(13) ^ x.RotateRight(22) }

  function BigSigma1(x: Word): Word { x.RotateRight(6) ^ x.RotateRight(11) ^ x.RotateRight(25) }

  function SmallSigma0(x: Word): Word { x.RotateRight(7) ^ x.RotateRight(18) ^ (x >> 3) }

  function SmallSigma1(x: Word): Word { x.RotateRight(17) ^ x.RotateRight(19) ^ (x >> 10) }

  // ---------------------------------------------------------------------
  // Padding (section 5.1.1)

  /** The number of zero bytes that make `n + 1 + zeros + 8` a multiple of 64. */
  function ZeroPad(n: nat): (z: nat)
    ensures z < 64 && (n + 1 + z + 8) % 64 == 0
  {
    (119 - n % 64) % 64
  }

  /** The eight big-endian bytes of `v mod 2^64`. */
  function BigEndian64(v: nat): (r: seq<Byte>)
    ensures |r| == 8
  {
    seq(8, i requires 0 <= i < 8 => ((v / Pow256(7 - i)) % 256) as bv8)
  }

  function Pow256(k: nat): (r: nat)
    ensures r >= 1
  {
    if k == 0 then 1 else 256 * Pow256(k - 1)
  }

  /** The padded message: the bytes, `0x80`, zero bytes, then the bit length in 64 bits. */
  function Pad(m: seq<Byte>): (p: seq<Byte>)
    ensures |p| % 64 == 0 && |p| >= |m| + 9
  {
    m + [0x80] + seq(ZeroPad(|m|), _ => 0) + BigEndian64(8 * |m|)
  }

  /** The padded message is whole 64-byte blocks that begin with the message and end with its bit length. */
  lemma PadShape(m: seq<Byte>)
    ensures |Pad(m)| % 64 == 0 && |Pad(m)| >= |m| + 9
    ensures Pad(m)[..|m|] == m && Pad(m)[|m|] == 0x80
    ensures forall i :: |m| < i < |Pad(m)| - 8 ==> Pad(m)[i] == 0
    ensures Pad(m)[|Pad(m)| - 8..] == BigEndian64(8 * |m|)
    ensures |Pad(m)| < |m| + 73
  {
  }

  // ---------------------------------------------------------------------
  // Hash computation (section 6.2.2)

  /** Big-endian word `t` of a 64-byte block. */
  function BlockWord(block: seq<Byte>, t: nat): Word
    requires |block| == 64 && t < 16
  {
    (block[4 * t] as Word << 24) | (block[4 * t + 1] as Word << 16)
    | (block[4 * t + 2] as Word << 8) | block[4 * t + 3] as Word
  }

  /** The message schedule `W_0 .. W_{n-1}` of a block. */
  function Schedule(block: seq<Byte>, n: nat): (w: seq<Word>)
    requires |block| == 64 && n <= 64
    ensures |w| == n
    decreases n
  {
    if n == 0 then []
    else
      var w := Schedule(block, n - 1);
      var t := n - 1;
      if t < 16 then w + [BlockWord(block, t)]
      else w + [SmallSigma1(w[t - 2]) + w[t - 7] + SmallSigma0(w[t - 15]) + w[t - 16]]
  }

  /** One round of the compression function with schedule word `wt` (section 6.2.2, step 3). */
  function Round(v: seq<Word>, t: nat, wt: Word): (r: seq<Word>)
    requires |v| == 8 && t < 64
    ensures |r| == 8
  {
    var t1 := v[7] + BigSigma1(v[4]) + Ch(v[4], v[5], v[6]) + K[t] + wt;
    var t2 := BigSigma0(v[0]) + Maj(v[0], v[1], v[2]);
    [t1 + t2, v[0], v[1], v[2], v[3] + t1, v[4], v[5], v[6]]
  }

  /** The eight working variables after the rounds for the schedule words `w`, in order. */
  function Rounds(w: seq<Word>, v: seq<Word>): (r: seq<Word>)
    requires |w| <= 64 && |v| == 8
    ensures |r| == 8
  {
    if w == [] then v else Round(Rounds(w[..|w| - 1], v), |w| - 1, w[|w| - 1])
  }

  /** The intermediate hash value after one block. */
  function Compress(h: seq<Word>, block: seq<Byte>): (r: seq<Word>)
    requires |h| == 8 && |block| == 64
    ensures |r| == 8
  {
    var v := Rounds(Schedule(block, |block|), h);
    seq(8, i requires 0 <= i < 8 => h[i] + v[i])
  }

  /** The hash value after the first `n` blocks of a padded message. */
  function HashBlocks(p: seq<Byte>, n: nat): (h: seq<Word>)
    requires |p| % 64 == 0 && n <= |p| / 64
    ensures |h| == 8
  {
    if n == 0 then H0 else Compress(HashBlocks(p, n - 1), p[64 * (n - 1)..64 * n])
  }

  function WordBytes(x: Word): seq<Byte>
  {
    [(x >> 24) as bv8, ((x >> 16) & 0xFF) as bv8, ((x >> 8) & 0xFF) as bv8, (x & 0xFF) as bv8]
  }

  /** The 32-byte digest of a byte string. */
  function Digest(m: seq<Byte>): (d: seq<Byte>)
    ensures |d| == 32
  {
    var p := Pad(m);
    var h := HashBlocks(p, |p| / 64);
    WordBytes(h[0]) + WordBytes(h[1]) + WordBytes(h[2]) + WordBytes(h[3])
    + WordBytes(h[4]) + WordBytes(h[5]) + WordBytes(h[6]) + WordBytes(h[7])
  }

  // ---------------------------------------------------------------------
  // Hexadecimal digest

  predicate IsLowerHex(c: char) { '0' <= c <= '9' || 'a' <= c <= 'f' }

  function HexDigit(v: nat): (c: char)
    requires v < 16
    ensures IsLowerHex(c)
  {
    if v < 10 then ('0' as int + v) as char else ('a' as int + v - 10) as char
  }

  /** `bytes.hex()`: two lowercase hexadecimal digits per byte, high nibble first. */
  function Hex(bs: seq<Byte>): (s: string)
    ensures |s| == 2 * |bs|
    ensures forall i :: 0 <= i < |s| ==> IsLowerHex(s[i])
  {
    if bs == [] then []
    else Hex(bs[..|bs| - 1]) + [HexDigit(bs[|bs| - 1] as int / 16), HexDigit(bs[|bs| - 1] as int % 16)]
  }

  /** The SHA-256 digest of the UTF-8 encoding of a text, in lowercase hexadecimal. */
  function HexDigest(text: string): (s: string)
    ensures |s| == 64
    ensures forall i :: 0 <= i < |s| ==> IsLowerHex(s[i])
  {
    Hex(Digest(Utf8(text)))
  }
}
