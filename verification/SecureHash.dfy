/** SHA-256 as FIPS 180-4 defines it: padding (5.1.1), functions (4.1.2), schedule and rounds (6.2.2). */
module SecureHash {
  import opened Bytes

  type word = bv32

  // --- Section 4.1.2 ------------------------------------------------------------------------

  function Ch(x: word, y: word, z: word): word { (x & y) ^ (!x & z) }
  function Maj(x: word, y: word, z: word): word { (x & y) ^ (x & z) ^ (y & z) }
  function BigSigma0(x: word): word { x.RotateRight(2) ^ x.RotateRight(13) ^ x.RotateRight(22) }
  function BigSigma1(x: word): word { x.RotateRight(6) ^ x.RotateRight(11) ^ x.RotateRight(25) }
  function SmallSigma0(x: word): word { x.RotateRight(7) ^ x.RotateRight(18) ^ (x >> 3) }
  function SmallSigma1(x: word): word { x.RotateRight(17) ^ x.RotateRight(19) ^ (x >> 10) }

  // Addition modulo 2^32, named so that sums of words can be compared as sums of these terms.
  function Sum(x: word, y: word): word { x + y }
  function Sum4(p: word, q: word, r: word, s: word): word { p + q + r + s }
  function Sum5(p: word, q: word, r: word, s: word, t: word): word { p + q + r + s + t }

  // --- Section 4.2.2 ------------------------------------------------------------------------

  const ROUNDS := 64

  const WORDS_0: seq<word> := [
    0x428A2F98, 0x71374491, 0xB5C0FBCF, 0xE9B5DBA5, 0x3956C25B, 0x59F111F1, 0x923F82A4, 0xAB1C5ED5,
    0xD807AA98, 0x12835B01, 0x243185BE, 0x550C7DC3, 0x72BE5D74, 0x80DEB1FE, 0x9BDC06A7, 0xC19BF174]
  const WORDS_16: seq<word> := [
    0xE49B69C1, 0xEFBE4786, 0x0FC19DC6, 0x240CA1CC, 0x2DE92C6F, 0x4A7484AA, 0x5CB0A9DC, 0x76F988DA,
    0x983E5152, 0xA831C66D, 0xB00327C8, 0xBF597FC7, 0xC6E00BF3, 0xD5A79147, 0x06CA6351, 0x14292967]
  const WORDS_32: seq<word> := [
    0x27B70A85, 0x2E1B2138, 0x4D2C6DFC, 0x53380D13, 0x650A7354, 0x766A0ABB, 0x81C2C92E, 0x92722C85,
    0xA2BFE8A1, 0xA81A664B, 0xC24B8B70, 0xC76C51A3, 0xD192E819, 0xD6990624, 0xF40E3585, 0x106AA070]
  const WORDS_48: seq<word> := [
    0x19A4C116, 0x1E376C08, 0x2748774C, 0x34B0BCB5, 0x391C0CB3, 0x4ED8AA4A, 0x5B9CCA4F, 0x682E6FF3,
    0x748F82EE, 0x78A5636F, 0x84C87814, 0x8CC70208, 0x90BEFFFA, 0xA4506CEB, 0xBEF9A3F7, 0xC67178F2]
  const ROUND_CONSTANTS := WORDS_0 + WORDS_16 + WORDS_32 + WORDS_48

  // --- Section 5.1.1 ------------------------------------------------------------------------

  const BLOCK_BYTES := 64
  const LENGTH_BYTES := 8

  // The big-endian form of the low `n` bytes of `v`.
  function BigEndian(v: nat, n: nat): (b: Bytes)
    ensures |b| == n
  {
    if n == 0 then [] else BigEndian(v / 256, n - 1) + [(v % 256) as byte]
  }

  // The zero bytes between the 1 bit and the length.
  function ZeroBytes(len: nat): nat {
    (55 - len) % BLOCK_BYTES
  }

  lemma {:induction false} ZeroBytesIsLeast(len: nat, fewer: nat)
    ensures (len + 1 + ZeroBytes(len) + LENGTH_BYTES) % BLOCK_BYTES == 0
    ensures fewer < ZeroBytes(len) ==> (len + 1 + fewer + LENGTH_BYTES) % BLOCK_BYTES != 0
  {
  }

  function PaddedLength(len: nat): nat {
    len + 1 + ZeroBytes(len) + LENGTH_BYTES
  }

  // The length field is that of a message of fewer than 2^64 bits; of a longer one it keeps the low bits.
  function Pad(message: Bytes): (padded: Bytes)
    ensures |padded| == PaddedLength(|message|)
  {
    message + [0x80] + Zeros(ZeroBytes(|message|)) + BigEndian(8 * |message|, LENGTH_BYTES)
  }

  // --- Sections 5.2.1 and 6.2.2 -------------------------------------------------------------

  function ToWord(b: Bytes): word
    requires |b| == 4
  {
    ((b[0] as word) << 24) | ((b[1] as word) << 16) | ((b[2] as word) << 8) | (b[3] as word)
  }

  // Word `t` of a block.
  function BlockWord(block: Bytes, t: nat): word
    requires |block| == BLOCK_BYTES && t < 16
  {
    ToWord(block[4 * t..4 * t + 4])
  }

  // A word of the schedule from the words 2, 7, 15 and 16 places before it.
  function Extend(w2: word, w7: word, w15: word, w16: word): word {
    Sum4(SmallSigma1(w2), w7, SmallSigma0(w15), w16)
  }

  function Schedule(block: Bytes, t: nat): word
    requires |block| == BLOCK_BYTES
  {
    if t < 16 then BlockWord(block, t)
    else Extend(Schedule(block, t - 2), Schedule(block, t - 7), Schedule(block, t - 15), Schedule(block, t - 16))
  }

  datatype Working = Working(a: word, b: word, c: word, d: word, e: word, f: word, g: word, h: word) {
    function Plus(v: Working): Working {
      Working(Sum(a, v.a), Sum(b, v.b), Sum(c, v.c), Sum(d, v.d), Sum(e, v.e), Sum(f, v.f), Sum(g, v.g), Sum(h, v.h))
    }

    function Words(): (s: seq<word>)
      ensures |s| == 8
    {
      [a, b, c, d, e, f, g, h]
    }
  }

  // Section 5.3.3.
  const INITIAL_HASH := Working(0x6A09E667, 0xBB67AE85, 0x3C6EF372, 0xA54FF53A,
                                0x510E527F, 0x9B05688C, 0x1F83D9AB, 0x5BE0CD19)

  function Round(v: Working, k: word, w: word): Working {
    var t1 := Sum5(v.h, BigSigma1(v.e), Ch(v.e, v.f, v.g), k, w);
    var t2 := Sum(BigSigma0(v.a), Maj(v.a, v.b, v.c));
    Working(Sum(t1, t2), v.a, v.b, v.c, Sum(v.d, t1), v.e, v.f, v.g)
  }

  function RoundsTo(v: Working, block: Bytes, t: nat): Working
    requires |block| == BLOCK_BYTES && t <= ROUNDS
  {
    if t == 0 then v else Round(RoundsTo(v, block, t - 1), ROUND_CONSTANTS[t - 1], Schedule(block, t - 1))
  }

  function Compress(hash: Working, block: Bytes): Working
    requires |block| == BLOCK_BYTES
  {
    RoundsTo(hash, block, ROUNDS).Plus(hash)
  }

  // The hash value after the first `n` blocks.
  function HashBlocks(padded: Bytes, n: nat): Working
    requires BLOCK_BYTES * n <= |padded|
  {
    if n == 0 then INITIAL_HASH
    else Compress(HashBlocks(padded, n - 1), padded[BLOCK_BYTES * (n - 1)..BLOCK_BYTES * n])
  }

  function WordBytes(w: word): (b: Bytes)
    ensures |b| == 4
  {
    [(w >> 24) as byte, ((w >> 16) & 0xFF) as byte, ((w >> 8) & 0xFF) as byte, (w & 0xFF) as byte]
  }

  function Concat(words: seq<word>): (b: Bytes)
    ensures |b| == 4 * |words|
  {
    if words == [] then [] else Concat(words[..|words| - 1]) + WordBytes(words[|words| - 1])
  }

  function Sha256(message: Bytes): Digest {
    var padded := Pad(message);
    ZeroBytesIsLeast(|message|, 0);
    Concat(HashBlocks(padded, |padded| / BLOCK_BYTES).Words())
  }
}
