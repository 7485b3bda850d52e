/** The software SHA-256: padding produced byte by byte, loops over local arrays. */
module Sha256Software {
  import opened Bytes
  import opened Numbers
  import opened SecureHash

  // --- Words --------------------------------------------------------------------------------

  function Bswap32(x: word): word {
    ((x & 0x0000_00FF) << 24) | ((x & 0x0000_FF00) << 8) | ((x & 0x00FF_0000) >> 8) | ((x & 0xFF00_0000) >> 24)
  }

  function LoadBe32(b: Bytes): word
    requires |b| == 4
  {
    Bswap32(FromLittleEndian(b))
  }

  function StoreBe32(w: word): (b: Bytes)
    ensures |b| == 4
  {
    LittleEndian(Bswap32(w))
  }

  // Copying and swapping reads the bytes as the big-endian word of the standard.
  lemma LoadIsToWord(b: Bytes)
    requires |b| == 4
    ensures LoadBe32(b) == ToWord(b)
  {
  }

  lemma StoreIsWordBytes(w: word)
    ensures StoreBe32(w) == WordBytes(w)
  {
  }

  // The right shift joined with the complementary left shift is the rotation, so the expressions
  // the code writes out are the functions of the standard.
  lemma SmallSigmasByShifts(x: word)
    ensures ((x >> 7) | (x << 25)) ^ ((x >> 18) | (x << 14)) ^ (x >> 3) == SmallSigma0(x)
    ensures ((x >> 17) | (x << 15)) ^ ((x >> 19) | (x << 13)) ^ (x >> 10) == SmallSigma1(x)
  {
  }

  lemma BigSigmasByShifts(x: word)
    ensures ((x >> 6) | (x << 26)) ^ ((x >> 11) | (x << 21)) ^ ((x >> 25) | (x << 7)) == BigSigma1(x)
    ensures ((x >> 2) | (x << 30)) ^ ((x >> 13) | (x << 19)) ^ ((x >> 22) | (x << 10)) == BigSigma0(x)
  {
  }

  lemma ChoiceAndMajority(x: word, y: word, z: word)
    ensures (x & y) ^ (!x & z) == Ch(x, y, z)
    ensures (x & y) ^ (x & z) ^ (y & z) == Maj(x, y, z)
  {
  }

  lemma SumsInAnyOrder(p: word, q: word, r: word, s: word)
    ensures p + q + r + s == Sum4(s, r, q, p)
    ensures p + q == Sum(p, q) == Sum(q, p)
  {
  }

  lemma SumOfFive(p: word, q: word, r: word, s: word, t: word)
    ensures p + q + r + s + t == Sum5(p, q, r, s, t)
  {
  }

  // --- Padding ------------------------------------------------------------------------------

  const SIZE_MAX := 0xFFFF_FFFF_FFFF_FFFF

  function Pow256(n: nat): (p: nat)
    ensures p > 0
  {
    if n == 0 then 1 else 256 * Pow256(n - 1)
  }

  // `v` in the mixed radix a, b.
  lemma MixedRadix(a: nat, b: nat, q: nat, r: nat, s: nat)
    requires r < b && s < a
    ensures a * (b * q + r) + s == (a * b) * q + (a * r + s)
    ensures a * r + s < a * b
  {
    MultipleAtLeast(a, r + 1, b);
  }

  lemma DivideTwice(v: nat, a: nat, b: nat)
    requires a > 0 && b > 0
    ensures a * b > 0 && v / (a * b) == (v / a) / b
  {
    Division(v, a);
    Division(v / a, b);
    QuotientIs(v, a, b, v / a, v % a, (v / a) / b, (v / a) % b);
  }

  lemma QuotientIs(v: nat, a: nat, b: nat, q: nat, r: nat, q': nat, r': nat)
    requires v == a * q + r && r < a && q == b * q' + r' && r' < b
    ensures a * b > 0 && v / (a * b) == q'
  {
    MixedRadix(a, b, q', r', r);
    UniqueQuotient(v, a * b, q', a * r' + r);
  }

  // Byte `k` of the big-endian form.
  lemma {:induction false} BigEndianAt(v: nat, n: nat, k: nat)
    requires k < n
    ensures BigEndian(v, n)[k] == ((v / Pow256(n - 1 - k)) % 256) as byte
  {
    if k < n - 1 {
      BigEndianAt(v / 256, n - 1, k);
      DivideTwice(v, 256, Pow256(n - 2 - k));
    }
  }

  // Wrapping the bit count to 64 bits does not change the bytes of the length field.
  lemma WrapKeepsBytes(v: nat, p: nat, c: nat, m: nat)
    requires p > 0 && m > 0 && m == p * 256 * c
    ensures ((v % m) / p) % 256 == (v / p) % 256
  {
    Division(v, m);
    Division(v % m, p);
    WrapDropsMultiple(v, p, c, v / m, (v % m) / p, (v % m) % p);
  }

  lemma WrapDropsMultiple(v: nat, p: nat, c: nat, q: nat, a: nat, b: nat)
    requires v == p * 256 * c * q + (p * a + b) && b < p
    ensures (v / p) % 256 == a % 256
  {
    assert v == p * (256 * (c * q) + a) + b;
    UniqueQuotient(v, p, 256 * (c * q) + a, b);
    MultipleOf256(c * q, a);
  }

  lemma MultipleOf256(n: nat, a: nat)
    ensures (256 * n + a) % 256 == a % 256
  {
  }

  // The bytes of the shifted length the code writes.
  function LengthByte(len: nat, k: nat): byte
    requires k < LENGTH_BYTES
  {
    (((8 * len) % TWO_TO_THE_64 / Pow256(7 - k)) % 256) as byte
  }

  lemma LengthByteIs(len: nat, k: nat)
    requires k < LENGTH_BYTES
    ensures LengthByte(len, k) == BigEndian(8 * len, LENGTH_BYTES)[k]
  {
    BigEndianAt(8 * len, LENGTH_BYTES, k);
    PowersOf256(k);
    WrapKeepsBytes(8 * len, Pow256(7 - k), Pow256(k), TWO_TO_THE_64);
  }

  lemma {:induction false} PowersOf256(k: nat)
    requires k < LENGTH_BYTES
    decreases LENGTH_BYTES - k
    ensures Pow256(7 - k) * 256 * Pow256(k) == TWO_TO_THE_64
  {
    if k < 7 {
      PowersOf256(k + 1);
    } else {
      assert Pow256(7) == 0x100_0000_0000_0000 by {
        assert Pow256(4) == 0x1_0000_0000;
      }
    }
  }

  // The padded length the code computes is the least multiple of 64 that leaves room for 9 bytes.
  lemma PaddedLengthIs(len: nat)
    ensures (len + 9 + 63) / 64 * 64 == PaddedLength(len)
    ensures PaddedLength(len) % BLOCK_BYTES == 0
    ensures len + 9 <= PaddedLength(len) < len + 9 + BLOCK_BYTES
  {
  }

  // The byte the code puts at position `idx` of the padded message.
  function PaddedByte(data: Bytes, idx: nat): byte
    requires idx < PaddedLength(|data|)
  {
    var padded := PaddedLength(|data|);
    if idx < |data| then data[idx]
    else if idx == |data| then 0x80
    else if idx >= padded - 8 then LengthByte(|data|, idx - (padded - 8))
    else 0
  }

  lemma PaddedByteIs(data: Bytes, idx: nat)
    requires idx < PaddedLength(|data|)
    ensures PaddedByte(data, idx) == Pad(data)[idx]
  {
    var padded := PaddedLength(|data|);
    if idx >= padded - 8 {
      LengthByteIs(|data|, idx - (padded - 8));
    }
  }

  // --- The loops ----------------------------------------------------------------------------

  // The branches that choose the byte at position `idx`.
  method ChooseByte(data: Bytes, idx: nat, paddedLen: nat, bitLen: nat) returns (b: byte)
    requires |data| + 72 <= SIZE_MAX && paddedLen == PaddedLength(|data|) && idx < paddedLen
    requires bitLen == (|data| * 8) % TWO_TO_THE_64
    ensures b == Pad(data)[idx]
  {
    if idx < |data| {
      b := data[idx];
    } else if idx == |data| {
      b := 0x80;
    } else if idx >= paddedLen - 8 {
      b := (bitLen / Pow256(7 - (idx - (paddedLen - 8))) % 256) as byte;
    } else {
      b := 0;
    }
    PaddedByteIs(data, idx);
    assert b == PaddedByte(data, idx);
  }

  method FillBlock(data: Bytes, start: nat, block: array<byte>)
    requires |data| + 72 <= SIZE_MAX
    requires block.Length == BLOCK_BYTES && start + BLOCK_BYTES <= PaddedLength(|data|)
    modifies block
    ensures block[..] == Pad(data)[start..start + BLOCK_BYTES]
  {
    var bitLen := (|data| * 8) % TWO_TO_THE_64;
    var paddedLen := (|data| + 9 + 63) / 64 * 64;
    PaddedLengthIs(|data|);
    for j := 0 to BLOCK_BYTES
      invariant forall k :: 0 <= k < j ==> block[k] == Pad(data)[start + k]
    {
      block[j] := ChooseByte(data, start + j, paddedLen, bitLen);
    }
  }

  // The first `n` words are those of the block's schedule.
  ghost predicate Scheduled(w: seq<word>, n: nat, block: Bytes)
    requires |block| == BLOCK_BYTES && n <= |w|
  {
    forall t :: 0 <= t < n ==> w[t] == Schedule(block, t)
  }

  lemma ExtendScheduled(w: seq<word>, n: nat, block: Bytes)
    requires |block| == BLOCK_BYTES && 16 <= n <= |w| && Scheduled(w, n, block)
    ensures Extend(w[n - 2], w[n - 7], w[n - 15], w[n - 16]) == Schedule(block, n)
  {
  }

  method PrepareSchedule(block: array<byte>, w: array<word>)
    requires block.Length == BLOCK_BYTES && w.Length == ROUNDS
    modifies w
    ensures Scheduled(w[..], ROUNDS, block[..])
  {
    for t := 0 to 16
      invariant Scheduled(w[..], t, block[..])
    {
      w[t] := LoadWord(block, t);
    }
    for t := 16 to ROUNDS
      invariant Scheduled(w[..], t, block[..])
    {
      ExtendScheduled(w[..], t, block[..]);
      w[t] := ScheduleStep(w[t - 16], w[t - 15], w[t - 7], w[t - 2]);
    }
  }

  method LoadWord(block: array<byte>, t: nat) returns (x: word)
    requires block.Length == BLOCK_BYTES && t < 16
    ensures x == BlockWord(block[..], t)
  {
    assert block[..][4 * t..4 * t + 4] == block[4 * t..4 * t + 4];
    LoadIsToWord(block[4 * t..4 * t + 4]);
    x := LoadBe32(block[4 * t..4 * t + 4]);
  }

  method ScheduleStep(w16: word, w15: word, w7: word, w2: word) returns (w: word)
    ensures w == Extend(w2, w7, w15, w16)
  {
    var s0 := ((w15 >> 7) | (w15 << 25)) ^ ((w15 >> 18) | (w15 << 14)) ^ (w15 >> 3);
    var s1 := ((w2 >> 17) | (w2 << 15)) ^ ((w2 >> 19) | (w2 << 13)) ^ (w2 >> 10);
    SmallSigmasByShifts(w15);
    SmallSigmasByShifts(w2);
    SumsInAnyOrder(w16, s0, w7, s1);
    w := w16 + s0 + w7 + s1;
  }

  method RoundStep(v: Working, k: word, w: word) returns (r: Working)
    ensures r == Round(v, k, w)
  {
    var Working(a, b, c, d, e, f, g, hh) := v;
    var s1 := ((e >> 6) | (e << 26)) ^ ((e >> 11) | (e << 21)) ^ ((e >> 25) | (e << 7));
    BigSigmasByShifts(e);
    var ch := (e & f) ^ (!e & g);
    ChoiceAndMajority(e, f, g);
    SumOfFive(hh, s1, ch, k, w);
    var temp1 := hh + s1 + ch + k + w;
    var s0 := ((a >> 2) | (a << 30)) ^ ((a >> 13) | (a << 19)) ^ ((a >> 22) | (a << 10));
    BigSigmasByShifts(a);
    var maj := (a & b) ^ (a & c) ^ (b & c);
    ChoiceAndMajority(a, b, c);
    SumsInAnyOrder(s0, maj, 0, 0);
    var temp2 := s0 + maj;
    hh := g;
    g := f;
    f := e;
    SumsInAnyOrder(d, temp1, 0, 0);
    e := d + temp1;
    d := c;
    c := b;
    b := a;
    SumsInAnyOrder(temp1, temp2, 0, 0);
    a := temp1 + temp2;
    r := Working(a, b, c, d, e, f, g, hh);
  }

  method CompressBlock(h: Working, block: array<byte>, w: array<word>) returns (r: Working)
    requires block.Length == BLOCK_BYTES && w.Length == ROUNDS
    requires Scheduled(w[..], ROUNDS, block[..])
    ensures r == Compress(h, block[..])
  {
    var v := h;
    for t := 0 to ROUNDS
      invariant v == RoundsTo(h, block[..], t)
    {
      v := RoundStep(v, ROUND_CONSTANTS[t], w[t]);
    }
    PlusCommutes(h, v);
    r := h.Plus(v);
  }

  lemma PlusCommutes(x: Working, y: Working)
    ensures x.Plus(y) == y.Plus(x)
  {
  }

  // One iteration of the block loop.
  method AbsorbBlock(data: Bytes, start: nat, h: Working, block: array<byte>) returns (r: Working)
    requires |data| + 72 <= SIZE_MAX
    requires block.Length == BLOCK_BYTES && start + BLOCK_BYTES <= PaddedLength(|data|)
    modifies block
    ensures r == Compress(h, Pad(data)[start..start + BLOCK_BYTES])
  {
    FillBlock(data, start, block);
    var w := new word[ROUNDS](_ => 0);
    PrepareSchedule(block, w);
    r := CompressBlock(h, block, w);
  }

  lemma NextBlock(padded: Bytes, n: nat)
    requires BLOCK_BYTES * (n + 1) <= |padded|
    ensures HashBlocks(padded, n + 1) ==
            Compress(HashBlocks(padded, n), padded[BLOCK_BYTES * n..BLOCK_BYTES * n + BLOCK_BYTES])
  {
  }

  lemma BlockFits(start: nat, n: nat, padded: nat)
    requires start == BLOCK_BYTES * n && start < padded && padded % BLOCK_BYTES == 0
    ensures BLOCK_BYTES * (n + 1) == start + BLOCK_BYTES <= padded
  {
  }

  method HashPadded(data: Bytes) returns (h: Working)
    requires |data| + 72 <= SIZE_MAX
    ensures PaddedLength(|data|) % BLOCK_BYTES == 0
    ensures h == HashBlocks(Pad(data), PaddedLength(|data|) / BLOCK_BYTES)
  {
    var block := new byte[BLOCK_BYTES](_ => 0);
    h := AbsorbAll(data, INITIAL_HASH, block);
  }

  // The block loop.
  method AbsorbAll(data: Bytes, initial: Working, block: array<byte>) returns (h: Working)
    requires |data| + 72 <= SIZE_MAX && block.Length == BLOCK_BYTES && initial == HashBlocks(Pad(data), 0)
    modifies block
    ensures PaddedLength(|data|) % BLOCK_BYTES == 0
    ensures h == HashBlocks(Pad(data), PaddedLength(|data|) / BLOCK_BYTES)
  {
    h := initial;
    var paddedLen := (|data| + 9 + 63) / 64 * 64;
    PaddedLengthIs(|data|);
    var start := 0;
    ghost var n, padded := 0, Pad(data);
    while start < paddedLen
      invariant start == BLOCK_BYTES * n <= paddedLen
      invariant h == HashBlocks(padded, n)
    {
      BlockFits(start, n, paddedLen);
      NextBlock(padded, n);
      h := AbsorbBlock(data, start, h, block);
      start, n := start + BLOCK_BYTES, n + 1;
    }
  }

  method Sha256Impl(data: Bytes) returns (out: Digest)
    requires |data| + 72 <= SIZE_MAX
    ensures out == Sha256(data)
  {
    var h := HashPadded(data);
    out := StoreDigest(h);
  }

  method StoreDigest(h: Working) returns (out: Digest)
    ensures out == Concat(h.Words())
  {
    var bytes: Bytes, words := [], h.Words();
    for i := 0 to 8
      invariant bytes == Concat(words[..i])
    {
      var b := StoreWord(words[i]);
      assert words[..i + 1][..i] == words[..i];
      bytes := bytes + b;
    }
    assert words[..8] == words;
    out := bytes;
  }

  method StoreWord(w: word) returns (b: Bytes)
    ensures b == WordBytes(w)
  {
    StoreIsWordBytes(w);
    b := StoreBe32(w);
  }
}
