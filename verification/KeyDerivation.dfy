/** HMAC as section 2 of RFC 2104 defines it, and HKDF as sections 2.2 and 2.3 of RFC 5869 do, both over SHA-256. */
module KeyDerivation {
  import opened Bytes
  import opened SecureHash

  const INNER_PAD: byte := 0x36
  const OUTER_PAD: byte := 0x5C

  function XorEach(b: Bytes, pad: byte): (x: Bytes)
    ensures |x| == |b|
  {
    seq(|b|, i requires 0 <= i < |b| => b[i] ^ pad)
  }

  // A key longer than a block is hashed; a shorter one is filled up with zeros.
  function BlockKey(key: Bytes): (k: Bytes)
    ensures |k| == BLOCK_BYTES
  {
    var short := if |key| > BLOCK_BYTES then Sha256(key) else key;
    short + Zeros(BLOCK_BYTES - |short|)
  }

  function Hmac(key: Bytes, text: Bytes): Digest {
    Sha256(XorEach(BlockKey(key), OUTER_PAD) + Sha256(XorEach(BlockKey(key), INNER_PAD) + text))
  }

  function Extract(salt: Bytes, input: Bytes): Digest {
    Hmac(salt, input)
  }

  const MAX_OUTPUT_BLOCKS := 255

  // T(n): empty for n = 0, else a MAC of the block before it, the context and the counter octet.
  function OutputBlock(prk: Bytes, info: Bytes, n: nat): (t: Bytes)
    requires n <= MAX_OUTPUT_BLOCKS
    ensures n > 0 ==> |t| == DIGEST_LEN
  {
    if n == 0 then [] else Hmac(prk, OutputBlock(prk, info, n - 1) + info + [n as byte])
  }

  // T(1) | T(2) | ... | T(n).
  function Output(prk: Bytes, info: Bytes, n: nat): (t: Bytes)
    requires n <= MAX_OUTPUT_BLOCKS
    ensures |t| == n * DIGEST_LEN
  {
    if n == 0 then [] else Output(prk, info, n - 1) + OutputBlock(prk, info, n)
  }

  // The first `len` octets of the output, of which ceil(len / 32) blocks are made.
  function Expand(prk: Bytes, info: Bytes, len: nat): (okm: Bytes)
    requires len <= MAX_OUTPUT_BLOCKS * DIGEST_LEN
    ensures |okm| == len
  {
    Output(prk, info, (len + DIGEST_LEN - 1) / DIGEST_LEN)[..len]
  }

  // One block is enough for as many octets as the hash has.
  lemma ExpandOneBlock(prk: Bytes, info: Bytes)
    ensures Expand(prk, info, DIGEST_LEN) == Hmac(prk, info + [1])
  {
    var t := OutputBlock(prk, info, 1);
    assert OutputBlock(prk, info, 0) + info + [1] == info + [1];
    assert Output(prk, info, 1) == Output(prk, info, 0) + t == t;
    assert t[..DIGEST_LEN] == t;
  }

  // A key of digest length on a pre-filled pad block: XOR over the first 32 bytes is the padded key.
  lemma PadOverShortKey(key: Bytes, pad: byte, block: Bytes)
    requires |key| == DIGEST_LEN && |block| == BLOCK_BYTES
    requires forall i :: 0 <= i < DIGEST_LEN ==> block[i] == pad ^ key[i]
    requires forall i :: DIGEST_LEN <= i < BLOCK_BYTES ==> block[i] == pad
    ensures block == XorEach(BlockKey(key), pad)
  {
  }
}
