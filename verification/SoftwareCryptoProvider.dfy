/** The software platform: a shift register for nonces, SHA-256, a mock signature and HKDF keys. */
module SoftwareCrypto {
  import opened Bytes
  import opened SessionTable
  import opened Handshake
  import RegisterWords
  import opened Lfsr
  import opened Nonces
  import opened SecureHash
  import opened KeyDerivation
  import opened Sha256Software

  const MASTER_SALT: Digest := [
    0xA3, 0x7F, 0x92, 0xD1, 0xE4, 0x05, 0xB8, 0xC6, 0x2A, 0xF3, 0x19, 0x88, 0x4E, 0xD7, 0x60, 0x3B,
    0x11, 0xFC, 0x22, 0x59, 0x87, 0xAE, 0xD4, 0xC0, 0x53, 0x7A, 0xE9, 0xB2, 0x6E, 0x14, 0xF8, 0x9D]

  // "zzta-session-v1" in ASCII.
  const INFO: Bytes := [0x7A, 0x7A, 0x74, 0x61, 0x2D, 0x73, 0x65, 0x73, 0x73, 0x69, 0x6F, 0x6E, 0x2D, 0x76, 0x31]

  const MOCK_PUBLIC_KEY: PublicKey := [
    0x02,
    0x6B, 0x17, 0xD1, 0xF2, 0xE1, 0x2C, 0x42, 0x47, 0xF8, 0xBC, 0xE6, 0xE5, 0x63, 0xA4, 0x40, 0xF2,
    0x77, 0x03, 0x7D, 0x81, 0x2D, 0xEB, 0x33, 0xA0, 0xF4, 0xA1, 0x39, 0x45, 0xD8, 0x98, 0xC2, 0x96]

  // --- What the platform computes -----------------------------------------------------------

  function Seeded(seed: bv32): bv32 {
    if seed != 0 then seed else 1
  }

  // The one signature of a digest: two hashes over the digest and the salt.
  function MockSignature(digest: Digest): Signature {
    Sha256(digest + MASTER_SALT) + Sha256(MASTER_SALT + digest)
  }

  function Verdict(digest: Digest, signature: Signature, key: PublicKey): CryptoStatus {
    if key == MOCK_PUBLIC_KEY && signature == MockSignature(digest) then CryptoOk else VerifyFailed
  }

  function DerivedKey(nonce: Nonce, c: ClientId): SessionKey {
    Expand(Extract(MASTER_SALT, nonce + c), INFO, SESSION_KEY_LEN)
  }

  // The first half hashes the digest before the salt, the second the salt before the digest.
  lemma SignatureHalves(digest: Digest, signature: Signature)
    ensures signature == MockSignature(digest) <==>
            signature[..32] == Sha256(digest + MASTER_SALT) && signature[32..] == Sha256(MASTER_SALT + digest)
  {
    assert signature == signature[..32] + signature[32..];
  }

  // The session key is two MACs: one of nonce and id under the salt, one of the context under its result.
  lemma DerivedKeyIsTwoMacs(nonce: Nonce, c: ClientId)
    ensures DerivedKey(nonce, c) == Hmac(Hmac(MASTER_SALT, nonce + c), INFO + [1])
  {
    ExpandOneBlock(Hmac(MASTER_SALT, nonce + c), INFO);
  }

  function HashAnswer(data: Bytes): (CryptoStatus, Digest) {
    if data == [] then (CryptoInvalidParam, Zeros(DIGEST_LEN)) else (CryptoOk, Sha256(data))
  }

  class SoftwareCryptoProvider {
    var lfsr: bv32

    constructor (seed: bv32)
      ensures lfsr == Seeded(seed)
      ensures seed != 0 ==> lfsr == seed
      ensures seed == 0 ==> lfsr == 1
    {
      lfsr := if seed != 0 then seed else 1;
    }

    method LfsrNext() returns (word: bv32)
      modifies this
      ensures lfsr == RegisterWords.Next(old(lfsr)) && word == lfsr
    {
      RegisterWords.NextIsMasked(lfsr);
      var lsb := lfsr & 1;
      lfsr := lfsr >> 1;
      if lsb != 0 {
        lfsr := lfsr ^ 0xB400_0000;
      }
      word := lfsr;
    }

    method GenerateRandomNonce() returns (status: CryptoStatus, nonce: Nonce)
      modifies this
      ensures status == CryptoOk && nonce == NonceFrom(old(lfsr)) && lfsr == Steps(WORDS_PER_NONCE, old(lfsr))
    {
      var bytes: Bytes := [];
      for i := 0 to WORDS_PER_NONCE
        invariant bytes == Words(old(lfsr), i)
        invariant lfsr == Steps(i, old(lfsr))
      {
        var word := LfsrNext();
        bytes := bytes + LittleEndian(word);
      }
      return CryptoOk, bytes;
    }

    // The digest buffer is left alone when there is nothing to hash.
    method ComputeSha256(data: Option<Bytes>, digestIn: Digest) returns (status: CryptoStatus, digest: Digest)
      requires data.Some? ==> |data.value| + 72 <= SIZE_MAX
      ensures data == None || data.value == [] ==> status == CryptoInvalidParam && digest == digestIn
      ensures data.Some? && data.value != [] ==> status == CryptoOk && digest == Sha256(data.value)
    {
      if data == None || |data.value| == 0 {
        return CryptoInvalidParam, digestIn;
      }
      digest := Sha256Impl(data.value);
      return CryptoOk, digest;
    }

    method VerifyEccSignature(digest: Digest, signature: Signature, publicKey: PublicKey) returns (status: CryptoStatus)
      ensures status == Verdict(digest, signature, publicKey)
      ensures status == CryptoOk || status == VerifyFailed
      ensures status == CryptoOk <==>
              && publicKey == MOCK_PUBLIC_KEY
              && signature[..32] == Sha256(digest + MASTER_SALT)
              && signature[32..] == Sha256(MASTER_SALT + digest)
    {
      var known := EqualBytes(publicKey, MOCK_PUBLIC_KEY);
      if !known {
        return VerifyFailed;
      }
      var r := Sha256Impl(digest + MASTER_SALT);
      var s := Sha256Impl(MASTER_SALT + digest);
      var same := EqualHalves(signature, r, s);
      SignatureHalves(digest, signature);
      return if same then CryptoOk else VerifyFailed;
    }

    method DeriveSessionKey(nonce: Nonce, c: ClientId) returns (status: CryptoStatus, key: SessionKey)
      ensures status == CryptoOk && key == DerivedKey(nonce, c)
      ensures key == Hmac(Hmac(MASTER_SALT, nonce + c), INFO + [1])
    {
      var prk := ExtractStage(nonce, c);
      key := ExpandStage(prk);
      status := CryptoOk;
      DerivedKeyIsTwoMacs(nonce, c);
    }

    method ExtractStage(nonce: Nonce, c: ClientId) returns (prk: Digest)
      ensures prk == Extract(MASTER_SALT, nonce + c)
    {
      var ipad, opad := XorPads(MASTER_SALT);
      assert ipad + nonce + c == ipad + (nonce + c);
      var inner := Sha256Impl(ipad + nonce + c);
      prk := Sha256Impl(opad + inner);
    }

    method ExpandStage(prk: Digest) returns (okm: Digest)
      ensures okm == Expand(prk, INFO, SESSION_KEY_LEN)
    {
      var ipad, opad := XorPads(prk);
      assert ipad + INFO + [1] == ipad + (INFO + [1]);
      var inner := Sha256Impl(ipad + INFO + [1]);
      okm := Sha256Impl(opad + inner);
      ExpandOneBlock(prk, INFO);
    }

    // One accumulator over both halves of the signature.
    method EqualHalves(signature: Signature, r: Digest, s: Digest) returns (same: bool)
      ensures same <==> signature == r + s
    {
      var diff: byte := 0;
      for i := 0 to DIGEST_LEN
        invariant diff == 0 <==>
                  forall k :: 0 <= k < i ==> signature[k] == r[k] && signature[k + DIGEST_LEN] == s[k]
      {
        OrIsZero(diff, signature[i] ^ r[i]);
        XorIsZero(signature[i], r[i]);
        diff := diff | (signature[i] ^ r[i]);
        OrIsZero(diff, signature[i + DIGEST_LEN] ^ s[i]);
        XorIsZero(signature[i + DIGEST_LEN], s[i]);
        diff := diff | (signature[i + DIGEST_LEN] ^ s[i]);
      }
      same := diff == 0;
      HalvesEqual(signature, r, s);
    }

    method XorPads(key: Digest) returns (ipad: Bytes, opad: Bytes)
      ensures ipad == XorEach(BlockKey(key), INNER_PAD) && opad == XorEach(BlockKey(key), OUTER_PAD)
    {
      var inner := new byte[BLOCK_BYTES](_ => 0x36);
      var outer := new byte[BLOCK_BYTES](_ => 0x5C);
      for i := 0 to DIGEST_LEN
        invariant forall k :: 0 <= k < i ==> inner[k] == INNER_PAD ^ key[k] && outer[k] == OUTER_PAD ^ key[k]
        invariant forall k :: i <= k < BLOCK_BYTES ==> inner[k] == INNER_PAD && outer[k] == OUTER_PAD
      {
        inner[i] := inner[i] ^ key[i];
        outer[i] := outer[i] ^ key[i];
      }
      ipad, opad := inner[..], outer[..];
      PadOverShortKey(key, INNER_PAD, ipad);
      PadOverShortKey(key, OUTER_PAD, opad);
    }
  }

  lemma HalvesEqual(signature: Signature, r: Digest, s: Digest)
    ensures signature == r + s <==>
            forall k :: 0 <= k < DIGEST_LEN ==> signature[k] == r[k] && signature[k + DIGEST_LEN] == s[k]
  {
  }
}
