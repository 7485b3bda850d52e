/**
 Byte strings of fixed length, and the accumulator loops that compare and erase them.
 A `std::array<uint8_t, N>` is copied by value in the source, so it is a sequence here.
 */
module Bytes {
  type byte = bv8
  type Bytes = seq<byte>

  const CLIENT_ID_LEN := 8
  const NONCE_LEN := 32
  const DIGEST_LEN := 32
  const SESSION_KEY_LEN := 32
  const SIGNATURE_LEN := 64
  const PUBLIC_KEY_LEN := 33

  type ClientId = b: Bytes | |b| == CLIENT_ID_LEN witness seq(CLIENT_ID_LEN, _ => 0)
  type Nonce = b: Bytes | |b| == NONCE_LEN witness seq(NONCE_LEN, _ => 0)
  type Digest = b: Bytes | |b| == DIGEST_LEN witness seq(DIGEST_LEN, _ => 0)
  type SessionKey = b: Bytes | |b| == SESSION_KEY_LEN witness seq(SESSION_KEY_LEN, _ => 0)
  type Signature = b: Bytes | |b| == SIGNATURE_LEN witness seq(SIGNATURE_LEN, _ => 0)
  type PublicKey = b: Bytes | |b| == PUBLIC_KEY_LEN witness seq(PUBLIC_KEY_LEN, _ => 0)

  // A word as it lies in the memory of a little-endian host, and read back from there.
  function LittleEndian(w: bv32): (b: Bytes)
    ensures |b| == 4
  {
    [(w & 0xFF) as byte, ((w >> 8) & 0xFF) as byte, ((w >> 16) & 0xFF) as byte, (w >> 24) as byte]
  }

  function FromLittleEndian(b: Bytes): bv32
    requires |b| == 4
  {
    (b[0] as bv32) | ((b[1] as bv32) << 8) | ((b[2] as bv32) << 16) | ((b[3] as bv32) << 24)
  }

  lemma LittleEndianInjective(x: bv32, y: bv32)
    requires LittleEndian(x) == LittleEndian(y)
    ensures x == y
  {
  }

  lemma LittleEndianZero()
    ensures LittleEndian(0) == Zeros(4)
  {
  }

  // Unsigned 64-bit milliseconds; differences wrap.
  const TWO_TO_THE_64 := 0x1_0000_0000_0000_0000
  type uint64 = t: int | 0 <= t < TWO_TO_THE_64

  function Zeros(n: nat): (b: Bytes)
    ensures |b| == n && forall i :: 0 <= i < n ==> b[i] == 0
  {
    seq(n, _ => 0)
  }

  const ZERO_ID: ClientId := Zeros(CLIENT_ID_LEN)

  lemma OrIsZero(d: byte, x: byte)
    ensures d | x == 0 <==> d == 0 && x == 0
  {
  }

  lemma XorIsZero(x: byte, y: byte)
    ensures x ^ y == 0 <==> x == y
  {
  }

  // The OR-of-XOR accumulator is zero exactly when the two arrays are equal.
  method EqualBytes(a: Bytes, b: Bytes) returns (equal: bool)
    requires |a| == |b|
    ensures equal <==> a == b
  {
    var diff: byte := 0;
    for j := 0 to |a|
      invariant diff == 0 <==> a[..j] == b[..j]
    {
      assert a[..j + 1] == a[..j] + [a[j]];
      assert b[..j + 1] == b[..j] + [b[j]];
      OrIsZero(diff, a[j] ^ b[j]);
      XorIsZero(a[j], b[j]);
      diff := diff | (a[j] ^ b[j]);
    }
    assert a[..|a|] == a && b[..|b|] == b;
    equal := diff == 0;
  }

  // The OR accumulator that recognises the all-zero identifier.
  method IsAllZero(a: Bytes) returns (zero: bool)
    ensures zero <==> a == Zeros(|a|)
  {
    var acc: byte := 0;
    for i := 0 to |a|
      invariant acc == 0 <==> forall k :: 0 <= k < i ==> a[k] == 0
    {
      OrIsZero(acc, a[i]);
      acc := acc | a[i];
    }
    zero := acc == 0;
  }

  // The byte-by-byte erase loop.
  method Erase(a: Bytes) returns (erased: Bytes)
    ensures erased == Zeros(|a|)
  {
    erased := a;
    for i := 0 to |a|
      invariant |erased| == |a|
      invariant forall k :: 0 <= k < i ==> erased[k] == 0
    {
      erased := erased[i := 0];
    }
  }
}
