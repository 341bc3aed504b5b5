/**
  Message padding (src/sha1.rs:38-48), following section 5.1.1 of FIPS 180-4:
  the message, one 0x80 byte, zero bytes, and a 64-bit big-endian length,
  filling a whole number of 64-byte blocks.
 */
module Padding {
  import opened BigEndian

  /** Section 5.1.1 of FIPS 180-4 admits messages of fewer than 2^64 bits. */
  const MaxMessageBytes: nat := 0x2000_0000_0000_0000

  /** The length of the padded buffer for an n-byte message (src/sha1.rs:38-42). */
  function PaddedLength(n: nat): (len: nat)
    ensures len % 64 == 0
    ensures n + 9 <= len <= n + 72
    ensures len / 64 == n / 64 + (if n % 64 <= 55 then 1 else 2)
  {
    if n % 64 > 55 then (n / 64 + 2) * 64 else (n / 64 + 1) * 64
  }

  /** The padded length is the least multiple of 64 with room for the message, 0x80 and the length. */
  lemma PaddedLengthIsLeast(n: nat, m: nat)
    requires m % 64 == 0 && n + 9 <= m
    ensures PaddedLength(n) <= m
  {
    if n % 64 > 55 {
      assert m / 64 >= n / 64 + 2 by {
        assert m >= (n / 64) * 64 + 56 + 9;
      }
    } else {
      assert m / 64 >= n / 64 + 1;
    }
  }

  /** Pow256(8) is 2^64: an eight-byte trailer holds any length below it. */
  lemma TrailerRange()
    ensures Pow256(8) == 0x1_0000_0000_0000_0000
  {
  }

  /**
    The padded buffer for `data` whose last eight bytes carry `trailer` big-endian;
    the buffer is zero everywhere else after the 0x80 marker.
   */
  function PadWith(data: seq<byte>, trailer: nat): (p: seq<byte>)
    requires trailer < 0x1_0000_0000_0000_0000
    ensures |p| == PaddedLength(|data|)
    ensures p[..|data|] == data
    ensures p[|data|] == 0x80
    ensures forall i :: |data| < i < |p| - 8 ==> p[i] == 0
    ensures p[|p| - 8..] == NatToBytes(trailer, 8)
    ensures BytesToNat(p[|p| - 8..]) == trailer
  {
    TrailerRange();
    var zeros: seq<byte> := seq(PaddedLength(|data|) - |data| - 9, _ => 0);
    var tail := NatToBytes(trailer, 8);
    NatToBytesValue(trailer, 8);
    var p := data + [0x80] + zeros + tail;
    assert p[|p| - 8..] == tail;
    assert p[..|data|] == data;
    p
  }

  /**
    The padded buffer of standard SHA-1: the trailer is the message length in
    bits. Departs from src/sha1.rs:48, which writes the length in bytes (see
    PadAsWritten).
   */
  function Pad(data: seq<byte>): (p: seq<byte>)
    requires |data| < MaxMessageBytes
    ensures |p| == PaddedLength(|data|)
    ensures p[..|data|] == data
    ensures p[|data|] == 0x80
    ensures forall i :: |data| < i < |p| - 8 ==> p[i] == 0
    ensures p[|p| - 8..] == NatToBytes(8 * |data|, 8)
    ensures BytesToNat(p[|p| - 8..]) == 8 * |data|
  {
    PadWith(data, 8 * |data|)
  }

  /** The padded buffer exactly as src/sha1.rs:48 builds it: the trailer is `data.len()`, in bytes. */
  function PadAsWritten(data: seq<byte>): (p: seq<byte>)
    requires |data| < 0x1_0000_0000_0000_0000
    ensures |p| == PaddedLength(|data|)
    ensures BytesToNat(p[|p| - 8..]) == |data|
  {
    PadWith(data, |data|)
  }

  /** For every non-empty message the as-written trailer differs from the standard one. */
  lemma AsWrittenTrailerDiffers(data: seq<byte>)
    requires 0 < |data| < MaxMessageBytes
    ensures PadAsWritten(data) != Pad(data)
  {
    var p, q := PadAsWritten(data), Pad(data);
    assert BytesToNat(p[|p| - 8..]) != BytesToNat(q[|q| - 8..]);
  }
}
