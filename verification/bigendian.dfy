/**
  Byte and word types and the big-endian conversions SHA-1 uses:
  `u32::from_be_bytes`, `u32::to_be_bytes` and `u64::to_be_bytes`.
 */
module BigEndian {

  type byte = bv8
  type word = bv32

  /** 256^k, the number of values k bytes can hold. */
  function Pow256(k: nat): (r: nat)
    ensures r > 0
  {
    if k == 0 then 1 else 256 * Pow256(k - 1)
  }

  /** The unsigned integer a byte string denotes, most significant byte first. */
  function BytesToNat(bs: seq<byte>): nat
  {
    if bs == [] then 0 else BytesToNat(bs[..|bs| - 1]) * 256 + bs[|bs| - 1] as int
  }

  /** `u32::to_be_bytes`: the four bytes of a word, most significant first. */
  function WordToBytes(w: word): (bs: seq<byte>)
    ensures |bs| == 4
  {
    [((w >> 24) & 0xFF) as byte, ((w >> 16) & 0xFF) as byte,
     ((w >> 8) & 0xFF) as byte, (w & 0xFF) as byte]
  }

  /** `u32::from_be_bytes`: the word whose big-endian bytes are `bs`. */
  function WordFromBytes(bs: seq<byte>): word
    requires |bs| == 4
  {
    (bs[0] as word << 24) | (bs[1] as word << 16) | (bs[2] as word << 8) | bs[3] as word
  }

  /** The four bytes of a word are its base-256 digits, most significant first. */
  lemma WordToBytesValue(w: word)
    ensures var bs := WordToBytes(w);
      w == bs[0] as word * 0x100_0000 + bs[1] as word * 0x1_0000 + bs[2] as word * 0x100 + bs[3] as word
  {
  }

  /** The word read from four bytes has them as base-256 digits, most significant first. */
  lemma WordFromBytesValue(bs: seq<byte>)
    requires |bs| == 4
    ensures WordFromBytes(bs) == bs[0] as word * 0x100_0000 + bs[1] as word * 0x1_0000 + bs[2] as word * 0x100 + bs[3] as word
  {
  }

  lemma WordBytesRoundTrip(w: word)
    ensures WordFromBytes(WordToBytes(w)) == w
  {
  }

  lemma BytesWordRoundTrip(bs: seq<byte>)
    requires |bs| == 4
    ensures WordToBytes(WordFromBytes(bs)) == bs
  {
    var r := WordToBytes(WordFromBytes(bs));
    assert r[0] == bs[0] && r[1] == bs[1] && r[2] == bs[2] && r[3] == bs[3];
  }

  lemma {:induction false} Pow256Step(n: nat, k: nat)
    requires 0 < k && n < Pow256(k)
    ensures n / 256 < Pow256(k - 1)
  {
  }

  /**
    The k-byte big-endian encoding of n, least significant byte last; for k == 8
    this is `u64::to_be_bytes`.
   */
  function NatToBytes(n: nat, k: nat): (bs: seq<byte>)
    requires n < Pow256(k)
    ensures |bs| == k
  {
    if k == 0 then []
    else
      Pow256Step(n, k);
      NatToBytes(n / 256, k - 1) + [(n % 256) as byte]
  }

  lemma ByteValue(m: nat)
    requires m < 256
    ensures (m as byte) as int == m
  {
    assert m % 256 == m;
  }

  /** Reading the encoding back gives the number that was encoded. */
  lemma {:induction false} NatToBytesValue(n: nat, k: nat)
    requires n < Pow256(k)
    ensures BytesToNat(NatToBytes(n, k)) == n
  {
    if k > 0 {
      Pow256Step(n, k);
      var hi := NatToBytes(n / 256, k - 1);
      var bs := hi + [(n % 256) as byte];
      assert bs == NatToBytes(n, k);
      assert bs[..k - 1] == hi;
      NatToBytesValue(n / 256, k - 1);
      ByteValue(n % 256);
      calc {
        BytesToNat(bs);
        BytesToNat(hi) * 256 + bs[k - 1] as int;
        (n / 256) * 256 + n % 256;
        n;
      }
    }
  }

  /** `flatten` of `map(u32::to_be_bytes)`: each word as four big-endian bytes, in order. */
  function WordsToBytes(ws: seq<word>): (bs: seq<byte>)
    ensures |bs| == 4 * |ws|
    ensures forall i :: 0 <= i < |ws| ==> bs[4 * i..4 * i + 4] == WordToBytes(ws[i])
  {
    if ws == [] then []
    else
      var rest := WordsToBytes(ws[1..]);
      var r := WordToBytes(ws[0]) + rest;
      assert forall i :: 1 <= i < |ws| ==> r[4 * i..4 * i + 4] == rest[4 * (i - 1)..4 * (i - 1) + 4];
      r
  }

  /** `chunks(4).map(u32::from_be_bytes)`: consecutive four-byte groups read as big-endian words. */
  function BytesToWords(bs: seq<byte>): (ws: seq<word>)
    requires |bs| % 4 == 0
    ensures |ws| == |bs| / 4
    ensures forall i :: 0 <= i < |ws| ==> ws[i] == WordFromBytes(bs[4 * i..4 * i + 4])
  {
    if bs == [] then []
    else
      var rest := BytesToWords(bs[4..]);
      var r := [WordFromBytes(bs[..4])] + rest;
      assert forall i :: 1 <= i < |r| ==> bs[4 * i..4 * i + 4] == bs[4..][4 * (i - 1)..4 * (i - 1) + 4];
      r
  }

  lemma {:induction false} WordsBytesRoundTrip(ws: seq<word>)
    ensures BytesToWords(WordsToBytes(ws)) == ws
  {
    var bs := WordsToBytes(ws);
    var r := BytesToWords(bs);
    forall i | 0 <= i < |ws|
      ensures r[i] == ws[i]
    {
      WordBytesRoundTrip(ws[i]);
    }
  }

  lemma {:induction false} BytesWordsRoundTrip(bs: seq<byte>)
    requires |bs| % 4 == 0
    ensures WordsToBytes(BytesToWords(bs)) == bs
  {
    var ws := BytesToWords(bs);
    var r := WordsToBytes(ws);
    forall i | 0 <= i < |ws|
      ensures r[4 * i..4 * i + 4] == bs[4 * i..4 * i + 4]
    {
      assert ws[i] == WordFromBytes(bs[4 * i..4 * i + 4]);
      assert r[4 * i..4 * i + 4] == WordToBytes(ws[i]);
      BytesWordRoundTrip(bs[4 * i..4 * i + 4]);
    }
    forall k | 0 <= k < |bs|
      ensures r[k] == bs[k]
    {
      var i := k / 4;
      assert r[k] == r[4 * i..4 * i + 4][k - 4 * i];
      assert bs[k] == bs[4 * i..4 * i + 4][k - 4 * i];
    }
  }
}
