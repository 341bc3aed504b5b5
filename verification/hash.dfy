/**
  `Sha1::encode` (src/sha1.rs:37-84): pad the message, run every 64-byte block
  through the compression function in order, and serialise the final running
  state big-endian into a twenty-byte digest.
 */
module Hash {
  import opened BigEndian
  import opened Padding
  import opened MessageSchedule
  import opened Compression
  import opened Digest

  /** The schedule of a 64-byte block: its sixteen big-endian words, expanded (src/sha1.rs:50-60). */
  function BlockSchedule(block: seq<byte>): seq<word>
    requires |block| == 64
  {
    Schedule(BytesToWords(block))
  }

  /**
    The schedule of a block starts with its sixteen four-byte groups read
    big-endian (src/sha1.rs:51) and continues by the recurrence (src/sha1.rs:59).
   */
  lemma BlockScheduleWords(block: seq<byte>)
    requires |block| == 64
    ensures IsScheduleOf(BlockSchedule(block), BytesToWords(block))
    ensures forall i :: 0 <= i < 16 ==> BlockSchedule(block)[i] == WordFromBytes(block[4 * i..4 * i + 4])
  {
    var w := BlockSchedule(block);
    assert forall i :: 0 <= i < 16 ==> w[i] == w[..16][i];
  }

  /** The running state after each 64-byte block of p in turn (the loop of src/sha1.rs:50-81). */
  function ProcessBlocks(h: State, p: seq<byte>): State
    requires |p| % 64 == 0
    decreases |p|
  {
    if p == [] then h else ProcessBlocks(ProcessBlock(h, BlockSchedule(p[..64])), p[64..])
  }

  /** Blocks are chained: processing p then q is processing q from the state p leaves. */
  lemma {:induction false} ProcessBlocksAppend(h: State, p: seq<byte>, q: seq<byte>)
    requires |p| % 64 == 0 && |q| % 64 == 0
    ensures ProcessBlocks(h, p + q) == ProcessBlocks(ProcessBlocks(h, p), q)
    decreases |p|
  {
    if p == [] {
      assert p + q == q;
    } else {
      assert (p + q)[..64] == p[..64];
      assert (p + q)[64..] == p[64..] + q;
      ProcessBlocksAppend(ProcessBlock(h, BlockSchedule(p[..64])), p[64..], q);
    }
  }

  /**
    `Sha1::encode` as the code runs it (src/sha1.rs:37-84): pad, compress
    the chunks in a loop, serialise.
   */
  method EncodeByChunks(data: seq<byte>) returns (d: Sha1)
    requires |data| < MaxMessageBytes
    ensures d == Encode(data)
  {
    var p := Pad(data);
    var h := CompressChunks(H0, p);
    d := Serialize(h);
  }

  /**
    The loop of src/sha1.rs:50-81 over a padded buffer: each 64-byte chunk is
    compressed into the running state in turn.
   */
  method CompressChunks(h0: State, p: seq<byte>) returns (h: State)
    requires |p| % 64 == 0
    ensures h == ProcessBlocks(h0, p)
  {
    var m := |p| / 64;
    h := h0;
    for k := 0 to m
      invariant h == ProcessBlocks(h0, p[..64 * k])
    {
      ChunkStep(p, k, h0, h);
      h := CompressBlock(h, BlockSchedule(p[64 * k..64 * k + 64]));
    }
    assert p[..64 * m] == p;
  }

  /** One more chunk: the state after the first 64(k+1) bytes is one compression of the state after 64k. */
  lemma ChunkStep(p: seq<byte>, k: nat, h0: State, h: State)
    requires 64 * k + 64 <= |p|
    requires h == ProcessBlocks(h0, p[..64 * k])
    ensures ProcessBlocks(h0, p[..64 * k + 64]) == ProcessBlock(h, BlockSchedule(p[64 * k..64 * k + 64]))
  {
    var prefix, chunk := p[..64 * k], p[64 * k..64 * k + 64];
    ChunkSplit(p, k);
    ProcessBlocksAppend(h0, prefix, chunk);
    ProcessBlocksOne(h, chunk);
  }

  lemma ChunkSplit(p: seq<byte>, k: nat)
    requires 64 * k + 64 <= |p|
    ensures |p[..64 * k]| % 64 == 0
    ensures p[..64 * k + 64] == p[..64 * k] + p[64 * k..64 * k + 64]
  {
  }

  lemma ProcessBlocksOne(h: State, chunk: seq<byte>)
    requires |chunk| == 64
    ensures ProcessBlocks(h, chunk) == ProcessBlock(h, BlockSchedule(chunk))
  {
    assert chunk[..64] == chunk && chunk[64..] == [];
  }

  /** The twenty bytes of a state: its five words big-endian, a first (src/sha1.rs:82-83). */
  function Serialize(s: State): (d: Sha1)
    ensures BytesToWords(d.bytes) == Words(s)
  {
    WordsBytesRoundTrip(Words(s));
    Sha1(WordsToBytes(Words(s)))
  }

  /** Byte i of a serialised state is byte i % 4, most significant first, of word i / 4. */
  lemma SerializeLayout(s: State)
    ensures forall i :: 0 <= i < 20 ==> Serialize(s).bytes[i] == WordToBytes(Words(s)[i / 4])[i % 4]
  {
    forall i | 0 <= i < 20
      ensures Serialize(s).bytes[i] == WordToBytes(Words(s)[i / 4])[i % 4]
    {
      SerializeByte(s, i / 4, i % 4);
    }
  }

  lemma SerializeByte(s: State, k: nat, j: nat)
    requires k < 5 && j < 4
    ensures Serialize(s).bytes[4 * k + j] == WordToBytes(Words(s)[k])[j]
  {
    var b := Serialize(s).bytes;
    assert b[4 * k..4 * k + 4] == WordToBytes(Words(s)[k]);
    assert b[4 * k + j] == b[4 * k..4 * k + 4][j];
  }

  /** `Sha1::encode`: the digest of a message. */
  function Encode(data: seq<byte>): (d: Sha1)
    requires |data| < MaxMessageBytes
    ensures BytesToWords(d.bytes) == Words(ProcessBlocks(H0, Pad(data)))
  {
    Serialize(ProcessBlocks(H0, Pad(data)))
  }

  /** A message of at most 55 bytes pads to one block, so its digest is one compression of H0. */
  lemma EncodeShortMessage(data: seq<byte>)
    requires |data| <= 55
    ensures |Pad(data)| == 64
    ensures Encode(data) == Serialize(ProcessBlock(H0, BlockSchedule(Pad(data))))
  {
    assert PaddedLength(|data|) == 64;
    var p := Pad(data);
    assert p[..64] == p && p[64..] == [];
    var h := ProcessBlock(H0, BlockSchedule(p));
    assert ProcessBlocks(h, []) == h;
    assert ProcessBlocks(H0, p) == h;
  }
}
