/**
  A worked known answer: the digest of "hello world", the message of the test
  at src/sha1.rs:140-144. Every intermediate value of the standard algorithm
  (the padded block's words, the schedule, the working state after each
  twenty rounds) is stated and checked, and the same schedule run through the
  as-written fold of src/sha1.rs:79 is shown to end in a different state.
 */
module KnownAnswers {
  import opened BigEndian
  import opened Padding
  import opened MessageSchedule
  import opened Compression
  import opened Digest
  import opened Hash

  /** The bytes of "hello world". */
  const HelloWorld: seq<byte> := [0x68, 0x65, 0x6C, 0x6C, 0x6F, 0x20, 0x77, 0x6F, 0x72, 0x6C, 0x64]

  /** The expected text of the test at src/sha1.rs:140-144. */
  const HelloWorldDigest: string := "2AAE6C35C94FCFB415DBE95F408B9CE91EE846ED"

  // ---------------------------------------------------------------------------
  // Padding: one block holding the message, 0x80, zeros and the bit length 88.
  // ---------------------------------------------------------------------------

  lemma {:induction false} NatToBytesZero(k: nat)
    ensures NatToBytes(0, k) == Zeros(k)
  {
    if k > 0 {
      NatToBytesZero(k - 1);
      assert Zeros(k) == Zeros(k - 1) + [0];
    }
  }

  /** A number below 256 encodes as k - 1 zero bytes and then itself. */
  lemma NatToBytesSmall(n: nat, k: nat)
    requires n < 256 && 0 < k
    ensures NatToBytes(n, k) == Zeros(k - 1) + [n as byte]
  {
    NatToBytesZero(k - 1);
  }

  /** A message shorter than 32 bytes has a bit length below 256: seven zero bytes, then that length. */
  lemma PadTrailerShort(data: seq<byte>)
    requires |data| < 32
    ensures |Pad(data)| == 64
    ensures Pad(data)[56..] == Zeros(7) + [(8 * |data|) as byte]
  {
    var n := |data|;
    assert n / 64 == 0 && n % 64 == n;
    assert PaddedLength(n) == 64;
    NatToBytesSmall(8 * n, 8);
  }

  lemma HelloWorldHeadWords()
    ensures |Pad(HelloWorld)| == 64
    ensures var ws := BytesToWords(Pad(HelloWorld));
      ws[0] == 0x68656C6C && ws[1] == 0x6F20776F && ws[2] == 0x726C6480
  {
    var p := Pad(HelloWorld);
    var ws := BytesToWords(p);
    assert p[..11] == HelloWorld;
    assert p[0..4] == HelloWorld[0..4] == [0x68, 0x65, 0x6C, 0x6C];
    assert p[4..8] == HelloWorld[4..8] == [0x6F, 0x20, 0x77, 0x6F];
    assert p[8..12] == HelloWorld[8..11] + [0x80] == [0x72, 0x6C, 0x64, 0x80];
    assert ws[0] == WordFromBytes(p[0..4]) && ws[1] == WordFromBytes(p[4..8]) && ws[2] == WordFromBytes(p[8..12]);
  }

  lemma HelloWorldZeroWords()
    ensures |Pad(HelloWorld)| == 64
    ensures var ws := BytesToWords(Pad(HelloWorld));
      forall i :: 3 <= i < 14 ==> ws[i] == 0
  {
    var p := Pad(HelloWorld);
    var ws := BytesToWords(p);
    forall i | 3 <= i < 14
      ensures ws[i] == 0
    {
      assert p[4 * i..4 * i + 4] == [0, 0, 0, 0];
    }
  }

  lemma HelloWorldTrailerWords()
    ensures |Pad(HelloWorld)| == 64
    ensures var ws := BytesToWords(Pad(HelloWorld));
      ws[14] == 0 && ws[15] == 0x58
  {
    PadTrailerShort(HelloWorld);
    assert (8 * |HelloWorld|) as byte == 0x58;
    TrailerWords(Pad(HelloWorld), 0x58);
  }

  /** A block whose last eight bytes are seven zeros and then x ends in the words 0 and x. */
  lemma TrailerWords(p: seq<byte>, x: byte)
    requires |p| == 64 && p[56..] == Zeros(7) + [x]
    ensures BytesToWords(p)[14] == 0 && BytesToWords(p)[15] == x as word
  {
    assert p[56..60] == [0, 0, 0, 0];
    assert p[60..64] == [0, 0, 0, x];
    var ws := BytesToWords(p);
    assert ws[14] == WordFromBytes(p[56..60]) && ws[15] == WordFromBytes(p[60..64]);
  }

  // ---------------------------------------------------------------------------
  // The schedule, eight words at a time.
  // ---------------------------------------------------------------------------

  /** The schedule of the padded block. */
  const HelloWorldSchedule: seq<word> := BlockSchedule(Pad(HelloWorld))

  /** The sixteen big-endian words of the padded "hello world" block. */
  ghost predicate IsHelloWorldBlock(block: seq<word>)
  {
    && |block| == 16
    && block[0] == 0x68656C6C && block[1] == 0x6F20776F && block[2] == 0x726C6480 && block[3] == 0x00000000
    && block[4] == 0x00000000 && block[5] == 0x00000000 && block[6] == 0x00000000 && block[7] == 0x00000000
    && block[8] == 0x00000000 && block[9] == 0x00000000 && block[10] == 0x00000000 && block[11] == 0x00000000
    && block[12] == 0x00000000 && block[13] == 0x00000000 && block[14] == 0x00000000 && block[15] == 0x00000058
  }

  lemma HelloWorldBlockWords()
    ensures |Pad(HelloWorld)| == 64
    ensures IsHelloWorldBlock(BytesToWords(Pad(HelloWorld)))
  {
    HelloWorldHeadWords();
    HelloWorldZeroWords();
    HelloWorldTrailerWords();
  }

  /** One step of the recurrence of src/sha1.rs:59, on given earlier words. */
  lemma ScheduleStepAt(w: seq<word>, block: seq<word>, i: nat, a: word, b: word, c: word, d: word)
    requires IsScheduleOf(w, block) && 16 <= i < 80
    requires w[i - 3] == a && w[i - 8] == b && w[i - 14] == c && w[i - 16] == d
    ensures w[i] == (a ^ b ^ c ^ d).RotateLeft(1)
  {
    ScheduleRecurrence(w, block, i);
  }

  lemma HelloWorldSchedule0To15(w: seq<word>, block: seq<word>)
    requires IsScheduleOf(w, block) && IsHelloWorldBlock(block)
    ensures w[0] == 0x68656C6C && w[1] == 0x6F20776F && w[2] == 0x726C6480 && w[3] == 0x00000000
      && w[4] == 0x00000000 && w[5] == 0x00000000 && w[6] == 0x00000000 && w[7] == 0x00000000
      && w[8] == 0x00000000 && w[9] == 0x00000000 && w[10] == 0x00000000 && w[11] == 0x00000000
      && w[12] == 0x00000000 && w[13] == 0x00000000 && w[14] == 0x00000000 && w[15] == 0x00000058
  {
    assert forall i :: 0 <= i < 16 ==> w[i] == w[..16][i];
  }

  lemma HelloWorldSchedule16To23(w: seq<word>, block: seq<word>)
    requires IsScheduleOf(w, block) && IsHelloWorldBlock(block)
    ensures w[16] == 0x341211D8 && w[17] == 0xDE40EEDE && w[18] == 0xE4D8C9B0 && w[19] == 0x682423B0
      && w[20] == 0xBC81DDBD && w[21] == 0xC9B19361 && w[22] == 0xD0484760 && w[23] == 0x7903BBCB
  {
    HelloWorldSchedule0To15(w, block);
    ScheduleStepAt(w, block, 16, 0x00000000, 0x00000000, 0x726C6480, 0x68656C6C);
    ScheduleStepAt(w, block, 17, 0x00000000, 0x00000000, 0x00000000, 0x6F20776F);
    ScheduleStepAt(w, block, 18, 0x00000058, 0x00000000, 0x00000000, 0x726C6480);
    ScheduleStepAt(w, block, 19, 0x341211D8, 0x00000000, 0x00000000, 0x00000000);
    ScheduleStepAt(w, block, 20, 0xDE40EEDE, 0x00000000, 0x00000000, 0x00000000);
    ScheduleStepAt(w, block, 21, 0xE4D8C9B0, 0x00000000, 0x00000000, 0x00000000);
    ScheduleStepAt(w, block, 22, 0x682423B0, 0x00000000, 0x00000000, 0x00000000);
    ScheduleStepAt(w, block, 23, 0xBC81DDBD, 0x00000058, 0x00000000, 0x00000000);
  }

  lemma HelloWorldSchedule24To31(w: seq<word>, block: seq<word>)
    requires IsScheduleOf(w, block) && IsHelloWorldBlock(block)
    ensures w[24] == 0xFB470573 && w[25] == 0x1C11537C && w[26] == 0x3BB6E4F7 && w[27] == 0x26C64D87
      && w[28] == 0x41211D83 && w[29] == 0xE40EEF9D && w[30] == 0x8538367F && w[31] == 0xCCC4919D
  {
    HelloWorldSchedule0To15(w, block);
    HelloWorldSchedule16To23(w, block);
    ScheduleStepAt(w, block, 24, 0xC9B19361, 0x341211D8, 0x00000000, 0x00000000);
    ScheduleStepAt(w, block, 25, 0xD0484760, 0xDE40EEDE, 0x00000000, 0x00000000);
    ScheduleStepAt(w, block, 26, 0x7903BBCB, 0xE4D8C9B0, 0x00000000, 0x00000000);
    ScheduleStepAt(w, block, 27, 0xFB470573, 0x682423B0, 0x00000000, 0x00000000);
    ScheduleStepAt(w, block, 28, 0x1C11537C, 0xBC81DDBD, 0x00000000, 0x00000000);
    ScheduleStepAt(w, block, 29, 0x3BB6E4F7, 0xC9B19361, 0x00000058, 0x00000000);
    ScheduleStepAt(w, block, 30, 0x26C64D87, 0xD0484760, 0x341211D8, 0x00000000);
    ScheduleStepAt(w, block, 31, 0x41211D83, 0x7903BBCB, 0xDE40EEDE, 0x00000058);
  }

  lemma HelloWorldSchedule32To39(w: seq<word>, block: seq<word>)
    requires IsScheduleOf(w, block) && IsHelloWorldBlock(block)
    ensures w[32] == 0x9F06650D && w[33] == 0x5E9B50DA && w[34] == 0x5E56C2CF && w[35] == 0x30AB30B6
      && w[36] == 0xE6E7AF08 && w[37] == 0x15D40BF0 && w[38] == 0x3D3889B5 && w[39] == 0x9E63AC44
  {
    HelloWorldSchedule16To23(w, block);
    HelloWorldSchedule24To31(w, block);
    ScheduleStepAt(w, block, 32, 0xE40EEF9D, 0xFB470573, 0xE4D8C9B0, 0x341211D8);
    ScheduleStepAt(w, block, 33, 0x8538367F, 0x1C11537C, 0x682423B0, 0xDE40EEDE);
    ScheduleStepAt(w, block, 34, 0xCCC4919D, 0x3BB6E4F7, 0xBC81DDBD, 0xE4D8C9B0);
    ScheduleStepAt(w, block, 35, 0x9F06650D, 0x26C64D87, 0xC9B19361, 0x682423B0);
    ScheduleStepAt(w, block, 36, 0x5E9B50DA, 0x41211D83, 0xD0484760, 0xBC81DDBD);
    ScheduleStepAt(w, block, 37, 0x5E56C2CF, 0xE40EEF9D, 0x7903BBCB, 0xC9B19361);
    ScheduleStepAt(w, block, 38, 0x30AB30B6, 0x8538367F, 0xFB470573, 0xD0484760);
    ScheduleStepAt(w, block, 39, 0xE6E7AF08, 0xCCC4919D, 0x1C11537C, 0x7903BBCB);
  }

  lemma HelloWorldSchedule40To47(w: seq<word>, block: seq<word>)
    requires IsScheduleOf(w, block) && IsHelloWorldBlock(block)
    ensures w[40] == 0x94471EF2 && w[41] == 0xB2E98F28 && w[42] == 0x75452FFF && w[43] == 0xCC4918BC
      && w[44] == 0x202E17B9 && w[45] == 0x90B6B41E && w[46] == 0xD69F84F7 && w[47] == 0x5824F574
  {
    HelloWorldSchedule24To31(w, block);
    HelloWorldSchedule32To39(w, block);
    ScheduleStepAt(w, block, 40, 0x15D40BF0, 0x9F06650D, 0x3BB6E4F7, 0xFB470573);
    ScheduleStepAt(w, block, 41, 0x3D3889B5, 0x5E9B50DA, 0x26C64D87, 0x1C11537C);
    ScheduleStepAt(w, block, 42, 0x9E63AC44, 0x5E56C2CF, 0x41211D83, 0x3BB6E4F7);
    ScheduleStepAt(w, block, 43, 0x94471EF2, 0x30AB30B6, 0xE40EEF9D, 0x26C64D87);
    ScheduleStepAt(w, block, 44, 0xB2E98F28, 0xE6E7AF08, 0x8538367F, 0x41211D83);
    ScheduleStepAt(w, block, 45, 0x75452FFF, 0x15D40BF0, 0xCCC4919D, 0xE40EEF9D);
    ScheduleStepAt(w, block, 46, 0xCC4918BC, 0x3D3889B5, 0x9F06650D, 0x8538367F);
    ScheduleStepAt(w, block, 47, 0x202E17B9, 0x9E63AC44, 0x5E9B50DA, 0xCCC4919D);
  }

  lemma HelloWorldSchedule48To55(w: seq<word>, block: seq<word>)
    requires IsScheduleOf(w, block) && IsHelloWorldBlock(block)
    ensures w[48] == 0x8B421A5D && w[49] == 0x148CD766 && w[50] == 0x2BA16E99 && w[51] == 0xC4E8734E
      && w[52] == 0xDEFBCCC5 && w[53] == 0x6140FA66 && w[54] == 0x7610C1FD && w[55] == 0x54AA35BB
  {
    HelloWorldSchedule32To39(w, block);
    HelloWorldSchedule40To47(w, block);
    ScheduleStepAt(w, block, 48, 0x90B6B41E, 0x94471EF2, 0x5E56C2CF, 0x9F06650D);
    ScheduleStepAt(w, block, 49, 0xD69F84F7, 0xB2E98F28, 0x30AB30B6, 0x5E9B50DA);
    ScheduleStepAt(w, block, 50, 0x5824F574, 0x75452FFF, 0xE6E7AF08, 0x5E56C2CF);
    ScheduleStepAt(w, block, 51, 0x8B421A5D, 0xCC4918BC, 0x15D40BF0, 0x30AB30B6);
    ScheduleStepAt(w, block, 52, 0x148CD766, 0x202E17B9, 0x3D3889B5, 0xE6E7AF08);
    ScheduleStepAt(w, block, 53, 0x2BA16E99, 0x90B6B41E, 0x9E63AC44, 0x15D40BF0);
    ScheduleStepAt(w, block, 54, 0xC4E8734E, 0xD69F84F7, 0x94471EF2, 0x3D3889B5);
    ScheduleStepAt(w, block, 55, 0xDEFBCCC5, 0x5824F574, 0xB2E98F28, 0x9E63AC44);
  }

  lemma HelloWorldSchedule56To63(w: seq<word>, block: seq<word>)
    requires IsScheduleOf(w, block) && IsHelloWorldBlock(block)
    ensures w[56] == 0x1601A26C && w[57] == 0x3879021E && w[58] == 0x54C0C6C8 && w[59] == 0x1C2CFB01
      && w[60] == 0x2066BB2A && w[61] == 0xFA24FB89 && w[62] == 0x6FC348AC && w[63] == 0x70C95906
  {
    HelloWorldSchedule40To47(w, block);
    HelloWorldSchedule48To55(w, block);
    ScheduleStepAt(w, block, 56, 0x6140FA66, 0x8B421A5D, 0x75452FFF, 0x94471EF2);
    ScheduleStepAt(w, block, 57, 0x7610C1FD, 0x148CD766, 0xCC4918BC, 0xB2E98F28);
    ScheduleStepAt(w, block, 58, 0x54AA35BB, 0x2BA16E99, 0x202E17B9, 0x75452FFF);
    ScheduleStepAt(w, block, 59, 0x1601A26C, 0xC4E8734E, 0x90B6B41E, 0xCC4918BC);
    ScheduleStepAt(w, block, 60, 0x3879021E, 0xDEFBCCC5, 0xD69F84F7, 0x202E17B9);
    ScheduleStepAt(w, block, 61, 0x54C0C6C8, 0x6140FA66, 0x5824F574, 0x90B6B41E);
    ScheduleStepAt(w, block, 62, 0x1C2CFB01, 0x7610C1FD, 0x8B421A5D, 0xD69F84F7);
    ScheduleStepAt(w, block, 63, 0x2066BB2A, 0x54AA35BB, 0x148CD766, 0x5824F574);
  }

  lemma HelloWorldSchedule64To71(w: seq<word>, block: seq<word>)
    requires IsScheduleOf(w, block) && IsHelloWorldBlock(block)
    ensures w[64] == 0x998C5A42 && w[65] == 0x0FBDDD35 && w[66] == 0xA2A67B25 && w[67] == 0x401050D6
      && w[68] == 0x0E60D64F && w[69] == 0xDAD09EE2 && w[70] == 0x9F84F7D6 && w[71] == 0x24F571D8
  {
    HelloWorldSchedule48To55(w, block);
    HelloWorldSchedule56To63(w, block);
    ScheduleStepAt(w, block, 64, 0xFA24FB89, 0x1601A26C, 0x2BA16E99, 0x8B421A5D);
    ScheduleStepAt(w, block, 65, 0x6FC348AC, 0x3879021E, 0xC4E8734E, 0x148CD766);
    ScheduleStepAt(w, block, 66, 0x70C95906, 0x54C0C6C8, 0xDEFBCCC5, 0x2BA16E99);
    ScheduleStepAt(w, block, 67, 0x998C5A42, 0x1C2CFB01, 0x6140FA66, 0xC4E8734E);
    ScheduleStepAt(w, block, 68, 0x0FBDDD35, 0x2066BB2A, 0x7610C1FD, 0xDEFBCCC5);
    ScheduleStepAt(w, block, 69, 0xA2A67B25, 0xFA24FB89, 0x54AA35BB, 0x6140FA66);
    ScheduleStepAt(w, block, 70, 0x401050D6, 0x6FC348AC, 0x1601A26C, 0x7610C1FD);
    ScheduleStepAt(w, block, 71, 0x0E60D64F, 0x70C95906, 0x3879021E, 0x54AA35BB);
  }

  lemma HelloWorldSchedule72To79(w: seq<word>, block: seq<word>)
    requires IsScheduleOf(w, block) && IsHelloWorldBlock(block)
    ensures w[72] == 0x033B4008 && w[73] == 0x68D9A7F9 && w[74] == 0xE5EAEE3F && w[75] == 0x4A4620AD
      && w[76] == 0x52390460 && w[77] == 0x6BAFA4A5 && w[78] == 0x471B8B2A && w[79] == 0x1371E316
  {
    HelloWorldSchedule56To63(w, block);
    HelloWorldSchedule64To71(w, block);
    ScheduleStepAt(w, block, 72, 0xDAD09EE2, 0x998C5A42, 0x54C0C6C8, 0x1601A26C);
    ScheduleStepAt(w, block, 73, 0x9F84F7D6, 0x0FBDDD35, 0x1C2CFB01, 0x3879021E);
    ScheduleStepAt(w, block, 74, 0x24F571D8, 0xA2A67B25, 0x2066BB2A, 0x54C0C6C8);
    ScheduleStepAt(w, block, 75, 0x033B4008, 0x401050D6, 0xFA24FB89, 0x1C2CFB01);
    ScheduleStepAt(w, block, 76, 0x68D9A7F9, 0x0E60D64F, 0x6FC348AC, 0x2066BB2A);
    ScheduleStepAt(w, block, 77, 0xE5EAEE3F, 0xDAD09EE2, 0x70C95906, 0xFA24FB89);
    ScheduleStepAt(w, block, 78, 0x4A4620AD, 0x9F84F7D6, 0x998C5A42, 0x6FC348AC);
    ScheduleStepAt(w, block, 79, 0x52390460, 0x24F571D8, 0x0FBDDD35, 0x70C95906);
  }

  lemma HelloWorldScheduleOfBlock()
    ensures |Pad(HelloWorld)| == 64
    ensures var block := BytesToWords(Pad(HelloWorld));
      IsScheduleOf(HelloWorldSchedule, block) && IsHelloWorldBlock(block)
  {
    HelloWorldBlockWords();
  }

  /** All eighty words of any schedule of the "hello world" block. */
  lemma HelloWorldScheduleAll(w: seq<word>, block: seq<word>)
    requires IsScheduleOf(w, block) && IsHelloWorldBlock(block)
    ensures w[0] == 0x68656C6C && w[1] == 0x6F20776F && w[2] == 0x726C6480 && w[3] == 0x00000000
      && w[4] == 0x00000000 && w[5] == 0x00000000 && w[6] == 0x00000000 && w[7] == 0x00000000
      && w[8] == 0x00000000 && w[9] == 0x00000000 && w[10] == 0x00000000 && w[11] == 0x00000000
      && w[12] == 0x00000000 && w[13] == 0x00000000 && w[14] == 0x00000000 && w[15] == 0x00000058
      && w[16] == 0x341211D8 && w[17] == 0xDE40EEDE && w[18] == 0xE4D8C9B0 && w[19] == 0x682423B0
      && w[20] == 0xBC81DDBD && w[21] == 0xC9B19361 && w[22] == 0xD0484760 && w[23] == 0x7903BBCB
      && w[24] == 0xFB470573 && w[25] == 0x1C11537C && w[26] == 0x3BB6E4F7 && w[27] == 0x26C64D87
      && w[28] == 0x41211D83 && w[29] == 0xE40EEF9D && w[30] == 0x8538367F && w[31] == 0xCCC4919D
      && w[32] == 0x9F06650D && w[33] == 0x5E9B50DA && w[34] == 0x5E56C2CF && w[35] == 0x30AB30B6
      && w[36] == 0xE6E7AF08 && w[37] == 0x15D40BF0 && w[38] == 0x3D3889B5 && w[39] == 0x9E63AC44
      && w[40] == 0x94471EF2 && w[41] == 0xB2E98F28 && w[42] == 0x75452FFF && w[43] == 0xCC4918BC
      && w[44] == 0x202E17B9 && w[45] == 0x90B6B41E && w[46] == 0xD69F84F7 && w[47] == 0x5824F574
      && w[48] == 0x8B421A5D && w[49] == 0x148CD766 && w[50] == 0x2BA16E99 && w[51] == 0xC4E8734E
      && w[52] == 0xDEFBCCC5 && w[53] == 0x6140FA66 && w[54] == 0x7610C1FD && w[55] == 0x54AA35BB
      && w[56] == 0x1601A26C && w[57] == 0x3879021E && w[58] == 0x54C0C6C8 && w[59] == 0x1C2CFB01
      && w[60] == 0x2066BB2A && w[61] == 0xFA24FB89 && w[62] == 0x6FC348AC && w[63] == 0x70C95906
      && w[64] == 0x998C5A42 && w[65] == 0x0FBDDD35 && w[66] == 0xA2A67B25 && w[67] == 0x401050D6
      && w[68] == 0x0E60D64F && w[69] == 0xDAD09EE2 && w[70] == 0x9F84F7D6 && w[71] == 0x24F571D8
      && w[72] == 0x033B4008 && w[73] == 0x68D9A7F9 && w[74] == 0xE5EAEE3F && w[75] == 0x4A4620AD
      && w[76] == 0x52390460 && w[77] == 0x6BAFA4A5 && w[78] == 0x471B8B2A && w[79] == 0x1371E316
  {
    HelloWorldSchedule0To15(w, block);
    HelloWorldSchedule16To23(w, block);
    HelloWorldSchedule24To31(w, block);
    HelloWorldSchedule32To39(w, block);
    HelloWorldSchedule40To47(w, block);
    HelloWorldSchedule48To55(w, block);
    HelloWorldSchedule56To63(w, block);
    HelloWorldSchedule64To71(w, block);
    HelloWorldSchedule72To79(w, block);
  }

  /** All eighty schedule words of the "hello world" block. */
  lemma HelloWorldScheduleWords()
    ensures |HelloWorldSchedule| == 80
    ensures var w := HelloWorldSchedule;
      w[0] == 0x68656C6C && w[1] == 0x6F20776F && w[2] == 0x726C6480 && w[3] == 0x00000000
      && w[4] == 0x00000000 && w[5] == 0x00000000 && w[6] == 0x00000000 && w[7] == 0x00000000
      && w[8] == 0x00000000 && w[9] == 0x00000000 && w[10] == 0x00000000 && w[11] == 0x00000000
      && w[12] == 0x00000000 && w[13] == 0x00000000 && w[14] == 0x00000000 && w[15] == 0x00000058
      && w[16] == 0x341211D8 && w[17] == 0xDE40EEDE && w[18] == 0xE4D8C9B0 && w[19] == 0x682423B0
      && w[20] == 0xBC81DDBD && w[21] == 0xC9B19361 && w[22] == 0xD0484760 && w[23] == 0x7903BBCB
      && w[24] == 0xFB470573 && w[25] == 0x1C11537C && w[26] == 0x3BB6E4F7 && w[27] == 0x26C64D87
      && w[28] == 0x41211D83 && w[29] == 0xE40EEF9D && w[30] == 0x8538367F && w[31] == 0xCCC4919D
      && w[32] == 0x9F06650D && w[33] == 0x5E9B50DA && w[34] == 0x5E56C2CF && w[35] == 0x30AB30B6
      && w[36] == 0xE6E7AF08 && w[37] == 0x15D40BF0 && w[38] == 0x3D3889B5 && w[39] == 0x9E63AC44
      && w[40] == 0x94471EF2 && w[41] == 0xB2E98F28 && w[42] == 0x75452FFF && w[43] == 0xCC4918BC
      && w[44] == 0x202E17B9 && w[45] == 0x90B6B41E && w[46] == 0xD69F84F7 && w[47] == 0x5824F574
      && w[48] == 0x8B421A5D && w[49] == 0x148CD766 && w[50] == 0x2BA16E99 && w[51] == 0xC4E8734E
      && w[52] == 0xDEFBCCC5 && w[53] == 0x6140FA66 && w[54] == 0x7610C1FD && w[55] == 0x54AA35BB
      && w[56] == 0x1601A26C && w[57] == 0x3879021E && w[58] == 0x54C0C6C8 && w[59] == 0x1C2CFB01
      && w[60] == 0x2066BB2A && w[61] == 0xFA24FB89 && w[62] == 0x6FC348AC && w[63] == 0x70C95906
      && w[64] == 0x998C5A42 && w[65] == 0x0FBDDD35 && w[66] == 0xA2A67B25 && w[67] == 0x401050D6
      && w[68] == 0x0E60D64F && w[69] == 0xDAD09EE2 && w[70] == 0x9F84F7D6 && w[71] == 0x24F571D8
      && w[72] == 0x033B4008 && w[73] == 0x68D9A7F9 && w[74] == 0xE5EAEE3F && w[75] == 0x4A4620AD
      && w[76] == 0x52390460 && w[77] == 0x6BAFA4A5 && w[78] == 0x471B8B2A && w[79] == 0x1371E316
  {
    HelloWorldScheduleOfBlock();
    HelloWorldScheduleAll(HelloWorldSchedule, BytesToWords(Pad(HelloWorld)));
  }

  // ---------------------------------------------------------------------------
  // The eighty rounds, twenty at a time.
  // ---------------------------------------------------------------------------

  /** Round n takes the state s after n rounds, with schedule word wn, to the state after n + 1. */
  lemma RunRoundsStep(v: State, w: seq<word>, n: nat, s: State, wn: word)
    requires |w| == 80 && n < 80
    requires RunRounds(v, w, n) == s && w[n] == wn
    ensures RunRounds(v, w, n + 1) == Round(s, n, wn)
  {
  }

  lemma HelloWorldRounds0To19()
    ensures RunRounds(H0, HelloWorldSchedule, 20) == State(0xC1F5B2A4, 0x0B84C486, 0x28C4B7DF, 0x754E1301, 0x32E6BF04)
  {
    var w := HelloWorldSchedule;
    HelloWorldScheduleWords();
    // One call per round: the state after round n, given the state before it and w[n].
    assert RunRounds(H0, w, 0) == State(0x67452301, 0xEFCDAB89, 0x98BADCFE, 0x10325476, 0xC3D2E1F0);
    RunRoundsStep(H0, w, 0, State(0x67452301, 0xEFCDAB89, 0x98BADCFE, 0x10325476, 0xC3D2E1F0), 0x68656C6C);
    RunRoundsStep(H0, w, 1, State(0x081A051F, 0x67452301, 0x7BF36AE2, 0x98BADCFE, 0x10325476), 0x6F20776F);
    RunRoundsStep(H0, w, 2, State(0xD911E85D, 0x081A051F, 0x59D148C0, 0x7BF36AE2, 0x98BADCFE), 0x726C6480);
    RunRoundsStep(H0, w, 3, State(0x03D831B2, 0xD911E85D, 0xC2068147, 0x59D148C0, 0x7BF36AE2), 0x00000000);
    RunRoundsStep(H0, w, 4, State(0x123C9B80, 0x03D831B2, 0x76447A17, 0xC2068147, 0x59D148C0), 0x00000000);
    RunRoundsStep(H0, w, 5, State(0xBE2DE2B2, 0x123C9B80, 0x80F60C6C, 0x76447A17, 0xC2068147), 0x00000000);
    RunRoundsStep(H0, w, 6, State(0x46B9B94E, 0xBE2DE2B2, 0x048F26E0, 0x80F60C6C, 0x76447A17), 0x00000000);
    RunRoundsStep(H0, w, 7, State(0xACDD4C64, 0x46B9B94E, 0xAF8B78AC, 0x048F26E0, 0x80F60C6C), 0x00000000);
    RunRoundsStep(H0, w, 8, State(0x7DB15146, 0xACDD4C64, 0x91AE6E53, 0xAF8B78AC, 0x048F26E0), 0x00000000);
    RunRoundsStep(H0, w, 9, State(0x98CA4610, 0x7DB15146, 0x2B375319, 0x91AE6E53, 0xAF8B78AC), 0x00000000);
    RunRoundsStep(H0, w, 10, State(0xCC963369, 0x98CA4610, 0x9F6C5451, 0x2B375319, 0x91AE6E53), 0x00000000);
    RunRoundsStep(H0, w, 11, State(0x3A74AA3E, 0xCC963369, 0x26329184, 0x9F6C5451, 0x2B375319), 0x00000000);
    RunRoundsStep(H0, w, 12, State(0xEBC96989, 0x3A74AA3E, 0x73258CDA, 0x26329184, 0x9F6C5451), 0x00000000);
    RunRoundsStep(H0, w, 13, State(0xA94298C1, 0xEBC96989, 0x8E9D2A8F, 0x73258CDA, 0x26329184), 0x00000000);
    RunRoundsStep(H0, w, 14, State(0x43B5D02D, 0xA94298C1, 0x7AF25A62, 0x8E9D2A8F, 0x73258CDA), 0x00000000);
    RunRoundsStep(H0, w, 15, State(0x73414669, 0x43B5D02D, 0x6A50A630, 0x7AF25A62, 0x8E9D2A8F), 0x00000058);
    RunRoundsStep(H0, w, 16, State(0xCB9AFC10, 0x73414669, 0x50ED740B, 0x6A50A630, 0x7AF25A62), 0x341211D8);
    RunRoundsStep(H0, w, 17, State(0xD5384C05, 0xCB9AFC10, 0x5CD0519A, 0x50ED740B, 0x6A50A630), 0xDE40EEDE);
    RunRoundsStep(H0, w, 18, State(0xA312DF7C, 0xD5384C05, 0x32E6BF04, 0x5CD0519A, 0x50ED740B), 0xE4D8C9B0);
    RunRoundsStep(H0, w, 19, State(0x0B84C486, 0xA312DF7C, 0x754E1301, 0x32E6BF04, 0x5CD0519A), 0x682423B0);
  }

  lemma HelloWorldRounds20To39()
    ensures RunRounds(H0, HelloWorldSchedule, 40) == State(0xF648409B, 0xE187B1C2, 0x5708B54B, 0x8667B68B, 0x2448DE47)
  {
    var w := HelloWorldSchedule;
    HelloWorldScheduleWords();
    // One call per round: the state after round n, given the state before it and w[n].
    HelloWorldRounds0To19();
    RunRoundsStep(H0, w, 20, State(0xC1F5B2A4, 0x0B84C486, 0x28C4B7DF, 0x754E1301, 0x32E6BF04), 0xBC81DDBD);
    RunRoundsStep(H0, w, 21, State(0xF3073D52, 0xC1F5B2A4, 0x82E13121, 0x28C4B7DF, 0x754E1301), 0xC9B19361);
    RunRoundsStep(H0, w, 22, State(0x7A9170BB, 0xF3073D52, 0x307D6CA9, 0x82E13121, 0x28C4B7DF), 0xD0484760);
    RunRoundsStep(H0, w, 23, State(0xFBB06329, 0x7A9170BB, 0xBCC1CF54, 0x307D6CA9, 0x82E13121), 0x7903BBCB);
    RunRoundsStep(H0, w, 24, State(0xD6F91112, 0xFBB06329, 0xDEA45C2E, 0xBCC1CF54, 0x307D6CA9), 0xFB470573);
    RunRoundsStep(H0, w, 25, State(0x1396706A, 0xD6F91112, 0x7EEC18CA, 0xDEA45C2E, 0xBCC1CF54), 0x1C11537C);
    RunRoundsStep(H0, w, 26, State(0x312C71A9, 0x1396706A, 0xB5BE4444, 0x7EEC18CA, 0xDEA45C2E), 0x3BB6E4F7);
    RunRoundsStep(H0, w, 27, State(0x87878ED0, 0x312C71A9, 0x84E59C1A, 0xB5BE4444, 0x7EEC18CA), 0x26C64D87);
    RunRoundsStep(H0, w, 28, State(0x05F5D5F9, 0x87878ED0, 0x4C4B1C6A, 0x84E59C1A, 0xB5BE4444), 0x41211D83);
    RunRoundsStep(H0, w, 29, State(0x739D1B28, 0x05F5D5F9, 0x21E1E3B4, 0x4C4B1C6A, 0x84E59C1A), 0xE40EEF9D);
    RunRoundsStep(H0, w, 30, State(0xB3D1068D, 0x739D1B28, 0x417D757E, 0x21E1E3B4, 0x4C4B1C6A), 0x8538367F);
    RunRoundsStep(H0, w, 31, State(0xCD7F9E22, 0xB3D1068D, 0x1CE746CA, 0x417D757E, 0x21E1E3B4), 0xCCC4919D);
    RunRoundsStep(H0, w, 32, State(0xFBBF5A84, 0xCD7F9E22, 0x6CF441A3, 0x1CE746CA, 0x417D757E), 0x9F06650D);
    RunRoundsStep(H0, w, 33, State(0x84B5B016, 0xFBBF5A84, 0xB35FE788, 0x6CF441A3, 0x1CE746CA), 0x5E9B50DA);
    RunRoundsStep(H0, w, 34, State(0xA52782C4, 0x84B5B016, 0x3EEFD6A1, 0xB35FE788, 0x6CF441A3), 0x5E56C2CF);
    RunRoundsStep(H0, w, 35, State(0xE81AC9E6, 0xA52782C4, 0xA12D6C05, 0x3EEFD6A1, 0xB35FE788), 0x30AB30B6);
    RunRoundsStep(H0, w, 36, State(0x9123791C, 0xE81AC9E6, 0x2949E0B1, 0xA12D6C05, 0x3EEFD6A1), 0xE6E7AF08);
    RunRoundsStep(H0, w, 37, State(0x199EDA2E, 0x9123791C, 0xBA06B279, 0x2949E0B1, 0xA12D6C05), 0x15D40BF0);
    RunRoundsStep(H0, w, 38, State(0x5C22D52D, 0x199EDA2E, 0x2448DE47, 0xBA06B279, 0x2949E0B1), 0x3D3889B5);
    RunRoundsStep(H0, w, 39, State(0xE187B1C2, 0x5C22D52D, 0x8667B68B, 0x2448DE47, 0xBA06B279), 0x9E63AC44);
  }

  lemma HelloWorldRounds40To59()
    ensures RunRounds(H0, HelloWorldSchedule, 60) == State(0x6F0678F7, 0x0DA1F671, 0xE9F21A01, 0x1BB4889C, 0x5F564DD1)
  {
    var w := HelloWorldSchedule;
    HelloWorldScheduleWords();
    // One call per round: the state after round n, given the state before it and w[n].
    HelloWorldRounds20To39();
    RunRoundsStep(H0, w, 40, State(0xF648409B, 0xE187B1C2, 0x5708B54B, 0x8667B68B, 0x2448DE47), 0x94471EF2);
    RunRoundsStep(H0, w, 41, State(0xD7BB835E, 0xF648409B, 0xB861EC70, 0x5708B54B, 0x8667B68B), 0xB2E98F28);
    RunRoundsStep(H0, w, 42, State(0xB62652C4, 0xD7BB835E, 0xFD921026, 0xB861EC70, 0x5708B54B), 0x75452FFF);
    RunRoundsStep(H0, w, 43, State(0x1DE77B32, 0xB62652C4, 0xB5EEE0D7, 0xFD921026, 0xB861EC70), 0xCC4918BC);
    RunRoundsStep(H0, w, 44, State(0x865C7911, 0x1DE77B32, 0x2D8994B1, 0xB5EEE0D7, 0xFD921026), 0x202E17B9);
    RunRoundsStep(H0, w, 45, State(0xB65AF79E, 0x865C7911, 0x8779DECC, 0x2D8994B1, 0xB5EEE0D7), 0x90B6B41E);
    RunRoundsStep(H0, w, 46, State(0x287A2238, 0xB65AF79E, 0x61971E44, 0x8779DECC, 0x2D8994B1), 0xD69F84F7);
    RunRoundsStep(H0, w, 47, State(0x49E4FC55, 0x287A2238, 0xAD96BDE7, 0x61971E44, 0x8779DECC), 0x5824F574);
    RunRoundsStep(H0, w, 48, State(0xD4F05A29, 0x49E4FC55, 0x0A1E888E, 0xAD96BDE7, 0x61971E44), 0x8B421A5D);
    RunRoundsStep(H0, w, 49, State(0x2396F77E, 0xD4F05A29, 0x52793F15, 0x0A1E888E, 0xAD96BDE7), 0x148CD766);
    RunRoundsStep(H0, w, 50, State(0x16965BFA, 0x2396F77E, 0x753C168A, 0x52793F15, 0x0A1E888E), 0x2BA16E99);
    RunRoundsStep(H0, w, 51, State(0x0AE36A63, 0x16965BFA, 0x88E5BDDF, 0x753C168A, 0x52793F15), 0xC4E8734E);
    RunRoundsStep(H0, w, 52, State(0x179EDB7A, 0x0AE36A63, 0x85A596FE, 0x88E5BDDF, 0x753C168A), 0xDEFBCCC5);
    RunRoundsStep(H0, w, 53, State(0x6014CE6C, 0x179EDB7A, 0xC2B8DA98, 0x85A596FE, 0x88E5BDDF), 0x6140FA66);
    RunRoundsStep(H0, w, 54, State(0x03991DA7, 0x6014CE6C, 0x85E7B6DE, 0xC2B8DA98, 0x85A596FE), 0x7610C1FD);
    RunRoundsStep(H0, w, 55, State(0xBEAAA993, 0x03991DA7, 0x1805339B, 0x85E7B6DE, 0xC2B8DA98), 0x54AA35BB);
    RunRoundsStep(H0, w, 56, State(0x7D593745, 0xBEAAA993, 0xC0E64769, 0x1805339B, 0x85E7B6DE), 0x1601A26C);
    RunRoundsStep(H0, w, 57, State(0x6ED22270, 0x7D593745, 0xEFAAAA64, 0xC0E64769, 0x1805339B), 0x3879021E);
    RunRoundsStep(H0, w, 58, State(0xA7C86807, 0x6ED22270, 0x5F564DD1, 0xEFAAAA64, 0xC0E64769), 0x54C0C6C8);
    RunRoundsStep(H0, w, 59, State(0x0DA1F671, 0xA7C86807, 0x1BB4889C, 0x5F564DD1, 0xEFAAAA64), 0x1C2CFB01);
  }

  lemma HelloWorldRounds60To79()
    ensures RunRounds(H0, HelloWorldSchedule, 80) == State(0xC3694934, 0xD982242B, 0x7D210C61, 0x30594873, 0x5B1564FD)
  {
    var w := HelloWorldSchedule;
    HelloWorldScheduleWords();
    // One call per round: the state after round n, given the state before it and w[n].
    HelloWorldRounds40To59();
    RunRoundsStep(H0, w, 60, State(0x6F0678F7, 0x0DA1F671, 0xE9F21A01, 0x1BB4889C, 0x5F564DD1), 0x2066BB2A);
    RunRoundsStep(H0, w, 61, State(0x2AD64EAA, 0x6F0678F7, 0x43687D9C, 0xE9F21A01, 0x1BB4889C), 0xFA24FB89);
    RunRoundsStep(H0, w, 62, State(0x00A23AAA, 0x2AD64EAA, 0xDBC19E3D, 0x43687D9C, 0xE9F21A01), 0x6FC348AC);
    RunRoundsStep(H0, w, 63, State(0xEADF26CE, 0x00A23AAA, 0x8AB593AA, 0xDBC19E3D, 0x43687D9C), 0x70C95906);
    RunRoundsStep(H0, w, 64, State(0x2C4FA992, 0xEADF26CE, 0x80288EAA, 0x8AB593AA, 0xDBC19E3D), 0x998C5A42);
    RunRoundsStep(H0, w, 65, State(0xA9E82868, 0x2C4FA992, 0xBAB7C9B3, 0x80288EAA, 0x8AB593AA), 0x0FBDDD35);
    RunRoundsStep(H0, w, 66, State(0xB8AC2E55, 0xA9E82868, 0x8B13EA64, 0xBAB7C9B3, 0x80288EAA), 0xA2A67B25);
    RunRoundsStep(H0, w, 67, State(0x9B03A21B, 0xB8AC2E55, 0x2A7A0A1A, 0x8B13EA64, 0xBAB7C9B3), 0x401050D6);
    RunRoundsStep(H0, w, 68, State(0x3F64EDFD, 0x9B03A21B, 0x6E2B0B95, 0x2A7A0A1A, 0x8B13EA64), 0x0E60D64F);
    RunRoundsStep(H0, w, 69, State(0x2FC7E5C4, 0x3F64EDFD, 0xE6C0E886, 0x6E2B0B95, 0x2A7A0A1A), 0xDAD09EE2);
    RunRoundsStep(H0, w, 70, State(0x80393245, 0x2FC7E5C4, 0x4FD93B7F, 0xE6C0E886, 0x6E2B0B95), 0x9F84F7D6);
    RunRoundsStep(H0, w, 71, State(0x6617442E, 0x80393245, 0x0BF1F971, 0x4FD93B7F, 0xE6C0E886), 0x24F571D8);
    RunRoundsStep(H0, w, 72, State(0x5D13924B, 0x6617442E, 0x600E4C91, 0x0BF1F971, 0x4FD93B7F), 0x033B4008);
    RunRoundsStep(H0, w, 73, State(0xCDD27896, 0x5D13924B, 0x9985D10B, 0x600E4C91, 0x0BF1F971), 0x68D9A7F9);
    RunRoundsStep(H0, w, 74, State(0x9E1585EA, 0xCDD27896, 0xD744E492, 0x9985D10B, 0x600E4C91), 0xE5EAEE3F);
    RunRoundsStep(H0, w, 75, State(0x56200708, 0x9E1585EA, 0xB3749E25, 0xD744E492, 0x9985D10B), 0x4A4620AD);
    RunRoundsStep(H0, w, 76, State(0x6C5593F5, 0x56200708, 0xA785617A, 0xB3749E25, 0xD744E492), 0x52390460);
    RunRoundsStep(H0, w, 77, State(0xC16521CC, 0x6C5593F5, 0x158801C2, 0xA785617A, 0xB3749E25), 0x6BAFA4A5);
    RunRoundsStep(H0, w, 78, State(0xF4843185, 0xC16521CC, 0x5B1564FD, 0x158801C2, 0xA785617A), 0x471B8B2A);
    RunRoundsStep(H0, w, 79, State(0xD982242B, 0xF4843185, 0x30594873, 0x5B1564FD, 0x158801C2), 0x1371E316);
  }

  /** The standard compression of the block: the working state after eighty rounds, added to H0. */
  lemma HelloWorldBlock()
    ensures ProcessBlock(H0, HelloWorldSchedule) == State(0x2AAE6C35, 0xC94FCFB4, 0x15DBE95F, 0x408B9CE9, 0x1EE846ED)
  {
    HelloWorldRounds60To79();
  }

  // ---------------------------------------------------------------------------
  // The digest and its text.
  // ---------------------------------------------------------------------------

  /** The twenty bytes of the digest: the five words of the final state, big-endian. */
  lemma HelloWorldDigestBytes()
    ensures var b := Encode(HelloWorld).bytes;
      b[0] == 0x2A && b[1] == 0xAE && b[2] == 0x6C && b[3] == 0x35 && b[4] == 0xC9
      && b[5] == 0x4F && b[6] == 0xCF && b[7] == 0xB4 && b[8] == 0x15 && b[9] == 0xDB
      && b[10] == 0xE9 && b[11] == 0x5F && b[12] == 0x40 && b[13] == 0x8B && b[14] == 0x9C
      && b[15] == 0xE9 && b[16] == 0x1E && b[17] == 0xE8 && b[18] == 0x46 && b[19] == 0xED
  {
    EncodeShortMessage(HelloWorld);
    HelloWorldBlock();
    SerializeLayout(State(0x2AAE6C35, 0xC94FCFB4, 0x15DBE95F, 0x408B9CE9, 0x1EE846ED));
  }

  lemma HelloWorldDisplay0To9(d: Sha1)
    requires var b := d.bytes;
      b[0] == 0x2A && b[1] == 0xAE && b[2] == 0x6C && b[3] == 0x35 && b[4] == 0xC9
      && b[5] == 0x4F && b[6] == 0xCF && b[7] == 0xB4 && b[8] == 0x15 && b[9] == 0xDB
    ensures var s := Display(d);
      s[0] == '2' && s[1] == 'A' && s[2] == 'A' && s[3] == 'E' && s[4] == '6' && s[5] == 'C' && s[6] == '3' && s[7] == '5' && s[8] == 'C' && s[9] == '9'
      && s[10] == '4' && s[11] == 'F' && s[12] == 'C' && s[13] == 'F' && s[14] == 'B' && s[15] == '4' && s[16] == '1' && s[17] == '5' && s[18] == 'D' && s[19] == 'B'
  {
    var s := Display(d);
    assert d.bytes[0] >> 4 == 0x2 && d.bytes[0] & 0xF == 0xA;
    assert d.bytes[1] >> 4 == 0xA && d.bytes[1] & 0xF == 0xE;
    assert d.bytes[2] >> 4 == 0x6 && d.bytes[2] & 0xF == 0xC;
    assert d.bytes[3] >> 4 == 0x3 && d.bytes[3] & 0xF == 0x5;
    assert d.bytes[4] >> 4 == 0xC && d.bytes[4] & 0xF == 0x9;
    assert d.bytes[5] >> 4 == 0x4 && d.bytes[5] & 0xF == 0xF;
    assert d.bytes[6] >> 4 == 0xC && d.bytes[6] & 0xF == 0xF;
    assert d.bytes[7] >> 4 == 0xB && d.bytes[7] & 0xF == 0x4;
    assert d.bytes[8] >> 4 == 0x1 && d.bytes[8] & 0xF == 0x5;
    assert d.bytes[9] >> 4 == 0xD && d.bytes[9] & 0xF == 0xB;
  }

  lemma HelloWorldDisplay10To19(d: Sha1)
    requires var b := d.bytes;
      b[10] == 0xE9 && b[11] == 0x5F && b[12] == 0x40 && b[13] == 0x8B && b[14] == 0x9C
      && b[15] == 0xE9 && b[16] == 0x1E && b[17] == 0xE8 && b[18] == 0x46 && b[19] == 0xED
    ensures var s := Display(d);
      s[20] == 'E' && s[21] == '9' && s[22] == '5' && s[23] == 'F' && s[24] == '4' && s[25] == '0' && s[26] == '8' && s[27] == 'B' && s[28] == '9' && s[29] == 'C'
      && s[30] == 'E' && s[31] == '9' && s[32] == '1' && s[33] == 'E' && s[34] == 'E' && s[35] == '8' && s[36] == '4' && s[37] == '6' && s[38] == 'E' && s[39] == 'D'
  {
    var s := Display(d);
    assert d.bytes[10] >> 4 == 0xE && d.bytes[10] & 0xF == 0x9;
    assert d.bytes[11] >> 4 == 0x5 && d.bytes[11] & 0xF == 0xF;
    assert d.bytes[12] >> 4 == 0x4 && d.bytes[12] & 0xF == 0x0;
    assert d.bytes[13] >> 4 == 0x8 && d.bytes[13] & 0xF == 0xB;
    assert d.bytes[14] >> 4 == 0x9 && d.bytes[14] & 0xF == 0xC;
    assert d.bytes[15] >> 4 == 0xE && d.bytes[15] & 0xF == 0x9;
    assert d.bytes[16] >> 4 == 0x1 && d.bytes[16] & 0xF == 0xE;
    assert d.bytes[17] >> 4 == 0xE && d.bytes[17] & 0xF == 0x8;
    assert d.bytes[18] >> 4 == 0x4 && d.bytes[18] & 0xF == 0x6;
    assert d.bytes[19] >> 4 == 0xE && d.bytes[19] & 0xF == 0xD;
  }

  /** Forty characters equal to those of the expected text are that text. */
  lemma HelloWorldDigestChars(s: string)
    requires |s| == 40
    requires s[0] == '2' && s[1] == 'A' && s[2] == 'A' && s[3] == 'E' && s[4] == '6' && s[5] == 'C' && s[6] == '3' && s[7] == '5' && s[8] == 'C' && s[9] == '9'
      && s[10] == '4' && s[11] == 'F' && s[12] == 'C' && s[13] == 'F' && s[14] == 'B' && s[15] == '4' && s[16] == '1' && s[17] == '5' && s[18] == 'D' && s[19] == 'B'
      && s[20] == 'E' && s[21] == '9' && s[22] == '5' && s[23] == 'F' && s[24] == '4' && s[25] == '0' && s[26] == '8' && s[27] == 'B' && s[28] == '9' && s[29] == 'C'
      && s[30] == 'E' && s[31] == '9' && s[32] == '1' && s[33] == 'E' && s[34] == 'E' && s[35] == '8' && s[36] == '4' && s[37] == '6' && s[38] == 'E' && s[39] == 'D'
    ensures s == HelloWorldDigest
  {
  }

  /** A digest with the expected bytes prints as the expected text. */
  lemma HelloWorldDisplay(d: Sha1)
    requires var b := d.bytes;
      b[0] == 0x2A && b[1] == 0xAE && b[2] == 0x6C && b[3] == 0x35 && b[4] == 0xC9
      && b[5] == 0x4F && b[6] == 0xCF && b[7] == 0xB4 && b[8] == 0x15 && b[9] == 0xDB
      && b[10] == 0xE9 && b[11] == 0x5F && b[12] == 0x40 && b[13] == 0x8B && b[14] == 0x9C
      && b[15] == 0xE9 && b[16] == 0x1E && b[17] == 0xE8 && b[18] == 0x46 && b[19] == 0xED
    ensures Display(d) == HelloWorldDigest
  {
    HelloWorldDisplay0To9(d);
    HelloWorldDisplay10To19(d);
    HelloWorldDigestChars(Display(d));
  }

  /**
    The test at src/sha1.rs:140-144: `Sha1::encode(b"hello world")` prints as
    2AAE6C35C94FCFB415DBE95F408B9CE91EE846ED.
   */
  lemma EncodeHelloWorld()
    ensures Display(Encode(HelloWorld)) == HelloWorldDigest
  {
    HelloWorldDigestBytes();
    HelloWorldDisplay(Encode(HelloWorld));
  }

  // ---------------------------------------------------------------------------
  // The as-written fold of src/sha1.rs:79 on the same schedule.
  // ---------------------------------------------------------------------------

  /** Round t of the as-written loop: the working state becomes v' and h absorbs it, giving h'. */
  lemma FoldStep(h: State, v: State, w: seq<word>, t: nat, wt: word, h': State, v': State)
    requires |w| == 80 && t < 80 && w[t] == wt
    requires v' == Round(v, t, wt) && h' == Add(h, v')
    ensures FoldEachRound(h, v, w, t) == FoldEachRound(h', v', w, t + 1)
  {
  }

  lemma HelloWorldFold0To9()
    ensures ProcessBlockAsWritten(H0, HelloWorldSchedule)
      == FoldEachRound(State(0xF35C90D2, 0x169408F2, 0x382D4DB3, 0xA8F34DD8, 0x418EDCAF),
                       State(0xCC963369, 0x98CA4610, 0x9F6C5451, 0x2B375319, 0x91AE6E53), HelloWorldSchedule, 10)
  {
    var w := HelloWorldSchedule;
    HelloWorldScheduleWords();
    // One call per round: the new working state v' and the running h' = h + v', carried to the next call.
    FoldStep(State(0x67452301, 0xEFCDAB89, 0x98BADCFE, 0x10325476, 0xC3D2E1F0), State(0x67452301, 0xEFCDAB89, 0x98BADCFE, 0x10325476, 0xC3D2E1F0), w, 0, 0x68656C6C,
             State(0x6F5F2820, 0x5712CE8A, 0x14AE47E0, 0xA8ED3174, 0xD4053666), State(0x081A051F, 0x67452301, 0x7BF36AE2, 0x98BADCFE, 0x10325476));
    FoldStep(State(0x6F5F2820, 0x5712CE8A, 0x14AE47E0, 0xA8ED3174, 0xD4053666), State(0x081A051F, 0x67452301, 0x7BF36AE2, 0x98BADCFE, 0x10325476), w, 1, 0x6F20776F,
             State(0x4871107D, 0x5F2CD3A9, 0x6E7F90A0, 0x24E09C56, 0x6CC01364), State(0xD911E85D, 0x081A051F, 0x59D148C0, 0x7BF36AE2, 0x98BADCFE));
    FoldStep(State(0x4871107D, 0x5F2CD3A9, 0x6E7F90A0, 0x24E09C56, 0x6CC01364), State(0xD911E85D, 0x081A051F, 0x59D148C0, 0x7BF36AE2, 0x98BADCFE), w, 2, 0x726C6480,
             State(0x4C49422F, 0x383EBC06, 0x308611E7, 0x7EB1E516, 0xE8B37E46), State(0x03D831B2, 0xD911E85D, 0xC2068147, 0x59D148C0, 0x7BF36AE2));
    FoldStep(State(0x4C49422F, 0x383EBC06, 0x308611E7, 0x7EB1E516, 0xE8B37E46), State(0x03D831B2, 0xD911E85D, 0xC2068147, 0x59D148C0, 0x7BF36AE2), w, 3, 0x00000000,
             State(0x5E85DDAF, 0x3C16EDB8, 0xA6CA8BFE, 0x40B8665D, 0x4284C706), State(0x123C9B80, 0x03D831B2, 0x76447A17, 0xC2068147, 0x59D148C0));
    FoldStep(State(0x5E85DDAF, 0x3C16EDB8, 0xA6CA8BFE, 0x40B8665D, 0x4284C706), State(0x123C9B80, 0x03D831B2, 0x76447A17, 0xC2068147, 0x59D148C0), w, 4, 0x00000000,
             State(0x1CB3C061, 0x4E538938, 0x27C0986A, 0xB6FCE074, 0x048B484D), State(0xBE2DE2B2, 0x123C9B80, 0x80F60C6C, 0x76447A17, 0xC2068147));
    FoldStep(State(0x1CB3C061, 0x4E538938, 0x27C0986A, 0xB6FCE074, 0x048B484D), State(0xBE2DE2B2, 0x123C9B80, 0x80F60C6C, 0x76447A17, 0xC2068147), w, 5, 0x00000000,
             State(0x636D79AF, 0x0C816BEA, 0x2C4FBF4A, 0x37F2ECE0, 0x7ACFC264), State(0x46B9B94E, 0xBE2DE2B2, 0x048F26E0, 0x80F60C6C, 0x76447A17));
    FoldStep(State(0x636D79AF, 0x0C816BEA, 0x2C4FBF4A, 0x37F2ECE0, 0x7ACFC264), State(0x46B9B94E, 0xBE2DE2B2, 0x048F26E0, 0x80F60C6C, 0x76447A17), w, 6, 0x00000000,
             State(0x104AC613, 0x533B2538, 0xDBDB37F6, 0x3C8213C0, 0xFBC5CED0), State(0xACDD4C64, 0x46B9B94E, 0xAF8B78AC, 0x048F26E0, 0x80F60C6C));
    FoldStep(State(0x104AC613, 0x533B2538, 0xDBDB37F6, 0x3C8213C0, 0xFBC5CED0), State(0xACDD4C64, 0x46B9B94E, 0xAF8B78AC, 0x048F26E0, 0x80F60C6C), w, 7, 0x00000000,
             State(0x8DFC1759, 0x0018719C, 0x6D89A649, 0xEC0D8C6C, 0x0054F5B0), State(0x7DB15146, 0xACDD4C64, 0x91AE6E53, 0xAF8B78AC, 0x048F26E0));
    FoldStep(State(0x8DFC1759, 0x0018719C, 0x6D89A649, 0xEC0D8C6C, 0x0054F5B0), State(0x7DB15146, 0xACDD4C64, 0x91AE6E53, 0xAF8B78AC, 0x048F26E0), w, 8, 0x00000000,
             State(0x26C65D69, 0x7DC9C2E2, 0x98C0F962, 0x7DBBFABF, 0xAFE06E5C), State(0x98CA4610, 0x7DB15146, 0x2B375319, 0x91AE6E53, 0xAF8B78AC));
    FoldStep(State(0x26C65D69, 0x7DC9C2E2, 0x98C0F962, 0x7DBBFABF, 0xAFE06E5C), State(0x98CA4610, 0x7DB15146, 0x2B375319, 0x91AE6E53, 0xAF8B78AC), w, 9, 0x00000000,
             State(0xF35C90D2, 0x169408F2, 0x382D4DB3, 0xA8F34DD8, 0x418EDCAF), State(0xCC963369, 0x98CA4610, 0x9F6C5451, 0x2B375319, 0x91AE6E53));
  }

  lemma HelloWorldFold10To19()
    ensures ProcessBlockAsWritten(H0, HelloWorldSchedule)
      == FoldEachRound(State(0x8B34F2AB, 0xB90CEB90, 0xC41CE6BB, 0xAB8A8352, 0xFA0F5241),
                       State(0xC1F5B2A4, 0x0B84C486, 0x28C4B7DF, 0x754E1301, 0x32E6BF04), HelloWorldSchedule, 20)
  {
    var w := HelloWorldSchedule;
    HelloWorldScheduleWords();
    // One call per round: the new working state v' and the running h' = h + v', carried to the next call.
    HelloWorldFold0To9();
    FoldStep(State(0xF35C90D2, 0x169408F2, 0x382D4DB3, 0xA8F34DD8, 0x418EDCAF), State(0xCC963369, 0x98CA4610, 0x9F6C5451, 0x2B375319, 0x91AE6E53), w, 10, 0x00000000,
             State(0x2DD13B10, 0xE32A3C5B, 0x5E5FDF37, 0x485FA229, 0x6CC62FC8), State(0x3A74AA3E, 0xCC963369, 0x26329184, 0x9F6C5451, 0x2B375319));
    FoldStep(State(0x2DD13B10, 0xE32A3C5B, 0x5E5FDF37, 0x485FA229, 0x6CC62FC8), State(0x3A74AA3E, 0xCC963369, 0x26329184, 0x9F6C5451, 0x2B375319), w, 11, 0x00000000,
             State(0x199AA499, 0x1D9EE699, 0xD1856C11, 0x6E9233AD, 0x0C328419), State(0xEBC96989, 0x3A74AA3E, 0x73258CDA, 0x26329184, 0x9F6C5451));
    FoldStep(State(0x199AA499, 0x1D9EE699, 0xD1856C11, 0x6E9233AD, 0x0C328419), State(0xEBC96989, 0x3A74AA3E, 0x73258CDA, 0x26329184, 0x9F6C5451), w, 12, 0x00000000,
             State(0xC2DD3D5A, 0x09685022, 0x602296A0, 0xE1B7C087, 0x3265159D), State(0xA94298C1, 0xEBC96989, 0x8E9D2A8F, 0x73258CDA, 0x26329184));
    FoldStep(State(0xC2DD3D5A, 0x09685022, 0x602296A0, 0xE1B7C087, 0x3265159D), State(0xA94298C1, 0xEBC96989, 0x8E9D2A8F, 0x73258CDA, 0x26329184), w, 13, 0x00000000,
             State(0x06930D87, 0xB2AAE8E3, 0xDB14F102, 0x7054EB16, 0xA58AA277), State(0x43B5D02D, 0xA94298C1, 0x7AF25A62, 0x8E9D2A8F, 0x73258CDA));
    FoldStep(State(0x06930D87, 0xB2AAE8E3, 0xDB14F102, 0x7054EB16, 0xA58AA277), State(0x43B5D02D, 0xA94298C1, 0x7AF25A62, 0x8E9D2A8F, 0x73258CDA), w, 14, 0x00000000,
             State(0x79D453F0, 0xF660B910, 0x45659732, 0xEB474578, 0x3427CD06), State(0x73414669, 0x43B5D02D, 0x6A50A630, 0x7AF25A62, 0x8E9D2A8F));
    FoldStep(State(0x79D453F0, 0xF660B910, 0x45659732, 0xEB474578, 0x3427CD06), State(0x73414669, 0x43B5D02D, 0x6A50A630, 0x7AF25A62, 0x8E9D2A8F), w, 15, 0x00000058,
             State(0x456F5000, 0x69A1FF79, 0x96530B3D, 0x5597EBA8, 0xAF1A2768), State(0xCB9AFC10, 0x73414669, 0x50ED740B, 0x6A50A630, 0x7AF25A62));
    FoldStep(State(0x456F5000, 0x69A1FF79, 0x96530B3D, 0x5597EBA8, 0xAF1A2768), State(0xCB9AFC10, 0x73414669, 0x50ED740B, 0x6A50A630, 0x7AF25A62), w, 16, 0x341211D8,
             State(0x1AA79C05, 0x353CFB89, 0xF3235CD7, 0xA6855FB3, 0x196ACD98), State(0xD5384C05, 0xCB9AFC10, 0x5CD0519A, 0x50ED740B, 0x6A50A630));
    FoldStep(State(0x1AA79C05, 0x353CFB89, 0xF3235CD7, 0xA6855FB3, 0x196ACD98), State(0xD5384C05, 0xCB9AFC10, 0x5CD0519A, 0x50ED740B, 0x6A50A630), w, 17, 0xDE40EEDE,
             State(0xBDBA7B81, 0x0A75478E, 0x260A1BDB, 0x0355B14D, 0x6A5841A3), State(0xA312DF7C, 0xD5384C05, 0x32E6BF04, 0x5CD0519A, 0x50ED740B));
    FoldStep(State(0xBDBA7B81, 0x0A75478E, 0x260A1BDB, 0x0355B14D, 0x6A5841A3), State(0xA312DF7C, 0xD5384C05, 0x32E6BF04, 0x5CD0519A, 0x50ED740B), w, 18, 0xE4D8C9B0,
             State(0xC93F4007, 0xAD88270A, 0x9B582EDC, 0x363C7051, 0xC728933D), State(0x0B84C486, 0xA312DF7C, 0x754E1301, 0x32E6BF04, 0x5CD0519A));
    FoldStep(State(0xC93F4007, 0xAD88270A, 0x9B582EDC, 0x363C7051, 0xC728933D), State(0x0B84C486, 0xA312DF7C, 0x754E1301, 0x32E6BF04, 0x5CD0519A), w, 19, 0x682423B0,
             State(0x8B34F2AB, 0xB90CEB90, 0xC41CE6BB, 0xAB8A8352, 0xFA0F5241), State(0xC1F5B2A4, 0x0B84C486, 0x28C4B7DF, 0x754E1301, 0x32E6BF04));
  }

  lemma HelloWorldFold20To29()
    ensures ProcessBlockAsWritten(H0, HelloWorldSchedule)
      == FoldEachRound(State(0xC5257D84, 0x01222280, 0x7C1C1ECB, 0x4AD0FDC3, 0xECC1FBFF),
                       State(0xB3D1068D, 0x739D1B28, 0x417D757E, 0x21E1E3B4, 0x4C4B1C6A), HelloWorldSchedule, 30)
  {
    var w := HelloWorldSchedule;
    HelloWorldScheduleWords();
    // One call per round: the new working state v' and the running h' = h + v', carried to the next call.
    HelloWorldFold10To19();
    FoldStep(State(0x8B34F2AB, 0xB90CEB90, 0xC41CE6BB, 0xAB8A8352, 0xFA0F5241), State(0xC1F5B2A4, 0x0B84C486, 0x28C4B7DF, 0x754E1301, 0x32E6BF04), w, 20, 0xBC81DDBD,
             State(0x7E3C2FFD, 0x7B029E34, 0x46FE17DC, 0xD44F3B31, 0x6F5D6542), State(0xF3073D52, 0xC1F5B2A4, 0x82E13121, 0x28C4B7DF, 0x754E1301));
    FoldStep(State(0x7E3C2FFD, 0x7B029E34, 0x46FE17DC, 0xD44F3B31, 0x6F5D6542), State(0xF3073D52, 0xC1F5B2A4, 0x82E13121, 0x28C4B7DF, 0x754E1301), w, 21, 0xC9B19361,
             State(0xF8CDA0B8, 0x6E09DB86, 0x777B8485, 0x57306C52, 0x98221D21), State(0x7A9170BB, 0xF3073D52, 0x307D6CA9, 0x82E13121, 0x28C4B7DF));
    FoldStep(State(0xF8CDA0B8, 0x6E09DB86, 0x777B8485, 0x57306C52, 0x98221D21), State(0x7A9170BB, 0xF3073D52, 0x307D6CA9, 0x82E13121, 0x28C4B7DF), w, 22, 0xD0484760,
             State(0xF47E03E1, 0xE89B4C41, 0x343D53D9, 0x87ADD8FB, 0x1B034E42), State(0xFBB06329, 0x7A9170BB, 0xBCC1CF54, 0x307D6CA9, 0x82E13121));
    FoldStep(State(0xF47E03E1, 0xE89B4C41, 0x343D53D9, 0x87ADD8FB, 0x1B034E42), State(0xFBB06329, 0x7A9170BB, 0xBCC1CF54, 0x307D6CA9, 0x82E13121), w, 23, 0x7903BBCB,
             State(0xCB7714F3, 0xE44BAF6A, 0x12E1B007, 0x446FA84F, 0x4B80BAEB), State(0xD6F91112, 0xFBB06329, 0xDEA45C2E, 0xBCC1CF54, 0x307D6CA9));
    FoldStep(State(0xCB7714F3, 0xE44BAF6A, 0x12E1B007, 0x446FA84F, 0x4B80BAEB), State(0xD6F91112, 0xFBB06329, 0xDEA45C2E, 0xBCC1CF54, 0x307D6CA9), w, 24, 0xFB470573,
             State(0xDF0D855D, 0xBB44C07C, 0x91CDC8D1, 0x2314047D, 0x08428A3F), State(0x1396706A, 0xD6F91112, 0x7EEC18CA, 0xDEA45C2E, 0xBCC1CF54));
    FoldStep(State(0xDF0D855D, 0xBB44C07C, 0x91CDC8D1, 0x2314047D, 0x08428A3F), State(0x1396706A, 0xD6F91112, 0x7EEC18CA, 0xDEA45C2E, 0xBCC1CF54), w, 25, 0x1C11537C,
             State(0x1039F706, 0xCEDB30E6, 0x478C0D15, 0xA2001D47, 0xE6E6E66D), State(0x312C71A9, 0x1396706A, 0xB5BE4444, 0x7EEC18CA, 0xDEA45C2E));
    FoldStep(State(0x1039F706, 0xCEDB30E6, 0x478C0D15, 0xA2001D47, 0xE6E6E66D), State(0x312C71A9, 0x1396706A, 0xB5BE4444, 0x7EEC18CA, 0xDEA45C2E), w, 26, 0x3BB6E4F7,
             State(0x97C185D6, 0x0007A28F, 0xCC71A92F, 0x57BE618B, 0x65D2FF37), State(0x87878ED0, 0x312C71A9, 0x84E59C1A, 0xB5BE4444, 0x7EEC18CA));
    FoldStep(State(0x97C185D6, 0x0007A28F, 0xCC71A92F, 0x57BE618B, 0x65D2FF37), State(0x87878ED0, 0x312C71A9, 0x84E59C1A, 0xB5BE4444, 0x7EEC18CA), w, 27, 0x26C64D87,
             State(0x9DB75BCF, 0x878F315F, 0x18BCC599, 0xDCA3FDA5, 0x1B91437B), State(0x05F5D5F9, 0x87878ED0, 0x4C4B1C6A, 0x84E59C1A, 0xB5BE4444));
    FoldStep(State(0x9DB75BCF, 0x878F315F, 0x18BCC599, 0xDCA3FDA5, 0x1B91437B), State(0x05F5D5F9, 0x87878ED0, 0x4C4B1C6A, 0x84E59C1A, 0xB5BE4444), w, 28, 0x41211D83,
             State(0x115476F7, 0x8D850758, 0x3A9EA94D, 0x28EF1A0F, 0xA076DF95), State(0x739D1B28, 0x05F5D5F9, 0x21E1E3B4, 0x4C4B1C6A, 0x84E59C1A));
    FoldStep(State(0x115476F7, 0x8D850758, 0x3A9EA94D, 0x28EF1A0F, 0xA076DF95), State(0x739D1B28, 0x05F5D5F9, 0x21E1E3B4, 0x4C4B1C6A, 0x84E59C1A), w, 29, 0xE40EEF9D,
             State(0xC5257D84, 0x01222280, 0x7C1C1ECB, 0x4AD0FDC3, 0xECC1FBFF), State(0xB3D1068D, 0x739D1B28, 0x417D757E, 0x21E1E3B4, 0x4C4B1C6A));
  }

  lemma HelloWorldFold30To39()
    ensures ProcessBlockAsWritten(H0, HelloWorldSchedule)
      == FoldEachRound(State(0x7F118DBE, 0x7896F8AC, 0x7E7EAEAD, 0x37A84DD8, 0x7513793D),
                       State(0xF648409B, 0xE187B1C2, 0x5708B54B, 0x8667B68B, 0x2448DE47), HelloWorldSchedule, 40)
  {
    var w := HelloWorldSchedule;
    HelloWorldScheduleWords();
    // One call per round: the new working state v' and the running h' = h + v', carried to the next call.
    HelloWorldFold20To29();
    FoldStep(State(0xC5257D84, 0x01222280, 0x7C1C1ECB, 0x4AD0FDC3, 0xECC1FBFF), State(0xB3D1068D, 0x739D1B28, 0x417D757E, 0x21E1E3B4, 0x4C4B1C6A), w, 30, 0x8538367F,
             State(0x92A51BA6, 0xB4F3290D, 0x99036595, 0x8C4E7341, 0x0EA3DFB3), State(0xCD7F9E22, 0xB3D1068D, 0x1CE746CA, 0x417D757E, 0x21E1E3B4));
    FoldStep(State(0x92A51BA6, 0xB4F3290D, 0x99036595, 0x8C4E7341, 0x0EA3DFB3), State(0xCD7F9E22, 0xB3D1068D, 0x1CE746CA, 0x417D757E, 0x21E1E3B4), w, 31, 0xCCC4919D,
             State(0x8E64762A, 0x8272C72F, 0x05F7A738, 0xA935BA0B, 0x50215531), State(0xFBBF5A84, 0xCD7F9E22, 0x6CF441A3, 0x1CE746CA, 0x417D757E));
    FoldStep(State(0x8E64762A, 0x8272C72F, 0x05F7A738, 0xA935BA0B, 0x50215531), State(0xFBBF5A84, 0xCD7F9E22, 0x6CF441A3, 0x1CE746CA, 0x417D757E), w, 32, 0x9F06650D,
             State(0x131A2640, 0x7E3221B3, 0xB9578EC0, 0x1629FBAE, 0x6D089BFB), State(0x84B5B016, 0xFBBF5A84, 0xB35FE788, 0x6CF441A3, 0x1CE746CA));
    FoldStep(State(0x131A2640, 0x7E3221B3, 0xB9578EC0, 0x1629FBAE, 0x6D089BFB), State(0x84B5B016, 0xFBBF5A84, 0xB35FE788, 0x6CF441A3, 0x1CE746CA), w, 33, 0x5E9B50DA,
             State(0xB841A904, 0x02E7D1C9, 0xF8476561, 0xC989E336, 0xD9FCDD9E), State(0xA52782C4, 0x84B5B016, 0x3EEFD6A1, 0xB35FE788, 0x6CF441A3));
    FoldStep(State(0xB841A904, 0x02E7D1C9, 0xF8476561, 0xC989E336, 0xD9FCDD9E), State(0xA52782C4, 0x84B5B016, 0x3EEFD6A1, 0xB35FE788, 0x6CF441A3), w, 34, 0x5E56C2CF,
             State(0xA05C72EA, 0xA80F548D, 0x9974D166, 0x0879B9D7, 0x8D5CC526), State(0xE81AC9E6, 0xA52782C4, 0xA12D6C05, 0x3EEFD6A1, 0xB35FE788));
    FoldStep(State(0xA05C72EA, 0xA80F548D, 0x9974D166, 0x0879B9D7, 0x8D5CC526), State(0xE81AC9E6, 0xA52782C4, 0xA12D6C05, 0x3EEFD6A1, 0xB35FE788), w, 35, 0x30AB30B6,
             State(0x317FEC06, 0x902A1E73, 0xC2BEB217, 0xA9A725DC, 0xCC4C9BC7), State(0x9123791C, 0xE81AC9E6, 0x2949E0B1, 0xA12D6C05, 0x3EEFD6A1));
    FoldStep(State(0x317FEC06, 0x902A1E73, 0xC2BEB217, 0xA9A725DC, 0xCC4C9BC7), State(0x9123791C, 0xE81AC9E6, 0x2949E0B1, 0xA12D6C05, 0x3EEFD6A1), w, 36, 0xE6E7AF08,
             State(0x4B1EC634, 0x214D978F, 0x7CC56490, 0xD2F1068D, 0x6D7A07CC), State(0x199EDA2E, 0x9123791C, 0xBA06B279, 0x2949E0B1, 0xA12D6C05));
    FoldStep(State(0x4B1EC634, 0x214D978F, 0x7CC56490, 0xD2F1068D, 0x6D7A07CC), State(0x199EDA2E, 0x9123791C, 0xBA06B279, 0x2949E0B1, 0xA12D6C05), w, 37, 0x15D40BF0,
             State(0xA7419B61, 0x3AEC71BD, 0xA10E42D7, 0x8CF7B906, 0x96C3E87D), State(0x5C22D52D, 0x199EDA2E, 0x2448DE47, 0xBA06B279, 0x2949E0B1));
    FoldStep(State(0xA7419B61, 0x3AEC71BD, 0xA10E42D7, 0x8CF7B906, 0x96C3E87D), State(0x5C22D52D, 0x199EDA2E, 0x2448DE47, 0xBA06B279, 0x2949E0B1), w, 38, 0x3D3889B5,
             State(0x88C94D23, 0x970F46EA, 0x2775F962, 0xB140974D, 0x50CA9AF6), State(0xE187B1C2, 0x5C22D52D, 0x8667B68B, 0x2448DE47, 0xBA06B279));
    FoldStep(State(0x88C94D23, 0x970F46EA, 0x2775F962, 0xB140974D, 0x50CA9AF6), State(0xE187B1C2, 0x5C22D52D, 0x8667B68B, 0x2448DE47, 0xBA06B279), w, 39, 0x9E63AC44,
             State(0x7F118DBE, 0x7896F8AC, 0x7E7EAEAD, 0x37A84DD8, 0x7513793D), State(0xF648409B, 0xE187B1C2, 0x5708B54B, 0x8667B68B, 0x2448DE47));
  }

  lemma HelloWorldFold40To49()
    ensures ProcessBlockAsWritten(H0, HelloWorldSchedule)
      == FoldEachRound(State(0xE90F1BEF, 0xC2466B7E, 0x8066B9EF, 0x1B5CF7DB, 0x8CB69AB6),
                       State(0x16965BFA, 0x2396F77E, 0x753C168A, 0x52793F15, 0x0A1E888E), HelloWorldSchedule, 50)
  {
    var w := HelloWorldSchedule;
    HelloWorldScheduleWords();
    // One call per round: the new working state v' and the running h' = h + v', carried to the next call.
    HelloWorldFold30To39();
    FoldStep(State(0x7F118DBE, 0x7896F8AC, 0x7E7EAEAD, 0x37A84DD8, 0x7513793D), State(0xF648409B, 0xE187B1C2, 0x5708B54B, 0x8667B68B, 0x2448DE47), w, 40, 0x94471EF2,
             State(0x56CD111C, 0x6EDF3947, 0x36E09B1D, 0x8EB10323, 0xFB7B2FC8), State(0xD7BB835E, 0xF648409B, 0xB861EC70, 0x5708B54B, 0x8667B68B));
    FoldStep(State(0x56CD111C, 0x6EDF3947, 0x36E09B1D, 0x8EB10323, 0xFB7B2FC8), State(0xD7BB835E, 0xF648409B, 0xB861EC70, 0x5708B54B, 0x8667B68B), w, 41, 0xB2E98F28,
             State(0x0CF363E0, 0x469ABCA5, 0x3472AB43, 0x4712EF93, 0x5283E513), State(0xB62652C4, 0xD7BB835E, 0xFD921026, 0xB861EC70, 0x5708B54B));
    FoldStep(State(0x0CF363E0, 0x469ABCA5, 0x3472AB43, 0x4712EF93, 0x5283E513), State(0xB62652C4, 0xD7BB835E, 0xFD921026, 0xB861EC70, 0x5708B54B), w, 42, 0x75452FFF,
             State(0x2ADADF12, 0xFCC10F69, 0xEA618C1A, 0x44A4FFB9, 0x0AE5D183), State(0x1DE77B32, 0xB62652C4, 0xB5EEE0D7, 0xFD921026, 0xB861EC70));
    FoldStep(State(0x2ADADF12, 0xFCC10F69, 0xEA618C1A, 0x44A4FFB9, 0x0AE5D183), State(0x1DE77B32, 0xB62652C4, 0xB5EEE0D7, 0xFD921026, 0xB861EC70), w, 43, 0xCC4918BC,
             State(0xB1375823, 0x1AA88A9B, 0x17EB20CB, 0xFA93E090, 0x0877E1A9), State(0x865C7911, 0x1DE77B32, 0x2D8994B1, 0xB5EEE0D7, 0xFD921026));
    FoldStep(State(0xB1375823, 0x1AA88A9B, 0x17EB20CB, 0xFA93E090, 0x0877E1A9), State(0x865C7911, 0x1DE77B32, 0x2D8994B1, 0xB5EEE0D7, 0xFD921026), w, 44, 0x202E17B9,
             State(0x67924FC1, 0xA10503AC, 0x9F64FF97, 0x281D7541, 0xBE66C280), State(0xB65AF79E, 0x865C7911, 0x8779DECC, 0x2D8994B1, 0xB5EEE0D7));
    FoldStep(State(0x67924FC1, 0xA10503AC, 0x9F64FF97, 0x281D7541, 0xBE66C280), State(0xB65AF79E, 0x865C7911, 0x8779DECC, 0x2D8994B1, 0xB5EEE0D7), w, 45, 0x90B6B41E,
             State(0x900C71F9, 0x575FFB4A, 0x00FC1DDB, 0xAF97540D, 0xEBF05731), State(0x287A2238, 0xB65AF79E, 0x61971E44, 0x8779DECC, 0x2D8994B1));
    FoldStep(State(0x900C71F9, 0x575FFB4A, 0x00FC1DDB, 0xAF97540D, 0xEBF05731), State(0x287A2238, 0xB65AF79E, 0x61971E44, 0x8779DECC, 0x2D8994B1), w, 46, 0xD69F84F7,
             State(0xD9F16E4E, 0x7FDA1D82, 0xAE92DBC2, 0x112E7251, 0x736A35FD), State(0x49E4FC55, 0x287A2238, 0xAD96BDE7, 0x61971E44, 0x8779DECC));
    FoldStep(State(0xD9F16E4E, 0x7FDA1D82, 0xAE92DBC2, 0x112E7251, 0x736A35FD), State(0x49E4FC55, 0x287A2238, 0xAD96BDE7, 0x61971E44, 0x8779DECC), w, 47, 0x5824F574,
             State(0xAEE1C877, 0xC9BF19D7, 0xB8B16450, 0xBEC53038, 0xD5015441), State(0xD4F05A29, 0x49E4FC55, 0x0A1E888E, 0xAD96BDE7, 0x61971E44));
    FoldStep(State(0xAEE1C877, 0xC9BF19D7, 0xB8B16450, 0xBEC53038, 0xD5015441), State(0xD4F05A29, 0x49E4FC55, 0x0A1E888E, 0xAD96BDE7, 0x61971E44), w, 48, 0x8B421A5D,
             State(0xD278BFF5, 0x9EAF7400, 0x0B2AA365, 0xC8E3B8C6, 0x82981228), State(0x2396F77E, 0xD4F05A29, 0x52793F15, 0x0A1E888E, 0xAD96BDE7));
    FoldStep(State(0xD278BFF5, 0x9EAF7400, 0x0B2AA365, 0xC8E3B8C6, 0x82981228), State(0x2396F77E, 0xD4F05A29, 0x52793F15, 0x0A1E888E, 0xAD96BDE7), w, 49, 0x148CD766,
             State(0xE90F1BEF, 0xC2466B7E, 0x8066B9EF, 0x1B5CF7DB, 0x8CB69AB6), State(0x16965BFA, 0x2396F77E, 0x753C168A, 0x52793F15, 0x0A1E888E));
  }

  lemma HelloWorldFold50To59()
    ensures ProcessBlockAsWritten(H0, HelloWorldSchedule)
      == FoldEachRound(State(0x3E862896, 0xBF4D5B28, 0x0525B618, 0x2B65F08D, 0xD38449E1),
                       State(0x6F0678F7, 0x0DA1F671, 0xE9F21A01, 0x1BB4889C, 0x5F564DD1), HelloWorldSchedule, 60)
  {
    var w := HelloWorldSchedule;
    HelloWorldScheduleWords();
    // One call per round: the new working state v' and the running h' = h + v', carried to the next call.
    HelloWorldFold40To49();
    FoldStep(State(0xE90F1BEF, 0xC2466B7E, 0x8066B9EF, 0x1B5CF7DB, 0x8CB69AB6), State(0x16965BFA, 0x2396F77E, 0x753C168A, 0x52793F15, 0x0A1E888E), w, 50, 0x2BA16E99,
             State(0xF3F28652, 0xD8DCC778, 0x094C77CE, 0x90990E65, 0xDF2FD9CB), State(0x0AE36A63, 0x16965BFA, 0x88E5BDDF, 0x753C168A, 0x52793F15));
    FoldStep(State(0xF3F28652, 0xD8DCC778, 0x094C77CE, 0x90990E65, 0xDF2FD9CB), State(0x0AE36A63, 0x16965BFA, 0x88E5BDDF, 0x753C168A, 0x52793F15), w, 51, 0xC4E8734E,
             State(0x0B9161CC, 0xE3C031DB, 0x8EF20ECC, 0x197ECC44, 0x546BF055), State(0x179EDB7A, 0x0AE36A63, 0x85A596FE, 0x88E5BDDF, 0x753C168A));
    FoldStep(State(0x0B9161CC, 0xE3C031DB, 0x8EF20ECC, 0x197ECC44, 0x546BF055), State(0x179EDB7A, 0x0AE36A63, 0x85A596FE, 0x88E5BDDF, 0x753C168A), w, 52, 0xDEFBCCC5,
             State(0x6BA63038, 0xFB5F0D55, 0x51AAE964, 0x9F246342, 0xDD51AE34), State(0x6014CE6C, 0x179EDB7A, 0xC2B8DA98, 0x85A596FE, 0x88E5BDDF));
    FoldStep(State(0x6BA63038, 0xFB5F0D55, 0x51AAE964, 0x9F246342, 0xDD51AE34), State(0x6014CE6C, 0x179EDB7A, 0xC2B8DA98, 0x85A596FE, 0x88E5BDDF), w, 53, 0x6140FA66,
             State(0x6F3F4DDF, 0x5B73DBC1, 0xD792A042, 0x61DD3DDA, 0x62F74532), State(0x03991DA7, 0x6014CE6C, 0x85E7B6DE, 0xC2B8DA98, 0x85A596FE));
    FoldStep(State(0x6F3F4DDF, 0x5B73DBC1, 0xD792A042, 0x61DD3DDA, 0x62F74532), State(0x03991DA7, 0x6014CE6C, 0x85E7B6DE, 0xC2B8DA98, 0x85A596FE), w, 54, 0x7610C1FD,
             State(0x2DE9F772, 0x5F0CF968, 0xEF97D3DD, 0xE7C4F4B8, 0x25B01FCA), State(0xBEAAA993, 0x03991DA7, 0x1805339B, 0x85E7B6DE, 0xC2B8DA98));
    FoldStep(State(0x2DE9F772, 0x5F0CF968, 0xEF97D3DD, 0xE7C4F4B8, 0x25B01FCA), State(0xBEAAA993, 0x03991DA7, 0x1805339B, 0x85E7B6DE, 0xC2B8DA98), w, 55, 0x54AA35BB,
             State(0xAB432EB7, 0x1DB7A2FB, 0xB07E1B46, 0xFFCA2853, 0xAB97D6A8), State(0x7D593745, 0xBEAAA993, 0xC0E64769, 0x1805339B, 0x85E7B6DE));
    FoldStep(State(0xAB432EB7, 0x1DB7A2FB, 0xB07E1B46, 0xFFCA2853, 0xAB97D6A8), State(0x7D593745, 0xBEAAA993, 0xC0E64769, 0x1805339B, 0x85E7B6DE), w, 56, 0x1601A26C,
             State(0x1A155127, 0x9B10DA40, 0xA028C5AA, 0xC0B06FBC, 0xC39D0A43), State(0x6ED22270, 0x7D593745, 0xEFAAAA64, 0xC0E64769, 0x1805339B));
    FoldStep(State(0x1A155127, 0x9B10DA40, 0xA028C5AA, 0xC0B06FBC, 0xC39D0A43), State(0x6ED22270, 0x7D593745, 0xEFAAAA64, 0xC0E64769, 0x1805339B), w, 57, 0x3879021E,
             State(0xC1DDB92E, 0x09E2FCB0, 0xFF7F137B, 0xB05B1A20, 0x848351AC), State(0xA7C86807, 0x6ED22270, 0x5F564DD1, 0xEFAAAA64, 0xC0E64769));
    FoldStep(State(0xC1DDB92E, 0x09E2FCB0, 0xFF7F137B, 0xB05B1A20, 0x848351AC), State(0xA7C86807, 0x6ED22270, 0x5F564DD1, 0xEFAAAA64, 0xC0E64769), w, 58, 0x54C0C6C8,
             State(0xCF7FAF9F, 0xB1AB64B7, 0x1B339C17, 0x0FB167F1, 0x742DFC10), State(0x0DA1F671, 0xA7C86807, 0x1BB4889C, 0x5F564DD1, 0xEFAAAA64));
    FoldStep(State(0xCF7FAF9F, 0xB1AB64B7, 0x1B339C17, 0x0FB167F1, 0x742DFC10), State(0x0DA1F671, 0xA7C86807, 0x1BB4889C, 0x5F564DD1, 0xEFAAAA64), w, 59, 0x1C2CFB01,
             State(0x3E862896, 0xBF4D5B28, 0x0525B618, 0x2B65F08D, 0xD38449E1), State(0x6F0678F7, 0x0DA1F671, 0xE9F21A01, 0x1BB4889C, 0x5F564DD1));
  }

  lemma HelloWorldFold60To69()
    ensures ProcessBlockAsWritten(H0, HelloWorldSchedule)
      == FoldEachRound(State(0x6E2B8128, 0xDDBFFA6C, 0x4438E210, 0x0491FB07, 0xE1A3F471),
                       State(0x80393245, 0x2FC7E5C4, 0x4FD93B7F, 0xE6C0E886, 0x6E2B0B95), HelloWorldSchedule, 70)
  {
    var w := HelloWorldSchedule;
    HelloWorldScheduleWords();
    // One call per round: the new working state v' and the running h' = h + v', carried to the next call.
    HelloWorldFold50To59();
    FoldStep(State(0x3E862896, 0xBF4D5B28, 0x0525B618, 0x2B65F08D, 0xD38449E1), State(0x6F0678F7, 0x0DA1F671, 0xE9F21A01, 0x1BB4889C, 0x5F564DD1), w, 60, 0x2066BB2A,
             State(0x695C7740, 0x2E53D41F, 0x488E33B4, 0x15580A8E, 0xEF38D27D), State(0x2AD64EAA, 0x6F0678F7, 0x43687D9C, 0xE9F21A01, 0x1BB4889C));
    FoldStep(State(0x695C7740, 0x2E53D41F, 0x488E33B4, 0x15580A8E, 0xEF38D27D), State(0x2AD64EAA, 0x6F0678F7, 0x43687D9C, 0xE9F21A01, 0x1BB4889C), w, 61, 0xFA24FB89,
             State(0x69FEB1EA, 0x592A22C9, 0x244FD1F1, 0x58C0882A, 0xD92AEC7E), State(0x00A23AAA, 0x2AD64EAA, 0xDBC19E3D, 0x43687D9C, 0xE9F21A01));
    FoldStep(State(0x69FEB1EA, 0x592A22C9, 0x244FD1F1, 0x58C0882A, 0xD92AEC7E), State(0x00A23AAA, 0x2AD64EAA, 0xDBC19E3D, 0x43687D9C, 0xE9F21A01), w, 62, 0x6FC348AC,
             State(0x54DDD8B8, 0x59CC5D73, 0xAF05659B, 0x34822667, 0x1C936A1A), State(0xEADF26CE, 0x00A23AAA, 0x8AB593AA, 0xDBC19E3D, 0x43687D9C));
    FoldStep(State(0x54DDD8B8, 0x59CC5D73, 0xAF05659B, 0x34822667, 0x1C936A1A), State(0xEADF26CE, 0x00A23AAA, 0x8AB593AA, 0xDBC19E3D, 0x43687D9C), w, 63, 0x70C95906,
             State(0x812D824A, 0x44AB8441, 0x2F2DF445, 0xBF37BA11, 0xF8550857), State(0x2C4FA992, 0xEADF26CE, 0x80288EAA, 0x8AB593AA, 0xDBC19E3D));
    FoldStep(State(0x812D824A, 0x44AB8441, 0x2F2DF445, 0xBF37BA11, 0xF8550857), State(0x2C4FA992, 0xEADF26CE, 0x80288EAA, 0x8AB593AA, 0xDBC19E3D), w, 64, 0x998C5A42,
             State(0x2B15AAB2, 0x70FB2DD3, 0xE9E5BDF8, 0x3F6048BB, 0x830A9C01), State(0xA9E82868, 0x2C4FA992, 0xBAB7C9B3, 0x80288EAA, 0x8AB593AA));
    FoldStep(State(0x2B15AAB2, 0x70FB2DD3, 0xE9E5BDF8, 0x3F6048BB, 0x830A9C01), State(0xA9E82868, 0x2C4FA992, 0xBAB7C9B3, 0x80288EAA, 0x8AB593AA), w, 65, 0x0FBDDD35,
             State(0xE3C1D907, 0x1AE3563B, 0x74F9A85C, 0xFA18126E, 0x03332AAB), State(0xB8AC2E55, 0xA9E82868, 0x8B13EA64, 0xBAB7C9B3, 0x80288EAA));
    FoldStep(State(0xE3C1D907, 0x1AE3563B, 0x74F9A85C, 0xFA18126E, 0x03332AAB), State(0xB8AC2E55, 0xA9E82868, 0x8B13EA64, 0xBAB7C9B3, 0x80288EAA), w, 66, 0xA2A67B25,
             State(0x7EC57B22, 0xD38F8490, 0x9F73B276, 0x852BFCD2, 0xBDEAF45E), State(0x9B03A21B, 0xB8AC2E55, 0x2A7A0A1A, 0x8B13EA64, 0xBAB7C9B3));
    FoldStep(State(0x7EC57B22, 0xD38F8490, 0x9F73B276, 0x852BFCD2, 0xBDEAF45E), State(0x9B03A21B, 0xB8AC2E55, 0x2A7A0A1A, 0x8B13EA64, 0xBAB7C9B3), w, 67, 0x401050D6,
             State(0xBE2A691F, 0x6E9326AB, 0x0D9EBE0B, 0xAFA606EC, 0x48FEDEC2), State(0x3F64EDFD, 0x9B03A21B, 0x6E2B0B95, 0x2A7A0A1A, 0x8B13EA64));
    FoldStep(State(0xBE2A691F, 0x6E9326AB, 0x0D9EBE0B, 0xAFA606EC, 0x48FEDEC2), State(0x3F64EDFD, 0x9B03A21B, 0x6E2B0B95, 0x2A7A0A1A, 0x8B13EA64), w, 68, 0x0E60D64F,
             State(0xEDF24EE3, 0xADF814A8, 0xF45FA691, 0x1DD11281, 0x7378E8DC), State(0x2FC7E5C4, 0x3F64EDFD, 0xE6C0E886, 0x6E2B0B95, 0x2A7A0A1A));
    FoldStep(State(0xEDF24EE3, 0xADF814A8, 0xF45FA691, 0x1DD11281, 0x7378E8DC), State(0x2FC7E5C4, 0x3F64EDFD, 0xE6C0E886, 0x6E2B0B95, 0x2A7A0A1A), w, 69, 0xDAD09EE2,
             State(0x6E2B8128, 0xDDBFFA6C, 0x4438E210, 0x0491FB07, 0xE1A3F471), State(0x80393245, 0x2FC7E5C4, 0x4FD93B7F, 0xE6C0E886, 0x6E2B0B95));
  }

  lemma HelloWorldFold70To79()
    ensures ProcessBlockAsWritten(H0, HelloWorldSchedule)
      == FoldEachRound(State(0xB288B1CE, 0xDEED1423, 0x9A1598E1, 0x2D26E0F6, 0xC0A07A73),
                       State(0xC3694934, 0xD982242B, 0x7D210C61, 0x30594873, 0x5B1564FD), HelloWorldSchedule, 80)
  {
    var w := HelloWorldSchedule;
    HelloWorldScheduleWords();
    // One call per round: the new working state v' and the running h' = h + v', carried to the next call.
    HelloWorldFold60To69();
    FoldStep(State(0x6E2B8128, 0xDDBFFA6C, 0x4438E210, 0x0491FB07, 0xE1A3F471), State(0x80393245, 0x2FC7E5C4, 0x4FD93B7F, 0xE6C0E886, 0x6E2B0B95), w, 70, 0x9F84F7D6,
             State(0xD442C556, 0x5DF92CB1, 0x502ADB81, 0x546B3686, 0xC864DCF7), State(0x6617442E, 0x80393245, 0x0BF1F971, 0x4FD93B7F, 0xE6C0E886));
    FoldStep(State(0xD442C556, 0x5DF92CB1, 0x502ADB81, 0x546B3686, 0xC864DCF7), State(0x6617442E, 0x80393245, 0x0BF1F971, 0x4FD93B7F, 0xE6C0E886), w, 71, 0x24F571D8,
             State(0x315657A1, 0xC41070DF, 0xB0392812, 0x605D2FF7, 0x183E1876), State(0x5D13924B, 0x6617442E, 0x600E4C91, 0x0BF1F971, 0x4FD93B7F));
    FoldStep(State(0x315657A1, 0xC41070DF, 0xB0392812, 0x605D2FF7, 0x183E1876), State(0x5D13924B, 0x6617442E, 0x600E4C91, 0x0BF1F971, 0x4FD93B7F), w, 72, 0x033B4008,
             State(0xFF28D037, 0x2124032A, 0x49BEF91D, 0xC06B7C88, 0x243011E7), State(0xCDD27896, 0x5D13924B, 0x9985D10B, 0x600E4C91, 0x0BF1F971));
    FoldStep(State(0xFF28D037, 0x2124032A, 0x49BEF91D, 0xC06B7C88, 0x243011E7), State(0xCDD27896, 0x5D13924B, 0x9985D10B, 0x600E4C91, 0x0BF1F971), w, 73, 0x68D9A7F9,
             State(0x9D3E5621, 0xEEF67BC0, 0x2103DDAF, 0x59F14D93, 0x843E5E78), State(0x9E1585EA, 0xCDD27896, 0xD744E492, 0x9985D10B, 0x600E4C91));
    FoldStep(State(0x9D3E5621, 0xEEF67BC0, 0x2103DDAF, 0x59F14D93, 0x843E5E78), State(0x9E1585EA, 0xCDD27896, 0xD744E492, 0x9985D10B, 0x600E4C91), w, 74, 0xE5EAEE3F,
             State(0xF35E5D29, 0x8D0C01AA, 0xD4787BD4, 0x31363225, 0x1DC42F83), State(0x56200708, 0x9E1585EA, 0xB3749E25, 0xD744E492, 0x9985D10B));
    FoldStep(State(0xF35E5D29, 0x8D0C01AA, 0xD4787BD4, 0x31363225, 0x1DC42F83), State(0x56200708, 0x9E1585EA, 0xB3749E25, 0xD744E492, 0x9985D10B), w, 75, 0x4A4620AD,
             State(0x5FB3F11E, 0xE32C08B2, 0x7BFDDD4E, 0xE4AAD04A, 0xF5091415), State(0x6C5593F5, 0x56200708, 0xA785617A, 0xB3749E25, 0xD744E492));
    FoldStep(State(0x5FB3F11E, 0xE32C08B2, 0x7BFDDD4E, 0xE4AAD04A, 0xF5091415), State(0x6C5593F5, 0x56200708, 0xA785617A, 0xB3749E25, 0xD744E492), w, 76, 0x52390460,
             State(0x211912EA, 0x4F819CA7, 0x9185DF10, 0x8C3031C4, 0xA87DB23A), State(0xC16521CC, 0x6C5593F5, 0x158801C2, 0xA785617A, 0xB3749E25));
    FoldStep(State(0x211912EA, 0x4F819CA7, 0x9185DF10, 0x8C3031C4, 0xA87DB23A), State(0xC16521CC, 0x6C5593F5, 0x158801C2, 0xA785617A, 0xB3749E25), w, 77, 0x6BAFA4A5,
             State(0x159D446F, 0x10E6BE73, 0xEC9B440D, 0xA1B83386, 0x500313B4), State(0xF4843185, 0xC16521CC, 0x5B1564FD, 0x158801C2, 0xA785617A));
    FoldStep(State(0x159D446F, 0x10E6BE73, 0xEC9B440D, 0xA1B83386, 0x500313B4), State(0xF4843185, 0xC16521CC, 0x5B1564FD, 0x158801C2, 0xA785617A), w, 78, 0x471B8B2A,
             State(0xEF1F689A, 0x056AEFF8, 0x1CF48C80, 0xFCCD9883, 0x658B1576), State(0xD982242B, 0xF4843185, 0x30594873, 0x5B1564FD, 0x158801C2));
    FoldStep(State(0xEF1F689A, 0x056AEFF8, 0x1CF48C80, 0xFCCD9883, 0x658B1576), State(0xD982242B, 0xF4843185, 0x30594873, 0x5B1564FD, 0x158801C2), w, 79, 0x1371E316,
             State(0xB288B1CE, 0xDEED1423, 0x9A1598E1, 0x2D26E0F6, 0xC0A07A73), State(0xC3694934, 0xD982242B, 0x7D210C61, 0x30594873, 0x5B1564FD));
  }

  /**
    Adding the working state into h after every round, as src/sha1.rs:79 does,
    ends the "hello world" block in a different state from the standard single
    addition after the last round.
   */
  lemma FoldEachRoundDiffers()
    ensures ProcessBlockAsWritten(H0, HelloWorldSchedule) == State(0xB288B1CE, 0xDEED1423, 0x9A1598E1, 0x2D26E0F6, 0xC0A07A73)
    ensures ProcessBlockAsWritten(H0, HelloWorldSchedule) != ProcessBlock(H0, HelloWorldSchedule)
  {
    HelloWorldFold70To79();
    HelloWorldBlock();
  }
}
