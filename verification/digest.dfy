/**
  The `Sha1` digest value (src/sha1.rs:5) with its two fallible constructors,
  `TryFrom<&[u8]>` and `TryFrom<&str>`, and its `Display` formatting as
  uppercase hexadecimal.
 */
module Digest {
  import opened Wrappers
  import opened BigEndian

  /** Exactly twenty bytes, the `[u8; 20]` a digest wraps. */
  type Bytes20 = s: seq<byte> | |s| == 20 witness Zeros(20)

  datatype Sha1 = Sha1(bytes: Bytes20)

  /** The error `<[u8; 20]>::try_from` reports for a slice of the wrong length. */
  datatype TryFromSliceError = TryFromSliceError

  function Zeros(n: nat): (z: seq<byte>)
    ensures |z| == n
    ensures forall i :: 0 <= i < n ==> z[i] == 0
  {
    seq(n, _ => 0)
  }

  /** `TryFrom<&[u8]>`: a digest holding exactly the given bytes, if there are twenty of them. */
  function FromBytes(value: seq<byte>): (r: Result<Sha1, TryFromSliceError>)
    ensures r.Success? <==> |value| == 20
    ensures r.Success? ==> r.value.bytes == value
  {
    if |value| == 20 then Success(Sha1(value)) else Failure(TryFromSliceError)
  }

  // ---------------------------------------------------------------------------
  // Formatting: `Display` prints every byte as `{:02X}`.
  // ---------------------------------------------------------------------------

  /** The sixteen digits `{:X}` prints, in value order. */
  const UpperHexDigits: string := "0123456789ABCDEF"

  /** One nibble as `{:X}` prints it: '0'..'9', then 'A'..'F'. */
  function HexDigit(n: byte): (c: char)
    requires n < 16
  {
    if n < 10 then ('0' as int + n as int) as char else ('A' as int + n as int - 10) as char
  }

  lemma HexDigitIsUpperHexDigit(n: byte)
    requires n < 16
    ensures HexDigit(n) == UpperHexDigits[n]
  {
  }

  /** Each byte as two hexadecimal digits, high nibble first, bytes in order. */
  function HexOfBytes(bs: seq<byte>): (s: string)
    ensures |s| == 2 * |bs|
    ensures forall i :: 0 <= i < |bs| ==> s[2 * i] == HexDigit(bs[i] >> 4) && s[2 * i + 1] == HexDigit(bs[i] & 0xF)
  {
    if bs == [] then ""
    else
      var n := |bs| - 1;
      var front := HexOfBytes(bs[..n]);
      var s := front + [HexDigit(bs[n] >> 4), HexDigit(bs[n] & 0xF)];
      assert forall i :: 0 <= i < n ==> s[2 * i] == front[2 * i] && s[2 * i + 1] == front[2 * i + 1];
      s
  }

  /** `Display for Sha1`: forty uppercase hexadecimal digits, byte i at positions 2i and 2i+1. */
  function Display(d: Sha1): (s: string)
    ensures |s| == 40
    ensures forall j :: 0 <= j < 40 ==> s[j] in UpperHexDigits
    ensures forall i :: 0 <= i < 20 ==> s[2 * i] == HexDigit(d.bytes[i] >> 4) && s[2 * i + 1] == HexDigit(d.bytes[i] & 0xF)
  {
    var s := HexOfBytes(d.bytes);
    forall j | 0 <= j < 40
      ensures s[j] in UpperHexDigits
    {
      var i := j / 2;
      HexDigitIsUpperHexDigit(d.bytes[i] >> 4);
      HexDigitIsUpperHexDigit(d.bytes[i] & 0xF);
      assert j == 2 * i || j == 2 * i + 1;
    }
    s
  }

  // ---------------------------------------------------------------------------
  // Parsing: `TryFrom<&str>` (src/sha1.rs:18-32), modelled as written.
  // ---------------------------------------------------------------------------

  /** The alphabet the parser searches; it has a seventeenth letter, 'G'. */
  const ParseAlphabet: string := "0123456789ABCDEFG"

  /**
    `str::find` with a single-character pattern: the index of the first
    occurrence. The alphabet above is ASCII, so byte and character indices agree.
   */
  function Find(l: string, c: char): (r: Option<nat>)
    ensures r.None? <==> c !in l
    ensures r.Some? ==> r.value < |l| && l[r.value] == c && c !in l[..r.value]
  {
    if l == [] then None
    else if l[0] == c then Some(0)
    else
      match Find(l[1..], c)
      case None => None
      case Some(i) =>
        assert l[..i + 1] == [l[0]] + l[1..][..i];
        Some(i + 1)
  }

  lemma AlphabetAt(k: nat)
    requires k < 17
    ensures ParseAlphabet[k] as int == if k < 10 then '0' as int + k else 'A' as int + k - 10
  {
  }

  lemma NibbleIsFind(c: char)
    ensures Nibble(c) == Find(ParseAlphabet, c)
  {
    var r := Find(ParseAlphabet, c);
    if r.Some? {
      AlphabetAt(r.value);
    } else if Nibble(c).Some? {
      AlphabetAt(Nibble(c).value);
    }
  }

  /**
    The byte `a << 4 | b` for alphabet indices a and b, computed in `u8`: the
    shift drops bits, so a high 'G' (index 16) contributes nothing and a low
    'G' sets bit 4.
   */
  function PairByte(a: nat, b: nat): byte
    requires a < 17 && b < 17
  {
    ((a as byte) << 4) | b as byte
  }

  /**
    The position of c in the parser's alphabet, as `l.find(c)` reports it
    (see NibbleIsFind): '0'..'9' are 0..9 and 'A'..'G' are 10..16.
   */
  function Nibble(c: char): (r: Option<nat>)
    ensures r.Some? ==> r.value < 17
  {
    if '0' <= c <= '9' then Some(c as int - '0' as int)
    else if 'A' <= c <= 'G' then Some(c as int - 'A' as int + 10)
    else None
  }

  /** One character pair looked up in the alphabet, failing when either character is missing. */
  function PairValue(a: char, b: char): (r: Option<byte>)
    ensures r.Some? <==> a in ParseAlphabet && b in ParseAlphabet
  {
    NibbleIsFind(a);
    NibbleIsFind(b);
    match Nibble(a)
    case None => None
    case Some(i) =>
      match Nibble(b)
      case None => None
      case Some(j) => Some(PairByte(i, j))
  }

  /**
    The byte a pair yields is `find(a) << 4 | find(b)` computed in `u8`
    (src/sha1.rs:27-29), with both indices taken in "0123456789ABCDEFG".
   */
  lemma PairValueByte(a: char, b: char)
    ensures PairValue(a, b).Some? ==>
      && Find(ParseAlphabet, a).Some? && Find(ParseAlphabet, b).Some?
      && PairValue(a, b).value == PairByte(Find(ParseAlphabet, a).value, Find(ParseAlphabet, b).value)
  {
    NibbleIsFind(a);
    NibbleIsFind(b);
  }

  /** Every character of the first m of s is in the parser's alphabet. */
  predicate InAlphabet(s: string, m: nat)
    requires m <= |s|
  {
    forall j :: 0 <= j < m ==> s[j] in ParseAlphabet
  }

  /** The pairs of s decode, one byte per pair, to the bytes of bs. */
  predicate PairsDecodeTo(s: string, bs: seq<byte>)
  {
    && |bs| == |s| / 2
    && forall i :: 0 <= i < |s| / 2 ==> PairValue(s[2 * i], s[2 * i + 1]) == Some(bs[i])
  }

  lemma PairsStep(s: string, x: byte, rest: seq<byte>)
    requires |s| >= 2 && PairValue(s[0], s[1]) == Some(x)
    requires PairsDecodeTo(s[2..], rest) && InAlphabet(s[2..], 2 * (|s[2..]| / 2))
    ensures PairsDecodeTo(s, [x] + rest) && InAlphabet(s, 2 * (|s| / 2))
  {
    PairsStepAlphabet(s);
    PairsStepDecode(s, x, rest);
  }

  lemma PairsStepAlphabet(s: string)
    requires |s| >= 2 && s[0] in ParseAlphabet && s[1] in ParseAlphabet
    requires InAlphabet(s[2..], 2 * (|s[2..]| / 2))
    ensures InAlphabet(s, 2 * (|s| / 2))
  {
    var tail := s[2..];
    forall j | 2 <= j < 2 * (|s| / 2)
      ensures s[j] in ParseAlphabet
    {
      assert s[j] == tail[j - 2];
    }
  }

  lemma PairsStepDecode(s: string, x: byte, rest: seq<byte>)
    requires |s| >= 2 && PairValue(s[0], s[1]) == Some(x)
    requires PairsDecodeTo(s[2..], rest)
    ensures PairsDecodeTo(s, [x] + rest)
  {
    forall i | 1 <= i < |s| / 2
      ensures PairValue(s[2 * i], s[2 * i + 1]) == Some(([x] + rest)[i])
    {
      PairShifted(s, s[2..], [x] + rest, rest, i);
    }
  }

  lemma PairShifted(s: string, tail: string, r: seq<byte>, rest: seq<byte>, i: nat)
    requires |s| >= 2 && tail == s[2..] && 1 <= i < |s| / 2
    requires |r| == |rest| + 1 && r[1..] == rest
    requires PairsDecodeTo(tail, rest)
    ensures PairValue(s[2 * i], s[2 * i + 1]) == Some(r[i])
  {
    var k := i - 1;
    assert PairValue(tail[2 * k], tail[2 * k + 1]) == Some(rest[k]);
    assert s[2 * i] == tail[2 * k] && s[2 * i + 1] == tail[2 * k + 1] && r[i] == rest[k];
  }

  lemma PairsStepFails(s: string)
    requires |s| >= 2 && !InAlphabet(s[2..], 2 * (|s[2..]| / 2))
    ensures !InAlphabet(s, 2 * (|s| / 2))
  {
    var tail := s[2..];
    var j :| 0 <= j < 2 * (|tail| / 2) && tail[j] !in ParseAlphabet;
    assert s[j + 2] == tail[j];
  }

  /**
    The bytes of the floor(|s|/2) character pairs of s (characters 2i and 2i+1),
    or None as soon as a consumed character is not in the alphabet; an odd
    trailing character is never looked at.
   */
  function DecodePairs(s: string): (r: Option<seq<byte>>)
    ensures r.Some? <==> InAlphabet(s, 2 * (|s| / 2))
    ensures r.Some? ==> PairsDecodeTo(s, r.value)
    decreases |s|
  {
    if |s| < 2 then Some([])
    else
      match PairValue(s[0], s[1])
      case None => None
      case Some(x) =>
        match DecodePairs(s[2..])
        case None => PairsStepFails(s); None
        case Some(rest) => PairsStep(s, x, rest); Some([x] + rest)
  }

  /**
    `TryFrom<&str>`: the consumed pairs fill the leading bytes, the rest stay 0,
    and any consumed character outside the alphabet (lowercase included) fails.
   */
  function FromHex(value: string): (r: Result<Sha1, ()>)
    // From the 21st pair on, `bytes[i]` at src/sha1.rs:29 indexes past the end and panics.
    requires |value| <= 41
    ensures r.Success? <==> forall j :: 0 <= j < 2 * (|value| / 2) ==> value[j] in ParseAlphabet
    ensures r.Success? ==> forall i :: 0 <= i < |value| / 2 ==> PairValue(value[2 * i], value[2 * i + 1]) == Some(r.value.bytes[i])
    ensures r.Success? ==> forall i :: |value| / 2 <= i < 20 ==> r.value.bytes[i] == 0
  {
    match DecodePairs(value)
    case None => Failure(())
    case Some(bs) => Success(Sha1(bs + Zeros(20 - |bs|)))
  }

  // ---------------------------------------------------------------------------
  // Round trips and the parser's quirks.
  // ---------------------------------------------------------------------------

  lemma UpperHexDigitNibble(c: char)
    requires c in UpperHexDigits
    ensures Nibble(c).Some? && Nibble(c).value < 16
    ensures HexDigit(Nibble(c).value as byte) == c
  {
  }

  lemma HexDigitNibble(n: byte)
    requires n < 16
    ensures Nibble(HexDigit(n)) == Some(n as nat)
  {
  }

  lemma PairByteNibbles(a: nat, b: nat)
    requires a < 16 && b < 16
    ensures PairByte(a, b) >> 4 == a as byte && PairByte(a, b) & 0xF == b as byte
  {
  }

  lemma ByteNatByte(n: byte)
    ensures (n as nat) as byte == n
  {
  }

  lemma NibblesJoin(x: byte)
    ensures ((x >> 4) << 4) | (x & 0xF) == x
  {
  }

  lemma PairOfHexDigits(x: byte)
    ensures PairValue(HexDigit(x >> 4), HexDigit(x & 0xF)) == Some(x)
  {
    HexDigitNibble(x >> 4);
    HexDigitNibble(x & 0xF);
    ByteNatByte(x >> 4);
    ByteNatByte(x & 0xF);
    NibblesJoin(x);
  }

  /** Parsing what `Display` prints gives back the digest. */
  lemma FromHexDisplay(d: Sha1)
    ensures FromHex(Display(d)) == Success(d)
  {
    var s := Display(d);
    forall j | 0 <= j < 40
      ensures s[j] in ParseAlphabet
    {
      UpperHexDigitNibble(s[j]);
    }
    var r := FromHex(s);
    forall i | 0 <= i < 20
      ensures r.value.bytes[i] == d.bytes[i]
    {
      PairOfHexDigits(d.bytes[i]);
    }
    assert r.value.bytes == d.bytes;
  }

  /** Printing the parse of forty uppercase hexadecimal digits gives back the text. */
  lemma DisplayFromHex(s: string)
    requires |s| == 40
    requires forall j :: 0 <= j < 40 ==> s[j] in UpperHexDigits
    ensures FromHex(s).Success?
    ensures Display(FromHex(s).value) == s
  {
    forall j | 0 <= j < 40
      ensures s[j] in ParseAlphabet
    {
      UpperHexDigitNibble(s[j]);
    }
    var t := Display(FromHex(s).value);
    forall j | 0 <= j < 40
      ensures t[j] == s[j]
    {
      DisplayFromHexPair(s, j / 2);
      assert j == 2 * (j / 2) || j == 2 * (j / 2) + 1;
    }
  }

  lemma DisplayFromHexPair(s: string, i: nat)
    requires |s| == 40 && i < 20
    requires forall j :: 0 <= j < 40 ==> s[j] in UpperHexDigits
    requires FromHex(s).Success?
    ensures Display(FromHex(s).value)[2 * i] == s[2 * i]
    ensures Display(FromHex(s).value)[2 * i + 1] == s[2 * i + 1]
  {
    UpperHexDigitNibble(s[2 * i]);
    UpperHexDigitNibble(s[2 * i + 1]);
    PairByteNibbles(Nibble(s[2 * i]).value, Nibble(s[2 * i + 1]).value);
  }

  /** A digest built from twenty raw bytes prints as text that parses back to those bytes. */
  lemma FromBytesDisplayRoundTrip(value: seq<byte>)
    requires |value| == 20
    ensures FromBytes(value).Success?
    ensures FromHex(Display(FromBytes(value).value)) == Success(Sha1(value))
  {
    FromHexDisplay(Sha1(value));
  }

  lemma {:induction false} DecodePairsIgnoresOddTrailing(s: string, c: char)
    requires |s| % 2 == 0
    ensures DecodePairs(s + [c]) == DecodePairs(s)
    decreases |s|
  {
    if |s| >= 2 {
      assert (s + [c])[2..] == s[2..] + [c];
      DecodePairsIgnoresOddTrailing(s[2..], c);
    }
  }

  /** An odd trailing character, whatever it is, does not change the parse. */
  lemma FromHexIgnoresOddTrailing(s: string, c: char)
    requires |s| % 2 == 0 && |s| <= 40
    ensures FromHex(s + [c]) == FromHex(s)
  {
    DecodePairsIgnoresOddTrailing(s, c);
  }

  /** Concrete inputs showing the parser's behaviour as written. */
  lemma FromHexQuirks()
    ensures FromHex("ab").Failure?
    ensures FromHex("GG") == Success(Sha1([0x10] + Zeros(19)))
    ensures FromHex("") == Success(Sha1(Zeros(20)))
  {
    FromHexLowercase();
    FromHexGG();
    assert [] + Zeros(20) == Zeros(20);
  }

  lemma FromHexLowercase()
    ensures FromHex("ab").Failure?
  {
    assert "ab"[0] !in ParseAlphabet;
  }

  lemma FromHexGG()
    ensures FromHex("GG") == Success(Sha1([0x10] + Zeros(19)))
  {
    assert PairValue('G', 'G') == Some(0x10) by {
      assert Nibble('G') == Some(16);
    }
    var gg := "GG";
    assert DecodePairs(gg[2..]) == Some([]) by { assert gg[2..] == ""; }
    assert DecodePairs(gg) == Some([0x10] + []);
    assert [0x10] + [] == [0x10 as byte];
  }
}
