# SHA-1 digest engine of gitrs, in Dafny

This project models `src/sha1.rs` of gitrs: the `Sha1` digest value and how it is computed and written.

- `Sha1::encode` hashes a byte message. It pads the message, reads each 64-byte block as sixteen big-endian words and expands them to an eighty-word schedule. Eighty rounds mix the schedule into five working words, which are added into the running state. The final state is serialised big-endian into twenty bytes.
- `TryFrom<&[u8]>` wraps exactly twenty bytes.
- `TryFrom<&str>` parses hexadecimal text two characters at a time.
- `Display` prints the digest as forty uppercase hexadecimal digits.

Modules follow the parts of that file:

- `BigEndian`: bytes, words, `u32::from_be_bytes`, `u32::to_be_bytes` and `u64::to_be_bytes`.
- `Padding`: the padded buffer.
- `MessageSchedule`: the eighty-word schedule.
- `Compression`: rounds and the fold into the running state.
- `Hash`: `Sha1::encode` over all blocks.
- `Digest`: the `Sha1` type, its constructors and `Display`.
- `KnownAnswers`: the digest of "hello world", worked out step by step.
- `Wrappers`: `Option` and `Result`.

The model follows the code in the following places:

- `Digest.FromHex` models the parser as written:
  - it searches the seventeen-letter alphabet `"0123456789ABCDEFG"`, so `G` is accepted: as a high nibble it shifts out of the `u8`, and as a low nibble it sets bit 4;
  - it rejects lowercase;
  - it reads only the ⌊n/2⌋ complete character pairs and ignores an odd trailing character;
  - it leaves the bytes after the last pair at zero;
  - it needs at most 41 characters, because a 21st pair indexes past `bytes[19]` at `src/sha1.rs:29`.
- The code departs from FIPS 180-4 at two lines, listed under "## Findings":
  - `src/sha1.rs:48` writes the byte length where the standard requires the bit length;
  - `src/sha1.rs:79` adds the working state into `h` after every round instead of once per block.

  The model uses the standard behaviour at both lines, which is what the test at `src/sha1.rs:140-144` expects. It also keeps the as-written behaviour as separate members and proves that it differs.

## Model

| member | source | states |
|---|---|---|
| `Digest.FromBytes` | src/sha1.rs:7-12 | Succeeds exactly when the slice has twenty bytes; the digest then holds those bytes; otherwise the error is `TryFromSliceError` |
| `Digest.HexOfBytes` | src/sha1.rs:89-91 | Two characters per byte, in order: the `{:02X}` digits of the high and then the low nibble |
| `Digest.HexDigitIsUpperHexDigit` | src/sha1.rs:90 | The digit printed for a nibble is that nibble's entry in "0123456789ABCDEF" |
| `Digest.Display` | src/sha1.rs:87-94 | Forty characters, all uppercase hexadecimal digits; characters 2i and 2i+1 are the high and low nibble of byte i |
| `Digest.Find` | src/sha1.rs:27-28 | `str::find`: none exactly when the character is absent, otherwise the index of its first occurrence |
| `Digest.NibbleIsFind` | src/sha1.rs:19-28 | The closed-form nibble ('0'-'9' to 0-9, 'A'-'G' to 10-16, anything else fails) equals the index `find` reports in "0123456789ABCDEFG" |
| `Digest.PairValue` | src/sha1.rs:27-29 | A character pair yields a byte exactly when both characters are in the seventeen-letter alphabet |
| `Digest.PairValueByte` | src/sha1.rs:27-29 | The byte a pair yields is find(a) shifted left by four, or-ed with find(b), truncated to `u8`, with both indices taken in "0123456789ABCDEFG" |
| `Digest.DecodePairs` | src/sha1.rs:21-30 | Succeeds exactly when every character of the ⌊n/2⌋ complete pairs is in the alphabet; pair i then decodes to byte i |
| `Digest.FromHex` | src/sha1.rs:18-32 | Succeeds exactly when every consumed character is in the alphabet; byte i is the value of pair i; bytes past the last pair are zero |
| `Digest.PairOfHexDigits` | src/sha1.rs:27-29 | The two digits `Display` prints for a byte parse back to that byte |
| `Digest.FromHexDisplay` | src/sha1.rs:18-32 | Parsing the text a digest prints gives back the digest |
| `Digest.DisplayFromHex` | src/sha1.rs:120-123 | Forty uppercase hexadecimal digits parse successfully and print back as the same text |
| `Digest.FromBytesDisplayRoundTrip` | src/sha1.rs:135-137 | A digest built from twenty bytes prints as text that parses back to a digest of the same bytes |
| `Digest.DecodePairsIgnoresOddTrailing` | src/sha1.rs:21-25 | Appending one character to an even-length text leaves the pair decoding unchanged |
| `Digest.FromHexIgnoresOddTrailing` | src/sha1.rs:21-25 | Appending any one character to an even-length text of at most forty characters leaves the parse unchanged |
| `Digest.FromHexQuirks` | src/sha1.rs:19-29 | Lowercase "ab" is rejected; "GG" parses to 0x10 followed by zeros; the empty text parses to twenty zero bytes |
| `BigEndian.WordToBytesValue` | src/sha1.rs:82 | The four bytes `u32::to_be_bytes` gives are the word's base-256 digits, most significant first |
| `BigEndian.WordFromBytesValue` | src/sha1.rs:51 | `u32::from_be_bytes` of four bytes is the number with those bytes as base-256 digits, most significant first |
| `BigEndian.WordBytesRoundTrip` | src/sha1.rs:51 | `u32::from_be_bytes` of `u32::to_be_bytes` of a word is that word |
| `BigEndian.BytesWordRoundTrip` | src/sha1.rs:51 | `u32::to_be_bytes` of `u32::from_be_bytes` of four bytes gives back those bytes |
| `BigEndian.NatToBytes` | src/sha1.rs:48 | The k-byte big-endian encoding of n has length k |
| `BigEndian.NatToBytesValue` | src/sha1.rs:48 | Reading the k-byte encoding of n back as a big-endian number gives n |
| `BigEndian.WordsToBytes` | src/sha1.rs:82 | Four bytes per word; bytes 4i to 4i+3 are word i big-endian |
| `BigEndian.BytesToWords` | src/sha1.rs:50-51 | One word per four bytes; word i is bytes 4i to 4i+3 read big-endian |
| `BigEndian.WordsBytesRoundTrip` | src/sha1.rs:82 | Splitting the serialised words back into words gives the words |
| `BigEndian.BytesWordsRoundTrip` | src/sha1.rs:50-51 | Serialising the words read from a byte string gives back the byte string |
| `Padding.PaddedLength` | src/sha1.rs:38-42 | The buffer length is a multiple of 64, at least n+9 and at most n+72; it has one block more than n/64 when n mod 64 ≤ 55 and two more otherwise |
| `Padding.PaddedLengthIsLeast` | src/sha1.rs:38-42 | No multiple of 64 smaller than the buffer length holds the message, the 0x80 byte and the eight-byte length |
| `Padding.PadWith` | src/sha1.rs:44-48 | The message, then 0x80, then zeros, then the given trailer as eight big-endian bytes, with the length of `PaddedLength` |
| `Padding.Pad` | src/sha1.rs:44-48 | The standard padded buffer: the message, 0x80, zeros, and the message length in bits as eight big-endian bytes |
| `Padding.PadAsWritten` | src/sha1.rs:48 | The buffer as written: its last eight bytes read back as the length in bytes |
| `Padding.AsWrittenTrailerDiffers` | src/sha1.rs:48 | For every non-empty message the as-written buffer differs from the standard one |
| `MessageSchedule.Extend` | src/sha1.rs:58-60 | Keeps the given words as a prefix and fills positions up to 80 by the recurrence |
| `MessageSchedule.Schedule` | src/sha1.rs:53-60 | Eighty words that start with the block's sixteen words, each later word given by the recurrence |
| `MessageSchedule.ScheduleUnique` | src/sha1.rs:53-60 | Any eighty words that start with the block and follow the recurrence are exactly `Schedule(block)` |
| `MessageSchedule.ScheduleRecurrence` | src/sha1.rs:59 | Word i (16 ≤ i < 80) of a schedule is (w[i-3] ^ w[i-8] ^ w[i-14] ^ w[i-16]) rotated left by one |
| `Compression.ChAsOr` | src/sha1.rs:66 | The code's or-based choice function equals the xor-based Ch of section 4.1.1 of FIPS 180-4 |
| `Compression.MajAsOr` | src/sha1.rs:68 | The code's or-based majority function equals the xor-based Maj of section 4.1.1 of FIPS 180-4 |
| `Compression.OrChoice` | src/sha1.rs:66 | The code's or-based choice of b, c, d is the choice function Ch of section 4.1.1 of FIPS 180-4 |
| `Compression.OrMajority` | src/sha1.rs:68 | The code's or-based majority of b, c, d is the majority function Maj of section 4.1.1 of FIPS 180-4 |
| `Compression.FK` | src/sha1.rs:65-71 | For every round below 80, f is the FIPS 180-4 function of that group of twenty rounds (Ch, Parity, Maj, Parity) and k its constant from section 4.2.1; the `unreachable!()` arm is never taken |
| `Compression.CompressBlock` | src/sha1.rs:62-80 | With the fold after the loop: the working state after t rounds is `RunRounds(h, w, t)`, each round being T = ROTL5(a) + f_t + e + K_t + W_t then (T, a, ROTL30(b), c, d); the result is h plus the state after round 80, as in section 6.1.2 of FIPS 180-4 |
| `Compression.CompressBlockAsWritten` | src/sha1.rs:62-80 | As written: the result is h plus, word-wise modulo 2^32, each of the eighty working states after rounds 1 to 80 |
| `Compression.AsWrittenIsSumOfRounds` | src/sha1.rs:62-80 | The recursive as-written fold equals h plus the sum of all eighty intermediate working states, where the standard fold adds only the last |
| `Hash.BlockScheduleWords` | src/sha1.rs:50-60 | The schedule of a block starts with its sixteen four-byte groups read big-endian and follows the recurrence |
| `Hash.ProcessBlocksAppend` | src/sha1.rs:50-81 | Processing the blocks of p followed by those of q is processing q from the state that p leaves |
| `Hash.CompressChunks` | src/sha1.rs:50-81 | Compressing the 64-byte chunks in order, one block per iteration, leaves the state `ProcessBlocks` defines |
| `Hash.EncodeByChunks` | src/sha1.rs:37-84 | Padding, the chunk loop from H0 and serialisation together compute `Encode` |
| `Hash.Serialize` | src/sha1.rs:82-83 | The twenty digest bytes read back as words are the five state words in order |
| `Hash.SerializeLayout` | src/sha1.rs:82-83 | Digest byte i is byte i mod 4, most significant first, of state word i div 4 |
| `Hash.Encode` | src/sha1.rs:37-84 | The digest bytes, read as words, are the state after all blocks of the padded message, starting from H0 |
| `Hash.EncodeShortMessage` | src/sha1.rs:37-84 | A message of at most 55 bytes pads to one block, and its digest serialises one compression of H0 |
| `KnownAnswers.HelloWorldBlockWords` | src/sha1.rs:44-51 | "hello world" pads to one block; its words are 68656C6C 6F20776F 726C6480, eleven zero words, 0 and 58 |
| `KnownAnswers.HelloWorldScheduleWords` | src/sha1.rs:53-60 | All eighty schedule words of that block |
| `KnownAnswers.HelloWorldBlock` | src/sha1.rs:62-80 | The standard compression of that block from H0 ends in 2AAE6C35 C94FCFB4 15DBE95F 408B9CE9 1EE846ED |
| `KnownAnswers.HelloWorldDisplay` | src/sha1.rs:87-94 | A digest with the expected twenty bytes prints as 2AAE6C35C94FCFB415DBE95F408B9CE91EE846ED |
| `KnownAnswers.EncodeHelloWorld` | src/sha1.rs:140-144 | `encode(b"hello world")` prints as 2AAE6C35C94FCFB415DBE95F408B9CE91EE846ED |
| `KnownAnswers.FoldEachRoundDiffers` | src/sha1.rs:62-80 | Folding after every round, as written, ends that block in B288B1CE DEED1423 9A1598E1 2D26E0F6 C0A07A73, which is not the standard result |

## Left out

- `println!` at `src/sha1.rs:49` and `src/sha1.rs:61` is output only and has no effect on the result.
- `debug_assert_ne!` at `src/sha1.rs:55` is never violated, because a 64-byte chunk has sixteen words. `BytesToWords` states this word count.
- `assert_eq!` at `src/sha1.rs:45` is the `len % 64 == 0` fact that `Padding.PaddedLength` ensures.
- The `unwrap()` calls at `src/sha1.rs:51` and `src/sha1.rs:83` cannot fail. The lengths are fixed by preconditions that the callers always meet: `WordFromBytes` requires four bytes, which `BytesToWords` always passes, and a `Sha1` holds a `Bytes20`, a subset type of exactly twenty bytes.
- `write!(..).unwrap()` at `src/sha1.rs:90` is left out. A failing formatter is I/O and is not modelled.
- `Digest.FromHex` requires at most 41 characters.
  - Past that, `bytes[i]` at `src/sha1.rs:29` panics once a 21st pair has been looked up successfully.
  - Longer input whose first 21 pairs contain a character outside the alphabet returns `Err(())` in the code. The precondition excludes it.
- `Padding.Pad` and `Hash.Encode` require messages shorter than 2^61 bytes, so that the bit length fits the 64-bit trailer (section 5.1.1 of FIPS 180-4). `Padding.PadAsWritten` admits any length below 2^64.
- `str::chars` yields Unicode scalar values. Strings are sequences of `char`. `Digest.Find` uses character indices, which match `str::find`'s byte indices because the searched alphabet is ASCII.
- `src/lib.rs` is not part of this model. Its repository path holder and object-kind enumeration have no behaviour.
- The rstest test functions are not modelled as such. `KnownAnswers.EncodeHelloWorld` and `Digest.DisplayFromHex` state the properties of the tests at `src/sha1.rs:120-123` and `src/sha1.rs:140-144`.
- The other literal test cases at `src/sha1.rs:111-134` are not stated one by one.

## Findings

| source | as written | input that shows it | evidently intended | confidence | as-written member | corrected member |
|---|---|---|---|---|---|---|
| src/sha1.rs:48 | The trailer is `data.len()`, the message length in bytes | "hello world": the trailer holds 11 where SHA-1 needs 88 | The length in bits, 8·len, as section 5.1.1 of FIPS 180-4 requires and the test at src/sha1.rs:140-144 expects | high; not executed | `Padding.AsWrittenTrailerDiffers` | `Padding.Pad` |
| src/sha1.rs:79 | `h` absorbs the working state after each of the eighty rounds | The standard-padded "hello world" block (trailer 88): folding after every round ends in B288B1CE DEED1423 9A1598E1 2D26E0F6 C0A07A73 | One addition after the 80th round (section 6.1.2 step 4 of FIPS 180-4). This gives 2AAE6C35 C94FCFB4 15DBE95F 408B9CE9 1EE846ED, the digest the test at src/sha1.rs:140-144 expects (`KnownAnswers.EncodeHelloWorld`) | high; not executed | `KnownAnswers.FoldEachRoundDiffers` | `KnownAnswers.HelloWorldBlock` |
