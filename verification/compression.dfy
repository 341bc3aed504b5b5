/**
  The eighty rounds of SHA-1 compression and the fold into the running state
  (src/sha1.rs:43, 62-80), section 6.1.2 steps 2-4 of FIPS 180-4.
 */
module Compression {
  import opened BigEndian

  /** Five 32-bit words: the working variables a..e, or the running hash h. */
  datatype State = State(a: word, b: word, c: word, d: word, e: word)

  /** The initial running state, section 5.3.1 of FIPS 180-4 (src/sha1.rs:43). */
  const H0: State := State(0x67452301, 0xEFCDAB89, 0x98BADCFE, 0x10325476, 0xC3D2E1F0)

  /** The words of a state in order a, b, c, d, e. */
  function Words(s: State): (ws: seq<word>)
    ensures |ws| == 5
  {
    [s.a, s.b, s.c, s.d, s.e]
  }

  /** Word-by-word addition modulo 2^32 (`overflowing_add(..).0`). */
  function Add(h: State, v: State): State
  {
    State(h.a + v.a, h.b + v.b, h.c + v.c, h.d + v.d, h.e + v.e)
  }

  // Reference definitions from section 4.1.1 of FIPS 180-4, written with xor.

  function Ch(x: word, y: word, z: word): word { (x & y) ^ (!x & z) }

  function Parity(x: word, y: word, z: word): word { x ^ y ^ z }

  function Maj(x: word, y: word, z: word): word { (x & y) ^ (x & z) ^ (y & z) }

  /** The or-based choice of src/sha1.rs:66 is Ch: the two terms never share a set bit. */
  lemma ChAsOr(x: word, y: word, z: word)
    ensures (x & y) | (!x & z) == Ch(x, y, z)
  {
  }

  /** The or-based majority of src/sha1.rs:68 is Maj. */
  lemma MajAsOr(x: word, y: word, z: word)
    ensures (x & y) | (x & z) | (y & z) == Maj(x, y, z)
  {
  }

  /** The choice function as src/sha1.rs:66 writes it, with or. */
  function OrChoice(b: word, c: word, d: word): (r: word)
    ensures r == Ch(b, c, d)
  {
    ChAsOr(b, c, d);
    (b & c) | (!b & d)
  }

  /** The majority function as src/sha1.rs:68 writes it, with or. */
  function OrMajority(b: word, c: word, d: word): (r: word)
    ensures r == Maj(b, c, d)
  {
    MajAsOr(b, c, d);
    (b & c) | (b & d) | (c & d)
  }

  /** The four round constants of section 4.2.1 of FIPS 180-4, one per twenty rounds. */
  const K: seq<word> := [0x5A827999, 0x6ED9EBA1, 0x8F1BBCDC, 0xCA62C1D6]

  /** The function section 4.1.1 of FIPS 180-4 assigns to round t. */
  function StandardF(t: nat, b: word, c: word, d: word): word
    requires t < 80
  {
    if t < 20 then Ch(b, c, d) else if 40 <= t < 60 then Maj(b, c, d) else Parity(b, c, d)
  }

  /** The constant section 4.2.1 of FIPS 180-4 assigns to round t. */
  function StandardK(t: nat): word
    requires t < 80
  {
    if t < 20 then K[0] else if t < 40 then K[1] else if t < 60 then K[2] else K[3]
  }

  /**
    The pair (f, k) of round t (src/sha1.rs:65-71). Every round index below 80
    falls in one group of twenty, the code's or-based formulas compute the
    standard function of that group, and the fifth arm, `unreachable!()`, is
    never taken.
   */
  function FK(t: nat, b: word, c: word, d: word): (r: (word, word))
    requires t < 80
    ensures r.0 == StandardF(t, b, c, d)
    ensures r.1 == StandardK(t)
  {
    if t <= 19 then (OrChoice(b, c, d), 0x5A827999)
    else if t <= 39 then (b ^ c ^ d, 0x6ED9EBA1)
    else if t <= 59 then (OrMajority(b, c, d), 0x8F1BBCDC)
    else if t <= 79 then (b ^ c ^ d, 0xCA62C1D6)
    else assert false; (0, 0)
  }

  /** The new first word of a round, T = ROTL^5(a) + f + e + k + W_t, modulo 2^32 (src/sha1.rs:73). */
  function Temp(a: word, f: word, e: word, k: word, wt: word): word
  {
    a.RotateLeft(5) + f + e + k + wt
  }

  /**
    One round (src/sha1.rs:72-78), in the terms of section 6.1.2 step 3 of
    FIPS 180-4: T with the standard f_t and K_t, then e = d, d = c,
    c = ROTL^30(b), b = a, a = T.
   */
  function Round(v: State, t: nat, wt: word): State
    requires t < 80
  {
    var (f, k) := FK(t, v.b, v.c, v.d);
    State(Temp(v.a, f, v.e, k, wt), v.a, v.b.RotateLeft(30), v.c, v.d)
  }

  /** The working state after the first n rounds over the schedule w. */
  function RunRounds(v: State, w: seq<word>, n: nat): State
    requires |w| == 80 && n <= 80
  {
    if n == 0 then v else Round(RunRounds(v, w, n - 1), n - 1, w[n - 1])
  }

  /**
    One block: eighty rounds starting from the running state, then one
    word-wise addition into it, as section 6.1.2 step 4 of FIPS 180-4
    prescribes. Departs from src/sha1.rs:79, which adds inside the round loop
    (see ProcessBlockAsWritten).
   */
  function ProcessBlock(h: State, w: seq<word>): (r: State)
    requires |w| == 80
  {
    Add(h, RunRounds(h, w, 80))
  }

  /**
    src/sha1.rs:62-80 as written: `h` absorbs the working state after every
    round, while the working state itself runs on unaffected.
   */
  function FoldEachRound(h: State, v: State, w: seq<word>, t: nat): State
    requires |w| == 80 && t <= 80
    decreases 80 - t
  {
    if t == 80 then h
    else
      var v' := Round(v, t, w[t]);
      FoldEachRound(Add(h, v'), v', w, t + 1)
  }

  function ProcessBlockAsWritten(h: State, w: seq<word>): State
    requires |w| == 80
  {
    FoldEachRound(h, h, w, 0)
  }

  /** h plus, word-wise modulo 2^32, each of the working states after rounds 1 to n. */
  function RoundsSum(h: State, w: seq<word>, n: nat): State
    requires |w| == 80 && n <= 80
  {
    if n == 0 then h else Add(RoundsSum(h, w, n - 1), RunRounds(h, w, n))
  }

  lemma {:induction false} FoldEachRoundFrom(h: State, w: seq<word>, t: nat)
    requires |w| == 80 && t <= 80
    ensures FoldEachRound(RoundsSum(h, w, t), RunRounds(h, w, t), w, t) == RoundsSum(h, w, 80)
    decreases 80 - t
  {
    if t < 80 {
      assert Round(RunRounds(h, w, t), t, w[t]) == RunRounds(h, w, t + 1);
      FoldEachRoundFrom(h, w, t + 1);
    }
  }

  /**
    The two folds side by side: src/sha1.rs:79 as written adds every one of
    the eighty intermediate working states into h, while section 6.1.2 step 4
    of FIPS 180-4 adds only the last.
   */
  lemma AsWrittenIsSumOfRounds(h: State, w: seq<word>)
    requires |w| == 80
    ensures ProcessBlockAsWritten(h, w) == RoundsSum(h, w, 80)
    ensures ProcessBlock(h, w) == Add(h, RunRounds(h, w, 80))
  {
    FoldEachRoundFrom(h, w, 0);
  }

  /**
    The loop of src/sha1.rs:62-80 with the fold moved after it: the working
    variables (a, b, c, d, e) start at h, each of the eighty rounds replaces
    them, and h absorbs them once at the end.
   */
  method CompressBlock(h: State, w: seq<word>) returns (r: State)
    requires |w| == 80
    ensures r == Add(h, RunRounds(h, w, 80))
    ensures r == ProcessBlock(h, w)
  {
    var v := h;
    for t := 0 to 80
      invariant v == RunRounds(h, w, t)
    {
      v := Round(v, t, w[t]);
    }
    r := Add(h, v);
  }

  /**
    The loop of src/sha1.rs:62-80 as written: h absorbs the working variables
    inside the loop, after every round.
   */
  method CompressBlockAsWritten(h: State, w: seq<word>) returns (r: State)
    requires |w| == 80
    ensures r == RoundsSum(h, w, 80)
    ensures r == ProcessBlockAsWritten(h, w)
  {
    var v := h;
    r := h;
    for t := 0 to 80
      invariant v == RunRounds(h, w, t)
      invariant r == RoundsSum(h, w, t)
      invariant FoldEachRound(r, v, w, t) == ProcessBlockAsWritten(h, w)
    {
      v := Round(v, t, w[t]);
      r := Add(r, v);
    }
  }
}
