/**
  The message schedule (src/sha1.rs:53-60), section 6.1.2 step 1 of FIPS 180-4:
  a block's sixteen words followed by 64 words of a linear recurrence.
 */
module MessageSchedule {
  import opened BigEndian

  /** The recurrence that defines schedule word i from four earlier words (src/sha1.rs:59). */
  function Next(w: seq<word>, i: nat): word
    requires 16 <= i <= |w|
  {
    (w[i - 3] ^ w[i - 8] ^ w[i - 14] ^ w[i - 16]).RotateLeft(1)
  }

  /** A full schedule for `block`: eighty words, the block first, then the recurrence. */
  ghost predicate IsScheduleOf(w: seq<word>, block: seq<word>)
  {
    && |block| == 16
    && |w| == 80
    && w[..16] == block
    && forall i {:trigger Next(w[..i], i)} :: 16 <= i < 80 ==> w[i] == Next(w[..i], i)
  }

  /** Extends a partial schedule word by word until it holds eighty words. */
  function Extend(w: seq<word>): (r: seq<word>)
    requires 16 <= |w| <= 80
    ensures |r| == 80
    ensures r[..|w|] == w
    ensures forall i {:trigger Next(r[..i], i)} :: |w| <= i < 80 ==> r[i] == Next(r[..i], i)
    decreases 80 - |w|
  {
    if |w| == 80 then w
    else
      var w' := w + [Next(w, |w|)];
      var r := Extend(w');
      assert r[..|w|] == r[..|w'|][..|w|];
      assert r[..|w|] == w;
      r
  }

  /** The eighty-word schedule of a sixteen-word block. */
  function Schedule(block: seq<word>): (w: seq<word>)
    requires |block| == 16
    ensures |w| == 80
    ensures IsScheduleOf(w, block)
  {
    Extend(block)
  }

  /** Any eighty words that start with the block and follow the recurrence are its schedule. */
  lemma ScheduleUnique(block: seq<word>, w: seq<word>)
    requires IsScheduleOf(w, block)
    ensures w == Schedule(block)
  {
    var s := Schedule(block);
    AgreeUpTo(w, s, 80);
  }

  /** Each word of a schedule past the sixteenth, in terms of the four earlier words it is built from. */
  lemma ScheduleRecurrence(w: seq<word>, block: seq<word>, i: nat)
    requires IsScheduleOf(w, block) && 16 <= i < 80
    ensures w[i] == (w[i - 3] ^ w[i - 8] ^ w[i - 14] ^ w[i - 16]).RotateLeft(1)
  {
    assert w[i] == Next(w[..i], i);
    assert w[..i][i - 3] == w[i - 3] && w[..i][i - 8] == w[i - 8];
    assert w[..i][i - 14] == w[i - 14] && w[..i][i - 16] == w[i - 16];
  }

  lemma {:induction false} AgreeUpTo(w: seq<word>, s: seq<word>, n: nat)
    requires |w| == 80 && |s| == 80 && 16 <= n <= 80
    requires w[..16] == s[..16]
    requires forall i :: 16 <= i < 80 ==> w[i] == Next(w[..i], i)
    requires forall i :: 16 <= i < 80 ==> s[i] == Next(s[..i], i)
    ensures w[..n] == s[..n]
  {
    if n > 16 {
      AgreeUpTo(w, s, n - 1);
      assert w[n - 1] == s[n - 1] by {
        assert w[..n - 1] == s[..n - 1];
      }
      assert w[..n] == w[..n - 1] + [w[n - 1]];
      assert s[..n] == s[..n - 1] + [s[n - 1]];
    }
  }
}
