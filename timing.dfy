/** Tempo constants of the player and the seconds-per-slice formula that
    `startMetronome` evaluates before it arms the scheduler. */
module Timing {

  /** Tempo of every stem, in beats per minute. */
  const BPM: real := 160.0

  /** Number of slices (ticks) in one bar of the metronome. */
  const TIME_SLICE: nat := 32

  /** Gain given to the one audible track of a channel. */
  const DEFAULT_CHANNEL_GAIN: real := 0.5

  /** The subdivision counts the player declares (its `TimeSlices` table). */
  predicate IsTimeSlice(n: nat) {
    n == 4 || n == 8 || n == 16 || n == 32
  }

  function Pow2(k: nat): (p: nat)
    ensures p >= 1
  {
    if k == 0 then 1 else 2 * Pow2(k - 1)
  }

  /** Base-2 logarithm, rounded down; on a power of two it is `Math.log2` exactly. */
  function Log2(n: nat): (k: nat)
  {
    if n <= 1 then 0 else 1 + Log2(n / 2)
  }

  lemma {:induction false} Log2OfPow2(k: nat)
    ensures Log2(Pow2(k)) == k
  {
    if k > 0 {
      Log2OfPow2(k - 1);
      assert Pow2(k) / 2 == Pow2(k - 1);
    }
  }

  /** For every declared subdivision count `n`, `log2(n/2)` is a positive whole
      number and `n` is the power of two just above `2^log2(n/2)`. */
  lemma SliceMultiplier(n: nat)
    requires IsTimeSlice(n)
    ensures 1 <= Log2(n / 2) <= 4
    ensures Pow2(Log2(n / 2) + 1) == n
  {
    var k := if n == 4 then 1 else if n == 8 then 2 else if n == 16 then 3 else 4;
    assert Pow2(k) == n / 2;
    Log2OfPow2(k);
  }

  /** `spb` of `startMetronome`: `60 / (bpm * log2(timeSlice / 2))` seconds per slice. */
  function SecondsPerSlice(bpm: real, timeSlice: nat): (spb: real)
    requires bpm > 0.0 && IsTimeSlice(timeSlice)
    ensures spb > 0.0
    ensures spb * bpm * (Log2(timeSlice / 2) as real) == 60.0
  {
    SliceMultiplier(timeSlice);
    60.0 / (bpm * (Log2(timeSlice / 2) as real))
  }

  /** With the player's constants (160 bpm, 32 slices, log2(16) = 4) a slice lasts
      exactly 60/640 s and a bar exactly 3 s. */
  lemma FixedSecondsPerSlice()
    ensures SecondsPerSlice(BPM, TIME_SLICE) == 60.0 / 640.0
    ensures (TIME_SLICE as real) * SecondsPerSlice(BPM, TIME_SLICE) == 3.0
  {
    SliceMultiplier(TIME_SLICE);
    assert Log2(16) == 4;
  }

  /** A documented scenario, not a setting the player uses: the TimeSlices table
      also declares FOUR, which is never selected. With it, log2(2) = 1, so a
      slice would last 0.375 s and a bar 1.5 s. */
  lemma FourSliceSecondsPerSlice()
    ensures SecondsPerSlice(160.0, 4) == 0.375
    ensures 4.0 * SecondsPerSlice(160.0, 4) == 1.5
  {
    assert Log2(2) == 1;
  }
}
