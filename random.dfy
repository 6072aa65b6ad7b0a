/** `System.Random`, the seeded generator the noise evaluator draws its octave
    offsets from. The subtractive generator behind `InternalSample` is left
    abstract: a `SampleStream` gives the n-th internal sample of a generator
    built from a given seed. What is modelled is the generator's state (how
    many samples it has consumed) and how `Next(minValue, maxValue)` scales a
    sample into its range. */
module SystemRandom {
  import opened Arith

  /** `int.MaxValue`: internal samples lie in [0, MBig). */
  const MBig: int := 2147483647

  type Sample = s: int | 0 <= s < MBig

  /** `samples(seed, n)`: the n-th internal sample of `new Random(seed)`. */
  type SampleStream = (int, nat) -> Sample

  /** `Next(minValue, maxValue)` for a range that fits in an `int`: the
      sample, as a fraction of `MBig`, scaled into the range and truncated.
      The result lies in `[minValue, maxValue)`, or is `minValue` when the
      range is empty. */
  function Scale(s: Sample, minValue: int, maxValue: int): (r: int)
    requires minValue <= maxValue && maxValue - minValue <= MBig
    ensures minValue < maxValue ==> minValue <= r < maxValue
    ensures minValue == maxValue ==> r == minValue
  {
    ScaledBelowRange(s, maxValue - minValue);
    minValue + s * (maxValue - minValue) / MBig
  }

  lemma ScaledBelowRange(s: Sample, range: nat)
    ensures 0 <= s * range / MBig
    ensures range > 0 ==> s * range / MBig < range
  {
    var q := s * range / MBig;
    MulMono(s, MBig - 1, range);
    if q >= range && range > 0 {
      MulMono(range, q, MBig);
      assert false;
    }
  }

  class Random {
    const seed: int
    const samples: SampleStream
    /** Internal samples consumed so far. */
    var drawn: nat

    constructor (seed: int, samples: SampleStream)
      ensures this.seed == seed && this.samples == samples && drawn == 0
    {
      this.seed := seed;
      this.samples := samples;
      drawn := 0;
    }

    /** Consumes one internal sample and scales it into the range. */
    method Next(minValue: int, maxValue: int) returns (r: int)
      requires minValue <= maxValue && maxValue - minValue <= MBig
      modifies this
      ensures drawn == old(drawn) + 1
      ensures r == Scale(samples(seed, old(drawn)), minValue, maxValue)
    {
      r := Scale(samples(seed, drawn), minValue, maxValue);
      drawn := drawn + 1;
    }
  }
}
