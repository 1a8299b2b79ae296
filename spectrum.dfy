/**
 * What the goertzel-based decoders take from one audio chunk: the magnitude
 * at each test frequency 400, 420, ..., 1100 Hz (`np.arange(400, 1101, 20)`),
 * the strongest of them (`np.argmax`) and a noise estimate from the five
 * lowest and the five highest test frequencies. The goertzel filter itself is
 * not part of this model: the magnitudes are the decoders' inputs.
 */
module Spectrum {
  import opened Stats

  /** Number of test frequencies: 400 to 1100 Hz in steps of 20 Hz. */
  const TestFrequencyCount: nat := 36

  /** The test frequency, in Hz, at position `i`. */
  function TestFrequency(i: nat): (f: nat)
    requires i < TestFrequencyCount
    ensures 400 <= f <= 1100 && (f - 400) % 20 == 0
  {
    400 + 20 * i
  }

  /** `np.argmax(mags)`: the position of the first largest magnitude. */
  function Strongest(mags: seq<real>): (i: nat)
    requires mags != []
    ensures i < |mags|
    ensures forall j :: 0 <= j < |mags| ==> mags[j] <= mags[i]
    ensures forall j :: 0 <= j < i ==> mags[j] < mags[i]
  {
    if |mags| == 1 then 0
    else
      var best := Strongest(mags[..|mags| - 1]);
      if mags[|mags| - 1] > mags[best] then |mags| - 1 else best
  }

  /** The tone magnitude of a chunk: the magnitude at the strongest test frequency. */
  function ToneMagnitude(mags: seq<real>): real
    requires |mags| == TestFrequencyCount
  {
    mags[Strongest(mags)]
  }

  /** `np.mean(mags[:5] + mags[-5:])`: the mean of the five lowest and five highest test frequencies. */
  function NoiseMagnitude(mags: seq<real>): real
    requires |mags| == TestFrequencyCount
  {
    Mean(mags[..5] + mags[|mags| - 5..])
  }

  /** A chunk's noise estimate never exceeds its tone magnitude. */
  lemma NoiseAtMostTone(mags: seq<real>)
    requires |mags| == TestFrequencyCount
    ensures NoiseMagnitude(mags) <= ToneMagnitude(mags)
  {
    var edge := mags[..5] + mags[|mags| - 5..];
    var top := ToneMagnitude(mags);
    forall i | 0 <= i < |edge|
      ensures edge[i] <= top
    {
      if i < 5 {
        assert edge[i] == mags[i];
      } else {
        assert edge[i] == mags[|mags| - 10 + i];
      }
    }
    MeanWithin(edge, MinOf(edge), top);
  }

  /** The smallest value of a non-empty sequence. */
  function MinOf(q: seq<real>): (m: real)
    requires q != []
    ensures forall i :: 0 <= i < |q| ==> m <= q[i]
  {
    if |q| == 1 then q[0]
    else
      var m := MinOf(q[..|q| - 1]);
      if q[|q| - 1] < m then q[|q| - 1] else m
  }
}
