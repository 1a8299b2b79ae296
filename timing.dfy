/**
 * Timing rules shared by the live decoders: the larger-of guard used for the
 * inter-character threshold, the key-down decision with hysteresis, and the
 * word spacing with optional Farnsworth stretching.
 */
module Timing {
  import opened Stats

  /** Python's `max(a, b)` on two numbers. */
  function Max(a: real, b: real): (m: real)
    ensures m >= a && m >= b
    ensures m == a || m == b
  {
    if a >= b then a else b
  }

  /**
   * The key-down decision with hysteresis: while the key is down the tone only
   * has to stay above `multiplier * 0.875` times the noise floor, while it is up
   * it has to rise above `multiplier` times the noise floor.
   */
  function KeyDown(keyOn: bool, mag: real, avgNoise: real, multiplier: real): bool
  {
    if keyOn then mag > avgNoise * (multiplier * 0.875) else mag > avgNoise * multiplier
  }

  /**
   * The hysteresis band: above the opening threshold the key is down whatever
   * it was, at or below the closing threshold it is up whatever it was, and in
   * between it keeps its previous state.
   */
  lemma HysteresisBand(keyOn: bool, mag: real, avgNoise: real, multiplier: real)
    requires avgNoise >= 0.0 && multiplier > 0.0
    ensures mag > avgNoise * multiplier ==> KeyDown(keyOn, mag, avgNoise, multiplier)
    ensures mag <= avgNoise * (multiplier * 0.875) ==> !KeyDown(keyOn, mag, avgNoise, multiplier)
    ensures avgNoise * (multiplier * 0.875) < mag <= avgNoise * multiplier ==>
              KeyDown(keyOn, mag, avgNoise, multiplier) == keyOn
  {
    assert avgNoise * (multiplier * 0.875) <= avgNoise * multiplier;
  }

  /**
   * The word spacing for a unit estimate `unit`: seven units, stretched by
   * 18 / wpm (wpm = 1.2 / unit) when Farnsworth is on and the sender is slower
   * than 18 wpm.
   */
  function StretchedSpacing(unit: real, farnsworth: bool): real
    requires unit > 0.0
  {
    var spacing := unit * 7.0;
    if farnsworth then
      var wpm := 1.2 / unit;
      assert wpm > 0.0 by {
        assert wpm * unit == 1.2;
      }
      if wpm < 18.0 then spacing * (18.0 / wpm) else spacing
    else spacing
  }

  /**
   * The silence after which a word space is written: seven units (the median
   * duration), or 0.7 s while nothing has been timed; Farnsworth stretching
   * applies only once something has been timed.
   */
  function WordSpacing(history: seq<real>, farnsworth: bool): real
    requires AllAbove(history, 0.0)
  {
    if history == [] then 0.7
    else
      MedianAbove(history, 0.0);
      StretchedSpacing(Median(history), farnsworth)
  }

  /**
   * What the stretch amounts to: seven units when Farnsworth is off or the
   * unit is at most 1/15 s (18 wpm or faster),
   * and 105 unit^2, strictly more than seven units, for a slower sender with
   * Farnsworth on.
   */
  lemma StretchedSpacingValue(unit: real, farnsworth: bool)
    requires unit > 0.0
    ensures !farnsworth || unit <= 1.0 / 15.0 ==> StretchedSpacing(unit, farnsworth) == 7.0 * unit
    ensures farnsworth && unit > 1.0 / 15.0 ==>
              StretchedSpacing(unit, farnsworth) == 105.0 * unit * unit
              && StretchedSpacing(unit, farnsworth) > 7.0 * unit
  {
    var wpm := 1.2 / unit;
    assert wpm * unit == 1.2;
    if unit > 1.0 / 15.0 {
      assert wpm < 18.0 by {
        assert 18.0 * unit > 1.2;
      }
      calc {
        unit * 7.0 * (18.0 / wpm);
        unit * 7.0 * (18.0 * unit / 1.2);
        105.0 * unit * unit;
      }
      assert 105.0 * unit * unit > 7.0 * unit by {
        assert 105.0 * unit > 7.0;
      }
    } else {
      assert wpm >= 18.0 by {
        assert 18.0 * unit <= 1.2;
      }
    }
  }

  /**
   * The word spacing of the decoders that estimate the unit by the mean
   * duration rather than the median.
   */
  function MeanWordSpacing(history: seq<real>, farnsworth: bool): real
    requires AllAbove(history, 0.0)
  {
    if history == [] then 0.7
    else
      MeanAbove(history, 0.0);
      StretchedSpacing(Mean(history), farnsworth)
  }

  /** The Farnsworth stretch of seven units as the decoding loops compute it. */
  method Stretch(unit: real, farnsworth: bool) returns (spacing: real)
    requires unit > 0.0
    ensures spacing == StretchedSpacing(unit, farnsworth)
  {
    spacing := unit * 7.0;
    if farnsworth {
      var avgWpm := 1.2 / unit;
      if avgWpm < 18.0 {
        spacing := spacing * (18.0 / avgWpm);
      }
    }
  }

  /** The word spacing on the median duration, as the decoding loops compute it. */
  method MedianSpacing(history: seq<real>, farnsworth: bool) returns (spacing: real)
    requires AllAbove(history, 0.0)
    ensures spacing == WordSpacing(history, farnsworth)
  {
    if history == [] {
      spacing := 0.7;
    } else {
      var unit := Median(history);
      MedianAbove(history, 0.0);
      spacing := Stretch(unit, farnsworth);
    }
  }

  /** The word spacing on the mean duration, as the decoding loops compute it. */
  method MeanSpacing(history: seq<real>, farnsworth: bool) returns (spacing: real)
    requires AllAbove(history, 0.0)
    ensures spacing == MeanWordSpacing(history, farnsworth)
  {
    if history == [] {
      spacing := 0.7;
    } else {
      var unit := Mean(history);
      MeanAbove(history, 0.0);
      spacing := Stretch(unit, farnsworth);
    }
  }
}
