/** The loudness rule of `handleOnAudioProcess` in src/SoundController.ts: the bins of one
    frequency snapshot are averaged, the jump from the previous average is compared with a
    threshold, and on a jump a running maximum (the calibration) is raised if needed and the
    average divided by it is emitted. This module holds the rule on values; the class in
    sound_controller.dfy applies it to its fields. */
module Loudness {
  import opened Wrappers

  /** One frequency bin as `getByteFrequencyData` writes it into a `Uint8Array`. */
  newtype byte = x: int | 0 <= x < 256

  /** The floor the running maximum starts from (`maxAudioValue = 10`). */
  const InitialMax: real := 10.0

  /** The sum of the bins, taken left to right as the summing loop does. */
  function Sum(s: seq<byte>): (r: int)
    ensures 0 <= r <= 255 * |s|
  {
    if s == [] then 0 else Sum(s[..|s| - 1]) + s[|s| - 1] as int
  }

  /** The exact mean of a non-empty snapshot; it always lies in the byte range. */
  function Average(s: seq<byte>): (r: real)
    requires |s| > 0
    ensures 0.0 <= r <= 255.0
    ensures r * |s| as real == Sum(s) as real
  {
    var n := |s| as real;
    var t := Sum(s) as real;
    assert t <= 255.0 * n;
    t / n
  }

  /** The summing loop `for (let i = 0; i < length; i++) values += frequencyArray[i]`. */
  method SumBins(bins: seq<byte>) returns (values: int)
    ensures values == Sum(bins)
  {
    values := 0;
    for i := 0 to |bins|
      invariant values == Sum(bins[..i])
    {
      assert bins[..i + 1][..i] == bins[..i];
      values := values + bins[i] as int;
    }
    assert bins[..|bins|] == bins;
  }

  /** The summing loop followed by `values / length`. */
  method AverageBins(bins: seq<byte>) returns (average: real)
    requires |bins| > 0
    ensures average == Average(bins)
    ensures 0.0 <= average <= 255.0
  {
    var values := SumBins(bins);
    average := values as real / |bins| as real;
  }

  /** A "loud moment": the average rose from the previous one by more than the threshold. */
  predicate IsJump(previous: real, average: real, threshold: real)
  {
    average - previous > threshold
  }

  /** The two numbers the detector carries from one sample to the next: the previous average
      (`lastAudioDiff`) and the largest average seen at a jump (`maxAudioValue`). */
  datatype Detector = Detector(lastAudioDiff: real, maxAudioValue: real)

  /** The detector every sound controller starts with. */
  const Fresh: Detector := Detector(0.0, InitialMax)

  /** What the detector always satisfies: the previous average is a byte-range average, and the
      running maximum lies between its floor and the largest possible average. */
  predicate Calibrated(d: Detector)
  {
    0.0 <= d.lastAudioDiff <= 255.0 && InitialMax <= d.maxAudioValue <= 255.0
  }

  /** The new detector and, on a jump, the normalised value emitted as `onAudio`. */
  datatype Sample = Sample(next: Detector, event: Option<real>)

  /** One sample of `handleOnAudioProcess`, on the average of its bins. */
  function Step(d: Detector, average: real, threshold: real): (r: Sample)
    requires d.maxAudioValue > 0.0
    // the average always becomes the previous average, whether or not an event fires
    ensures r.next.lastAudioDiff == average
    // an event fires exactly on a jump above the threshold
    ensures r.event.Some? <==> IsJump(d.lastAudioDiff, average, threshold)
    // the running maximum never decreases, and moves only on an event, to the average
    ensures d.maxAudioValue <= r.next.maxAudioValue
    ensures r.next.maxAudioValue != d.maxAudioValue ==> r.event.Some? && r.next.maxAudioValue == average
    // after an event the maximum covers the average, and the value is the average scaled by it
    ensures r.event.Some? ==> average <= r.next.maxAudioValue
    ensures r.event.Some? ==> r.event.value * r.next.maxAudioValue == average
    // from a calibrated detector and a byte-range average, the detector stays calibrated and
    // every emitted value lies in (0, 1]
    ensures Calibrated(d) && 0.0 <= average <= 255.0 && threshold >= 0.0 ==>
              Calibrated(r.next) && (r.event.Some? ==> 0.0 < r.event.value <= 1.0)
  {
    if IsJump(d.lastAudioDiff, average, threshold) then
      var max := if average > d.maxAudioValue then average else d.maxAudioValue;
      var value := average / max;
      QuotientAtMostOne(average, max);
      Sample(Detector(average, max), Some(value))
    else
      Sample(Detector(average, d.maxAudioValue), None)
  }

  /** A number divided by a positive one at least as large is at most 1, and positive when
      the number is. */
  lemma QuotientAtMostOne(a: real, m: real)
    requires 0.0 < m && a <= m
    ensures a / m * m == a
    ensures a / m <= 1.0
    ensures 0.0 < a ==> 0.0 < a / m
  {
    var q := a / m;
    assert q * m == a;
    if q > 1.0 {
      calc {
        a;
        q * m;
        == 1.0 * m + (q - 1.0) * m;
        > m;
      }
    }
  }

  /** The events a list of optional events stands for. */
  function Events(e: Option<real>): seq<real>
  {
    match e
    case Some(v) => [v]
    case None => []
  }

  /** The detector after a run of samples, with the events emitted in order. */
  datatype Trace = Trace(final: Detector, events: seq<real>)

  /** Samples processed one after another, as the animation-frame loop does. */
  function Run(d: Detector, averages: seq<real>, threshold: real): (t: Trace)
    requires d.maxAudioValue > 0.0
    ensures d.maxAudioValue <= t.final.maxAudioValue
  {
    if averages == [] then Trace(d, [])
    else
      var t := Run(d, averages[..|averages| - 1], threshold);
      var s := Step(t.final, averages[|averages| - 1], threshold);
      Trace(s.next, t.events + Events(s.event))
  }

  /** All averages of a run lie in the byte range. */
  predicate InByteRange(averages: seq<real>)
  {
    forall i :: 0 <= i < |averages| ==> 0.0 <= averages[i] <= 255.0
  }

  /** Over any run of byte-range averages with a non-negative threshold, the detector stays
      calibrated and every emitted value lies in (0, 1]. */
  lemma {:induction false} RunStaysCalibrated(d: Detector, averages: seq<real>, threshold: real)
    requires Calibrated(d) && InByteRange(averages) && threshold >= 0.0
    ensures Calibrated(Run(d, averages, threshold).final)
    ensures forall i :: 0 <= i < |Run(d, averages, threshold).events| ==>
              0.0 < Run(d, averages, threshold).events[i] <= 1.0
  {
    if averages != [] {
      var front := averages[..|averages| - 1];
      assert InByteRange(front) by {
        forall i | 0 <= i < |front| ensures 0.0 <= front[i] <= 255.0 {
          assert front[i] == averages[i];
        }
      }
      RunStaysCalibrated(d, front, threshold);
    }
  }

  /** Over any run, the running maximum never decreases, it is either its starting value or
      one of the averages, at most one event is emitted per sample, and the previous average
      is the last sample's. */
  lemma {:induction false} RunMaximum(d: Detector, averages: seq<real>, threshold: real)
    requires d.maxAudioValue > 0.0
    ensures Run(d, averages, threshold).final.maxAudioValue == d.maxAudioValue ||
            Run(d, averages, threshold).final.maxAudioValue in averages
    ensures |Run(d, averages, threshold).events| <= |averages|
    ensures averages != [] ==> Run(d, averages, threshold).final.lastAudioDiff == averages[|averages| - 1]
  {
    if averages != [] {
      var front := averages[..|averages| - 1];
      RunMaximum(d, front, threshold);
      assert averages == front + [averages[|averages| - 1]];
    }
  }

  /** With the High threshold and the averages 20, 40, 30, 60 after silence, every jump sets a
      new maximum, so each of the three events reads 1.0 and the maximum ends at 60. */
  lemma RisingLoudnessExample()
    ensures Run(Fresh, [20.0, 40.0, 30.0, 60.0], 10.0) == Trace(Detector(60.0, 60.0), [1.0, 1.0, 1.0])
  {
    var a := [20.0, 40.0, 30.0, 60.0];
    assert a[..3][..2][..1][..0] == [];
    assert Run(Fresh, a[..3][..2][..1], 10.0) == Trace(Detector(20.0, 20.0), [1.0]);
    assert Run(Fresh, a[..3][..2], 10.0) == Trace(Detector(40.0, 40.0), [1.0, 1.0]);
    assert Run(Fresh, a[..3], 10.0) == Trace(Detector(30.0, 40.0), [1.0, 1.0]);
  }

  /** Self-calibration: after an event at average 20 raises the maximum to 20, a later jump to
      15 is reported as 0.75, not 1.0. */
  lemma SelfCalibrationExample()
    ensures Run(Fresh, [0.0, 20.0, 0.0, 15.0], 10.0) == Trace(Detector(15.0, 20.0), [1.0, 0.75])
  {
    var a := [0.0, 20.0, 0.0, 15.0];
    assert a[..3][..2][..1][..0] == [];
    assert Run(Fresh, a[..3][..2][..1], 10.0) == Trace(Detector(0.0, 10.0), []);
    assert Run(Fresh, a[..3][..2], 10.0) == Trace(Detector(20.0, 20.0), [1.0]);
    assert Run(Fresh, a[..3], 10.0) == Trace(Detector(0.0, 20.0), [1.0]);
  }
}
