/**
  The static helpers of MetalCircle's SignalProcessing class: the mapping of
  a buffer's mean-square power to a loudness in [0.3, 0.6], the 11-value ramp
  between two loudness values, and the scaled magnitude spectrum of a
  1024-sample window.

  Arithmetic is over real numbers. The Accelerate and libm calls that have no
  closed form here are parameters: `log10` stands for log10f, `execute` for
  vDSP_DFT_Execute with its precomputed setup, and `sqrt` for the square root
  inside vDSP_zvabs. vDSP_measqv and vDSP_vsmul are written out.
*/
module SignalProcessing {

  // ---------------------------------------------------------------------------
  // Loudness (RootMeanSquare)
  // ---------------------------------------------------------------------------

  /** A single-precision value as far as the loudness computation can see it:
      not-a-number, one of the two infinities, or a finite value. */
  datatype Float = NaN | NegInf | Finite(value: real) | PosInf

  /** x + c for a finite constant c; NaN and the infinities absorb it. */
  function Plus(x: Float, c: real): Float
  {
    match x
    case Finite(v) => Finite(v + c)
    case _ => x
  }

  /** x / d for a positive finite constant d. */
  function Over(x: Float, d: real): Float
    requires d > 0.0
  {
    match x
    case Finite(v) => Finite(v / d)
    case _ => x
  }

  /** The comparison x < c; false when x is NaN. */
  predicate Below(x: Float, c: real)
  {
    match x
    case NaN => false
    case NegInf => true
    case Finite(v) => v < c
    case PosInf => false
  }

  /** The comparison x > c; false when x is NaN. */
  predicate Above(x: Float, c: real)
  {
    match x
    case NaN => false
    case NegInf => false
    case Finite(v) => v > c
    case PosInf => true
  }

  /** The order of the non-NaN values: -inf < every finite value < +inf. */
  predicate AtMost(x: Float, y: Float)
    requires !x.NaN? && !y.NaN?
  {
    x.NegInf? || y.PosInf? || (x.Finite? && y.Finite? && x.value <= y.value)
  }

  /** Offset that moves full-scale decibels into [0, 160]. */
  const DecibelOffset: real := 160.0
  /** Start of the decibel band that is mapped onto the loudness range. */
  const BandStart: real := 120.0
  /** Float(40/0.3): 40 dB of band per 0.3 of loudness. */
  const Divisor: real := 40.0 / 0.3
  /** The low cut-off, also the loudness at the start of the band. */
  const Floor: real := 0.3
  /** The high cut-off. */
  const Ceiling: real := 0.6

  /** RootMeanSquare from the decibel value on: shift by 160, subtract 120,
      divide by 40/0.3, add 0.3, then cut off below 0.3 and above 0.6.
      Below -40 dB (silence included) the result is exactly 0.3, from 0 dB
      up it is exactly 0.6, in between it is the affine map unclamped, and it
      is always in range unless the decibel value is NaN, which the cut-off
      lets through. */
  function Loudness(decibel: Float): (r: Float)
    ensures !decibel.NaN? ==> r.Finite? && Floor <= r.value <= Ceiling
    ensures decibel.NaN? ==> r.NaN?
    ensures decibel.NegInf? ==> r == Finite(Floor)
    ensures decibel.PosInf? ==> r == Finite(Ceiling)
    ensures decibel.Finite? && decibel.value <= -40.0 ==> r == Finite(Floor)
    ensures decibel.Finite? && decibel.value >= 0.0 ==> r == Finite(Ceiling)
    ensures decibel.Finite? && -40.0 <= decibel.value <= 0.0 ==>
              r == Finite(0.3 + (160.0 + decibel.value - 120.0) / (40.0 / 0.3))
  {
    var shifted := Plus(decibel, DecibelOffset);
    var banded := Plus(shifted, -BandStart);
    var adjusted := Plus(Over(banded, Divisor), Floor);
    if Below(adjusted, Floor) then Finite(Floor)
    else if Above(adjusted, Ceiling) then Finite(Ceiling)
    else adjusted
  }

  /** A louder decibel value never gives a smaller loudness. */
  lemma LoudnessMonotone(a: Float, b: Float)
    requires !a.NaN? && !b.NaN? && AtMost(a, b)
    ensures Loudness(a).value <= Loudness(b).value
  {
  }

  /** The sum of the squared samples. */
  function SumOfSquares(s: seq<real>): (r: real)
    ensures r >= 0.0
    ensures (forall k :: 0 <= k < |s| ==> s[k] == 0.0) ==> r == 0.0
  {
    if s == [] then 0.0
    else
      assert forall k :: 1 <= k < |s| ==> s[k] == s[1..][k - 1];
      s[0] * s[0] + SumOfSquares(s[1..])
  }

  lemma SquareNonNegative(x: real)
    ensures 0.0 <= x * x
  {
  }

  /** vDSP_measqv over the first frameLength samples. With no samples the
      output variable keeps its initial value 0. */
  function MeanSquare(s: seq<real>): (r: real)
    ensures r >= 0.0
    ensures (forall k :: 0 <= k < |s| ==> s[k] == 0.0) ==> r == 0.0
  {
    if s == [] then 0.0 else SumOfSquares(s) / (|s| as real)
  }

  /** 10 * log10f(val); log10f(0) is -inf. */
  function Decibel(meanSquare: real, log10: real -> real): Float
    requires meanSquare >= 0.0
  {
    if meanSquare == 0.0 then NegInf else Finite(10.0 * log10(meanSquare))
  }

  /** With a log10 that never decreases on positive values, a larger mean
      square never gives a smaller decibel value; neither value is NaN, and
      silence sits below every positive mean square. */
  lemma DecibelMonotone(a: real, b: real, log10: real -> real)
    requires 0.0 <= a <= b
    requires forall x, y :: 0.0 < x <= y ==> log10(x) <= log10(y)
    ensures !Decibel(a, log10).NaN? && !Decibel(b, log10).NaN?
    ensures AtMost(Decibel(a, log10), Decibel(b, log10))
    ensures a == 0.0 < b ==> Decibel(a, log10).NegInf? && Decibel(b, log10).Finite?
  {
  }

  /** The whole of RootMeanSquare: mean square of data[0..<frameLength], then
      decibels, then Loudness. Real-valued samples never give NaN, so the
      result is always a finite value in [0.3, 0.6]; silence gives exactly 0.3
      whatever log10f computes. */
  function RootMeanSquare(data: seq<real>, frameLength: nat, log10: real -> real): (r: Float)
    requires frameLength <= |data|
    ensures r.Finite? && Floor <= r.value <= Ceiling
    ensures (forall k :: 0 <= k < frameLength ==> data[k] == 0.0) ==> r == Finite(Floor)
  {
    var samples := data[..frameLength];
    assert forall k :: 0 <= k < frameLength ==> samples[k] == data[k];
    Loudness(Decibel(MeanSquare(samples), log10))
  }

  /** With a non-decreasing log10, a buffer whose first frames have the
      larger mean-square power never gets a smaller loudness. Zero frames
      count as silence. */
  lemma RootMeanSquareMonotone(quiet: seq<real>, quietFrames: nat, loud: seq<real>, loudFrames: nat,
                               log10: real -> real)
    requires quietFrames <= |quiet| && loudFrames <= |loud|
    requires forall x, y :: 0.0 < x <= y ==> log10(x) <= log10(y)
    requires MeanSquare(quiet[..quietFrames]) <= MeanSquare(loud[..loudFrames])
    ensures RootMeanSquare(quiet, quietFrames, log10).value <= RootMeanSquare(loud, loudFrames, log10).value
  {
    var ms := MeanSquare(quiet[..quietFrames]);
    var ml := MeanSquare(loud[..loudFrames]);
    DecibelMonotone(ms, ml, log10);
    LoudnessMonotone(Decibel(ms, log10), Decibel(ml, log10));
  }

  // ---------------------------------------------------------------------------
  // linearInterpolate
  // ---------------------------------------------------------------------------

  /** Number of values linearInterpolate produces. */
  const RampLength: nat := 11

  /** The share of `current` in each value of the ramp that the midpoint
      assignments of linearInterpolate produce (the rest is `previous`). The
      shares are not evenly spaced: indices 7 and 8 coincide, and so do
      indices 9 and 10. */
  const RampShares: seq<real> :=
    [1.0 / 16.0, 1.0 / 8.0, 1.0 / 4.0, 5.0 / 16.0, 13.0 / 32.0, 1.0 / 2.0,
     5.0 / 8.0, 3.0 / 4.0, 3.0 / 4.0, 1.0, 1.0]

  /** Reference definition of the ramp: value k is the convex combination of
      previous and current with share RampShares[k] of current. */
  function Ramp(current: real, previous: real): (r: seq<real>)
    ensures |r| == RampLength
  {
    seq(RampLength, k requires 0 <= k < RampLength =>
      previous + RampShares[k] * (current - previous))
  }

  /** linearInterpolate: an 11-element array filled by midpoint assignments. */
  method LinearInterpolate(current: real, previous: real) returns (vals: seq<real>)
    ensures vals == Ramp(current, previous)
  {
    var a := new real[RampLength](_ => 0.0);
    a[10] := current;
    a[5] := (current + previous) / 2.0;
    a[2] := (a[5] + previous) / 2.0;
    assert a[2] == (current + 3.0 * previous) / 4.0;
    a[1] := (a[2] + previous) / 2.0;
    assert a[1] == (current + 7.0 * previous) / 8.0;
    a[8] := (a[5] + current) / 2.0;
    assert a[8] == (3.0 * current + previous) / 4.0;
    a[9] := (a[10] + current) / 2.0;
    a[7] := (a[5] + a[9]) / 2.0;
    assert a[7] == (3.0 * current + previous) / 4.0;
    a[6] := (a[5] + a[7]) / 2.0;
    assert a[6] == (5.0 * current + 3.0 * previous) / 8.0;
    a[3] := (a[1] + a[5]) / 2.0;
    assert a[3] == (5.0 * current + 11.0 * previous) / 16.0;
    a[4] := (a[3] + a[5]) / 2.0;
    assert a[4] == (13.0 * current + 19.0 * previous) / 32.0;
    a[0] := (previous + a[1]) / 2.0;
    assert a[0] == (current + 15.0 * previous) / 16.0;
    vals := a[..];
    RampFromValues(current, previous, vals);
  }

  /** A sequence holding the ramp's closed forms, value by value, is the
      ramp. */
  lemma RampFromValues(current: real, previous: real, vals: seq<real>)
    requires |vals| == RampLength
    requires vals[0] == (current + 15.0 * previous) / 16.0
    requires vals[1] == (current + 7.0 * previous) / 8.0
    requires vals[2] == (current + 3.0 * previous) / 4.0
    requires vals[3] == (5.0 * current + 11.0 * previous) / 16.0
    requires vals[4] == (13.0 * current + 19.0 * previous) / 32.0
    requires vals[5] == (current + previous) / 2.0
    requires vals[6] == (5.0 * current + 3.0 * previous) / 8.0
    requires vals[7] == (3.0 * current + previous) / 4.0
    requires vals[8] == (3.0 * current + previous) / 4.0
    requires vals[9] == current && vals[10] == current
    ensures vals == Ramp(current, previous)
  {
    var ramp := Ramp(current, previous);
    forall k | 0 <= k < RampLength
      ensures vals[k] == ramp[k]
    {
    }
  }

  /** The indices the assignments pin down directly: index 10 and index 9 are
      current, index 5 is the midpoint, indices 7 and 8 are both the
      three-quarter point, and index 0 is one sixteenth of the way. */
  lemma RampLandmarks(current: real, previous: real)
    ensures Ramp(current, previous)[10] == current
    ensures Ramp(current, previous)[9] == current
    ensures Ramp(current, previous)[5] == (current + previous) / 2.0
    ensures Ramp(current, previous)[7] == Ramp(current, previous)[8] == (3.0 * current + previous) / 4.0
    ensures Ramp(current, previous)[0] == (current + 15.0 * previous) / 16.0
  {
  }

  /** Every share is in [0, 1] and the shares never decrease. */
  lemma RampSharesOrdered()
    ensures forall k :: 0 <= k < RampLength ==> 0.0 <= RampShares[k] <= 1.0
    ensures forall i, j :: 0 <= i <= j < RampLength ==> RampShares[i] <= RampShares[j]
  {
  }

  /** Every value of the ramp lies between previous and current. */
  lemma RampBetween(current: real, previous: real, k: nat)
    requires k < RampLength
    ensures previous <= current ==> previous <= Ramp(current, previous)[k] <= current
    ensures current <= previous ==> current <= Ramp(current, previous)[k] <= previous
  {
  }

  /** The ramp moves monotonically from previous toward current. */
  lemma RampMonotone(current: real, previous: real, i: nat, j: nat)
    requires i <= j < RampLength
    ensures previous <= current ==> Ramp(current, previous)[i] <= Ramp(current, previous)[j]
    ensures current <= previous ==> Ramp(current, previous)[j] <= Ramp(current, previous)[i]
  {
  }

  /** Two equal loudness values give a flat ramp. */
  lemma RampFlat(value: real)
    ensures forall k :: 0 <= k < RampLength ==> Ramp(value, value)[k] == value
  {
  }

  /** The ramp from 0 to 1 reaches 1 already at index 9, so not every value
      strictly between the endpoints lies strictly inside (0, 1). */
  lemma RampReachesCurrentEarly()
    ensures Ramp(1.0, 0.0)[9] == 1.0
    ensures forall k :: 0 <= k < 9 ==> 0.0 < Ramp(1.0, 0.0)[k] < 1.0
  {
  }

  // ---------------------------------------------------------------------------
  // fft
  // ---------------------------------------------------------------------------

  /** Samples in one analysis window. */
  const WindowSize: nat := 1024
  /** Bins kept: the first half of the window. */
  const BinCount: nat := 512
  /** Float(25.0/512), the display scaling. */
  const MagnitudeScale: real := 25.0 / 512.0

  /** DSPSplitComplex: the real and the imaginary parts in two arrays. */
  datatype SplitComplex = SplitComplex(realp: seq<real>, imagp: seq<real>)

  /** What the program relies on from the precomputed DFT setup: for 1024
      real and 1024 imaginary inputs it writes 1024 values to each output. */
  ghost predicate WindowShaped(execute: (seq<real>, seq<real>) -> SplitComplex)
  {
    forall re: seq<real>, im: seq<real> {:trigger execute(re, im)} ::
      |re| == WindowSize && |im| == WindowSize ==>
        |execute(re, im).realp| == WindowSize && |execute(re, im).imagp| == WindowSize
  }

  /** A square root never gives a negative result on a non-negative argument. */
  ghost predicate NonNegativeRoot(sqrt: real -> real)
  {
    forall x :: 0.0 <= x ==> 0.0 <= sqrt(x)
  }

  function Zeros(n: nat): (r: seq<real>)
    ensures |r| == n && forall k :: 0 <= k < n ==> r[k] == 0.0
  {
    seq(n, _ => 0.0)
  }

  /** re^2 + im^2, the squared magnitude of one bin. */
  function SquaredMagnitude(re: real, im: real): real
  {
    re * re + im * im
  }

  /** vDSP_zvabs over the first n bins: sqrt(re^2 + im^2) per bin. */
  function Magnitudes(z: SplitComplex, n: nat, sqrt: real -> real): (r: seq<real>)
    requires n <= |z.realp| && n <= |z.imagp|
    ensures |r| == n
    ensures NonNegativeRoot(sqrt) ==> forall k :: 0 <= k < n ==> 0.0 <= r[k]
  {
    assert forall re, im :: 0.0 <= SquaredMagnitude(re, im) by {
      forall re, im ensures 0.0 <= SquaredMagnitude(re, im) {
        SquareNonNegative(re);
        SquareNonNegative(im);
      }
    }
    seq(n, k requires 0 <= k < n => sqrt(SquaredMagnitude(z.realp[k], z.imagp[k])))
  }

  /** vDSP_vsmul: every element times one scalar. */
  function Scaled(s: seq<real>, factor: real): (r: seq<real>)
    ensures |r| == |s|
    ensures 0.0 <= factor && (forall k :: 0 <= k < |s| ==> 0.0 <= s[k]) ==>
              forall k :: 0 <= k < |r| ==> 0.0 <= r[k]
  {
    seq(|s|, k requires 0 <= k < |s| => factor * s[k])
  }

  /** The spectrum of one window: a DFT of the window with an all-zero
      imaginary part, the magnitudes of the first 512 bins, scaled by 25/512.
      It has exactly 512 values, none negative. */
  function Spectrum(window: seq<real>, execute: (seq<real>, seq<real>) -> SplitComplex,
                    sqrt: real -> real): (r: seq<real>)
    requires |window| == WindowSize && WindowShaped(execute)
    ensures |r| == BinCount
    ensures NonNegativeRoot(sqrt) ==> forall k :: 0 <= k < BinCount ==> 0.0 <= r[k]
  {
    var out := execute(window, Zeros(WindowSize));
    Scaled(Magnitudes(out, BinCount, sqrt), MagnitudeScale)
  }

  /** Bin k of the spectrum is 25/512 times the magnitude of DFT bin k. */
  lemma SpectrumBin(window: seq<real>, execute: (seq<real>, seq<real>) -> SplitComplex,
                    sqrt: real -> real, k: nat)
    requires |window| == WindowSize && WindowShaped(execute) && k < BinCount
    ensures var out := execute(window, Zeros(WindowSize));
            Spectrum(window, execute, sqrt)[k]
              == MagnitudeScale * sqrt(SquaredMagnitude(out.realp[k], out.imagp[k]))
  {
    var out := execute(window, Zeros(WindowSize));
    assert |out.realp| == WindowSize && |out.imagp| == WindowSize;
    var magnitudes := Magnitudes(out, BinCount, sqrt);
    assert magnitudes[k] == sqrt(SquaredMagnitude(out.realp[k], out.imagp[k]));
    assert Spectrum(window, execute, sqrt) == Scaled(magnitudes, MagnitudeScale);
  }

  /** If the DFT maps the zero signal to zero and sqrt(0) = 0, silence gives
      an all-zero spectrum. */
  lemma SpectrumOfSilence(execute: (seq<real>, seq<real>) -> SplitComplex, sqrt: real -> real)
    requires WindowShaped(execute)
    requires execute(Zeros(WindowSize), Zeros(WindowSize)) == SplitComplex(Zeros(WindowSize), Zeros(WindowSize))
    requires sqrt(0.0) == 0.0
    ensures forall k :: 0 <= k < BinCount ==> Spectrum(Zeros(WindowSize), execute, sqrt)[k] == 0.0
  {
    var out := execute(Zeros(WindowSize), Zeros(WindowSize));
    forall k | 0 <= k < BinCount
      ensures Spectrum(Zeros(WindowSize), execute, sqrt)[k] == 0.0
    {
      SpectrumBin(Zeros(WindowSize), execute, sqrt, k);
      assert out.realp[k] == 0.0 && out.imagp[k] == 0.0;
    }
  }

  /** fft: copy data[0...1023] into a zeroed real input, run the DFT with a
      zeroed imaginary input, take 512 magnitudes and scale them. Only the
      first 1024 samples are read; the result depends on nothing else. */
  method Fft(data: array<real>, execute: (seq<real>, seq<real>) -> SplitComplex,
             sqrt: real -> real) returns (normalizedMagnitudes: seq<real>)
    requires data.Length >= WindowSize
    requires WindowShaped(execute)
    ensures normalizedMagnitudes == Spectrum(data[..WindowSize], execute, sqrt)
  {
    var realIn := new real[WindowSize](_ => 0.0);
    var imagIn := new real[WindowSize](_ => 0.0);
    for i := 0 to WindowSize
      invariant realIn[..i] == data[..i]
      invariant imagIn[..] == Zeros(WindowSize)
    {
      realIn[i] := data[i];
      assert realIn[..i + 1] == realIn[..i] + [realIn[i]];
      assert data[..i + 1] == data[..i] + [data[i]];
    }
    assert realIn[..] == realIn[..WindowSize];
    var out := execute(realIn[..], imagIn[..]);
    var magnitudes := Magnitudes(out, BinCount, sqrt);
    normalizedMagnitudes := Scaled(magnitudes, MagnitudeScale);
  }
}
