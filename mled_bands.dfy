/**
 * The band step of `analyze_frequency_bands` (mled/mled.py:74-98), after
 * the FFT: given the positive-frequency magnitudes and the frequency of each
 * bin, average the magnitudes of the bins inside each band's inclusive
 * range (0.0 for a band with no bin), then divide by the largest magnitude
 * and apply the boost factors, capped at 1.0 — or, when the largest
 * magnitude is 0, return the averages as they are.
 *
 * The magnitudes themselves (Hann window, FFT, absolute values) are an input
 * here; arithmetic is over the reals.
 */
module BandAnalysis {

  /** An inclusive frequency range in Hz. */
  datatype Range = Range(lo: real, hi: real)

  /** BASS_FREQ_RANGE, MID_FREQ_RANGE, TREBLE_FREQ_RANGE (mled/mled.py:51-53) */
  const BassRange := Range(20.0, 250.0)
  const MidRange := Range(250.0, 3000.0)
  const TrebleRange := Range(3000.0, 20000.0)

  /** One value per band. */
  datatype Bands = Bands(bass: real, mid: real, treble: real)

  predicate InRange(f: real, r: Range) { r.lo <= f <= r.hi }

  /** The range of band `band`: 0 is bass, 1 mid, 2 treble. */
  function BandRange(band: nat): Range
    requires band < 3
  {
    if band == 0 then BassRange else if band == 1 then MidRange else TrebleRange
  }

  /** The component of `b` for band `band`. */
  function BandLevel(b: Bands, band: nat): real
    requires band < 3
  {
    if band == 0 then b.bass else if band == 1 then b.mid else b.treble
  }

  /**
   * `np.fft.fftfreq(n, 1/sample_rate)[:n//2]`: the frequency of each
   * positive-frequency bin (mled/mled.py:74, 78).
   */
  function BinFrequencies(n: nat, sampleRate: real): (freqs: seq<real>)
    requires n > 0
    ensures |freqs| == n / 2
    ensures n >= 2 ==> freqs[0] == 0.0
    ensures forall k :: 0 < k < n / 2 ==> freqs[k] - freqs[k - 1] == sampleRate / n as real
    ensures sampleRate > 0.0 ==> forall k :: 0 <= k < n / 2 ==> 0.0 <= freqs[k] < sampleRate / 2.0
  {
    var step := sampleRate / n as real;
    var freqs := seq(n / 2, k requires 0 <= k < n / 2 => k as real * step);
    assert forall k :: 0 < k < n / 2 ==> freqs[k] - freqs[k - 1] == step by {
      forall k | 0 < k < n / 2
        ensures freqs[k] - freqs[k - 1] == step
      {
        NextBin(k, step);
      }
    }
    assert sampleRate > 0.0 ==> forall k :: 0 <= k < n / 2 ==> 0.0 <= freqs[k] < sampleRate / 2.0 by {
      if sampleRate > 0.0 {
        forall k | 0 <= k < n / 2
          ensures 0.0 <= freqs[k] < sampleRate / 2.0
        {
          BinBelowNyquist(k, n, sampleRate);
        }
      }
    }
    freqs
  }

  /** Neighbouring bins are one step apart. */
  lemma NextBin(k: nat, step: real)
    requires k > 0
    ensures k as real * step - (k - 1) as real * step == step
  {
    assert (k - 1) as real == k as real - 1.0;
  }

  /** Bin `k` of the positive half lies in [0, rate / 2). */
  lemma BinBelowNyquist(k: nat, n: nat, sampleRate: real)
    requires 0 <= k < n / 2 && sampleRate > 0.0
    ensures 0.0 <= k as real * (sampleRate / n as real) < sampleRate / 2.0
  {
    var step := sampleRate / n as real;
    assert step > 0.0;
    assert 2 * k < n;
    assert (2 * k) as real * step < n as real * step;
    assert n as real * step == sampleRate;
  }

  /**
   * The bins a band's mask selects: bin `k` lies in `r` exactly when
   * `r.lo · n <= k · rate <= r.hi · n`.
   */
  lemma BandBins(n: nat, sampleRate: real, r: Range, k: nat)
    requires n > 0 && sampleRate > 0.0 && k < n / 2
    ensures InRange(BinFrequencies(n, sampleRate)[k], r) <==>
            r.lo * n as real <= k as real * sampleRate <= r.hi * n as real
  {
    var step := sampleRate / n as real;
    var f := BinFrequencies(n, sampleRate)[k];
    assert f == k as real * step;
    assert f * n as real == k as real * sampleRate;
    ScaleRange(f, n as real, r);
  }

  /** Scaling by a positive factor keeps membership of a range. */
  lemma ScaleRange(f: real, c: real, r: Range)
    requires c > 0.0
    ensures InRange(f, r) <==> r.lo * c <= f * c <= r.hi * c
  {
    if r.lo <= f { assert r.lo * c <= f * c; }
    if f <= r.hi { assert f * c <= r.hi * c; }
    if r.lo * c <= f * c { assert (f - r.lo) * c >= 0.0; }
    if f * c <= r.hi * c { assert (r.hi - f) * c >= 0.0; }
  }

  /**
   * The monitor's default windows (1764 samples at 44100 Hz) are 25 Hz
   * apart: bass takes bins 1 to 10, mid 10 to 120 and treble 120 to 800
   * of the 882 positive-frequency bins.
   */
  lemma DefaultBandBins(k: nat)
    requires k < 882
    ensures InRange(BinFrequencies(1764, 44100.0)[k], BassRange) <==> 1 <= k <= 10
    ensures InRange(BinFrequencies(1764, 44100.0)[k], MidRange) <==> 10 <= k <= 120
    ensures InRange(BinFrequencies(1764, 44100.0)[k], TrebleRange) <==> 120 <= k <= 800
  {
    BandBins(1764, 44100.0, BassRange, k);
    BandBins(1764, 44100.0, MidRange, k);
    BandBins(1764, 44100.0, TrebleRange, k);
  }

  /** The sum of the magnitudes whose bin frequency lies in `r`. */
  function BandSum(magnitude: seq<real>, freqs: seq<real>, r: Range): real
    requires |magnitude| == |freqs|
  {
    if magnitude == [] then 0.0
    else (if InRange(freqs[0], r) then magnitude[0] else 0.0) + BandSum(magnitude[1..], freqs[1..], r)
  }

  /** The number of bins whose frequency lies in `r` (`np.count_nonzero(mask)`). */
  function BandCount(freqs: seq<real>, r: Range): nat
  {
    if freqs == [] then 0
    else (if InRange(freqs[0], r) then 1 else 0) + BandCount(freqs[1..], r)
  }

  /** `np.mean(magnitude[mask]) if np.any(mask) else 0.0` (mled/mled.py:86-88) */
  function BandMean(magnitude: seq<real>, freqs: seq<real>, r: Range): (mean: real)
    requires |magnitude| == |freqs|
    ensures BandCount(freqs, r) == 0 ==> mean == 0.0
    ensures BandCount(freqs, r) > 0 ==> mean * BandCount(freqs, r) as real == BandSum(magnitude, freqs, r)
  {
    var count := BandCount(freqs, r);
    if count > 0 then BandSum(magnitude, freqs, r) / count as real else 0.0
  }

  /** `np.max(s)`: an element of `s` that no element exceeds. */
  function SeqMax(s: seq<real>): (m: real)
    requires s != []
    ensures forall i :: 0 <= i < |s| ==> s[i] <= m
    ensures exists i :: 0 <= i < |s| && s[i] == m
  {
    if |s| == 1 then s[0]
    else
      var rest := SeqMax(s[1..]);
      assert forall i :: 1 <= i < |s| ==> s[i] == s[1..][i - 1];
      if s[0] >= rest then s[0] else rest
  }

  /** `np.max(magnitude) if len(magnitude) > 0 else 1.0` (mled/mled.py:91) */
  function MaxMagnitude(magnitude: seq<real>): (top: real)
    ensures |magnitude| == 0 ==> top == 1.0
    ensures forall i :: 0 <= i < |magnitude| ==> magnitude[i] <= top
    ensures |magnitude| > 0 ==> exists i :: 0 <= i < |magnitude| && magnitude[i] == top
  {
    if |magnitude| > 0 then SeqMax(magnitude) else 1.0
  }

  /** `min(1.0, level / max_magnitude * boost)` (mled/mled.py:94-96) */
  function Normalize(level: real, maxMagnitude: real, boost: real): (r: real)
    requires maxMagnitude > 0.0
    ensures r <= 1.0 && r <= level / maxMagnitude * boost
    ensures r == level / maxMagnitude * boost || r == 1.0
  {
    var x := level / maxMagnitude * boost;
    if x < 1.0 then x else 1.0
  }

  /**
   * `analyze_frequency_bands` from the magnitudes on (mled/mled.py:81-98):
   * the band means, normalised and boosted when the largest magnitude is
   * positive, returned unscaled otherwise.
   */
  function AnalyzeBands(magnitude: seq<real>, freqs: seq<real>, boosts: Bands): (levels: Bands)
    requires |magnitude| == |freqs|
    ensures MaxMagnitude(magnitude) > 0.0 ==> levels.bass <= 1.0 && levels.mid <= 1.0 && levels.treble <= 1.0
    ensures MaxMagnitude(magnitude) <= 0.0 ==>
              levels == Bands(BandMean(magnitude, freqs, BassRange), BandMean(magnitude, freqs, MidRange),
                              BandMean(magnitude, freqs, TrebleRange))
  {
    var bass := BandMean(magnitude, freqs, BassRange);
    var mid := BandMean(magnitude, freqs, MidRange);
    var treble := BandMean(magnitude, freqs, TrebleRange);
    var maxMagnitude := MaxMagnitude(magnitude);
    if maxMagnitude > 0.0 then
      Bands(Normalize(bass, maxMagnitude, boosts.bass),
            Normalize(mid, maxMagnitude, boosts.mid),
            Normalize(treble, maxMagnitude, boosts.treble))
    else Bands(bass, mid, treble)
  }

  // ---------------------------------------------------------------------
  // Facts about sums and means
  // ---------------------------------------------------------------------

  predicate NonNegative(s: seq<real>) { forall i :: 0 <= i < |s| ==> 0.0 <= s[i] }

  lemma {:induction false} BandSumBounds(magnitude: seq<real>, freqs: seq<real>, r: Range, top: real)
    requires |magnitude| == |freqs| && NonNegative(magnitude)
    requires forall i :: 0 <= i < |magnitude| ==> magnitude[i] <= top
    ensures 0.0 <= BandSum(magnitude, freqs, r) <= BandCount(freqs, r) as real * top
  {
    if magnitude != [] {
      BandSumBounds(magnitude[1..], freqs[1..], r, top);
    }
  }

  lemma {:induction false} EmptyBandSum(magnitude: seq<real>, freqs: seq<real>, r: Range)
    requires |magnitude| == |freqs| && BandCount(freqs, r) == 0
    ensures BandSum(magnitude, freqs, r) == 0.0
  {
    if magnitude != [] {
      EmptyBandSum(magnitude[1..], freqs[1..], r);
    }
  }

  /** With non-negative magnitudes, a band's mean lies between 0 and the largest magnitude. */
  lemma BandMeanBounds(magnitude: seq<real>, freqs: seq<real>, r: Range, top: real)
    requires |magnitude| == |freqs| && NonNegative(magnitude)
    requires forall i :: 0 <= i < |magnitude| ==> magnitude[i] <= top
    requires 0.0 <= top
    ensures 0.0 <= BandMean(magnitude, freqs, r) <= top
  {
    BandSumBounds(magnitude, freqs, r, top);
    var count := BandCount(freqs, r);
    if count > 0 {
      var sum := BandSum(magnitude, freqs, r);
      assert sum / count as real <= count as real * top / count as real;
    }
  }

  // ---------------------------------------------------------------------
  // What the band step promises
  // ---------------------------------------------------------------------

  /** A band with no frequency bin in its range yields 0.0, whatever the boosts. */
  lemma EmptyBandIsZero(magnitude: seq<real>, freqs: seq<real>, boosts: Bands, band: nat)
    requires |magnitude| == |freqs| && band < 3 && BandCount(freqs, BandRange(band)) == 0
    ensures BandLevel(AnalyzeBands(magnitude, freqs, boosts), band) == 0.0
  {
    var maxMagnitude := MaxMagnitude(magnitude);
    if maxMagnitude > 0.0 {
      var boost := BandLevel(boosts, band);
      assert Normalize(0.0, maxMagnitude, boost) == 0.0 by {
        assert 0.0 / maxMagnitude == 0.0;
      }
    }
  }

  /** Non-negative magnitudes and boosts give non-negative levels. */
  lemma LevelsNonNegative(magnitude: seq<real>, freqs: seq<real>, boosts: Bands)
    requires |magnitude| == |freqs| && NonNegative(magnitude)
    requires 0.0 <= boosts.bass && 0.0 <= boosts.mid && 0.0 <= boosts.treble
    ensures 0.0 <= AnalyzeBands(magnitude, freqs, boosts).bass
    ensures 0.0 <= AnalyzeBands(magnitude, freqs, boosts).mid
    ensures 0.0 <= AnalyzeBands(magnitude, freqs, boosts).treble
  {
    var top := MaxMagnitude(magnitude);
    if magnitude == [] {
      EmptyBandSum(magnitude, freqs, BassRange);
      EmptyBandSum(magnitude, freqs, MidRange);
      EmptyBandSum(magnitude, freqs, TrebleRange);
    } else {
      assert 0.0 <= magnitude[0] <= top;
      BandMeanBounds(magnitude, freqs, BassRange, top);
      BandMeanBounds(magnitude, freqs, MidRange, top);
      BandMeanBounds(magnitude, freqs, TrebleRange, top);
      if top > 0.0 {
        NormalizeNonNegative(BandMean(magnitude, freqs, BassRange), top, boosts.bass);
        NormalizeNonNegative(BandMean(magnitude, freqs, MidRange), top, boosts.mid);
        NormalizeNonNegative(BandMean(magnitude, freqs, TrebleRange), top, boosts.treble);
      }
    }
  }

  lemma NormalizeNonNegative(level: real, maxMagnitude: real, boost: real)
    requires 0.0 <= level && 0.0 < maxMagnitude && 0.0 <= boost
    ensures 0.0 <= Normalize(level, maxMagnitude, boost)
  {
    assert 0.0 <= level / maxMagnitude;
  }

  /**
   * When the largest magnitude is 0 the band means are returned unscaled,
   * and for non-negative magnitudes they are all 0.
   */
  lemma ZeroPeakGivesZero(magnitude: seq<real>, freqs: seq<real>, boosts: Bands)
    requires |magnitude| == |freqs| && |magnitude| > 0 && MaxMagnitude(magnitude) == 0.0
    ensures AnalyzeBands(magnitude, freqs, boosts)
         == Bands(BandMean(magnitude, freqs, BassRange), BandMean(magnitude, freqs, MidRange), BandMean(magnitude, freqs, TrebleRange))
    ensures NonNegative(magnitude) ==> AnalyzeBands(magnitude, freqs, boosts) == Bands(0.0, 0.0, 0.0)
  {
    if NonNegative(magnitude) {
      BandMeanBounds(magnitude, freqs, BassRange, 0.0);
      BandMeanBounds(magnitude, freqs, MidRange, 0.0);
      BandMeanBounds(magnitude, freqs, TrebleRange, 0.0);
    }
  }

  /** A silent spectrum (every magnitude 0) yields (0, 0, 0) whatever the boosts. */
  lemma SilenceGivesZero(magnitude: seq<real>, freqs: seq<real>, boosts: Bands)
    requires |magnitude| == |freqs|
    requires forall i :: 0 <= i < |magnitude| ==> magnitude[i] == 0.0
    ensures AnalyzeBands(magnitude, freqs, boosts) == Bands(0.0, 0.0, 0.0)
  {
    if magnitude == [] {
      EmptyBandSum(magnitude, freqs, BassRange);
      EmptyBandSum(magnitude, freqs, MidRange);
      EmptyBandSum(magnitude, freqs, TrebleRange);
      assert MaxMagnitude(magnitude) == 1.0;
      assert 0.0 / 1.0 == 0.0;
    } else {
      ZeroPeakGivesZero(magnitude, freqs, boosts);
    }
  }

  /**
   * In the first pass, with boosts (1, 1, 1), the cap never bites: each
   * level is the band mean as a fraction of the largest magnitude.
   */
  lemma UnitBoostIsFraction(magnitude: seq<real>, freqs: seq<real>, band: nat)
    requires |magnitude| == |freqs| && |magnitude| > 0 && NonNegative(magnitude)
    requires MaxMagnitude(magnitude) > 0.0 && band < 3
    ensures BandLevel(AnalyzeBands(magnitude, freqs, Bands(1.0, 1.0, 1.0)), band)
         == BandMean(magnitude, freqs, BandRange(band)) / MaxMagnitude(magnitude)
  {
    var top := MaxMagnitude(magnitude);
    var mean := BandMean(magnitude, freqs, BandRange(band));
    BandMeanBounds(magnitude, freqs, BandRange(band), top);
    UnitNormalize(mean, top);
    assert BandLevel(AnalyzeBands(magnitude, freqs, Bands(1.0, 1.0, 1.0)), band) == Normalize(mean, top, 1.0);
  }

  /** A level no larger than the maximum is not capped by a unit boost. */
  lemma UnitNormalize(mean: real, top: real)
    requires 0.0 <= mean <= top && 0.0 < top
    ensures Normalize(mean, top, 1.0) == mean / top
  {
    var q := mean / top;
    assert q * top == mean;
  }

  /**
   * The band edges are inclusive on both sides, so a bin at exactly 250 Hz
   * or 3000 Hz is counted in two bands. With 44100 Hz and the 1764-sample
   * window of the monitor, bins 10 and 120 sit on those edges.
   */
  lemma SharedEdgeBins()
    ensures BinFrequencies(1764, 44100.0)[10] == 250.0
    ensures BinFrequencies(1764, 44100.0)[120] == 3000.0
    ensures InRange(250.0, BassRange) && InRange(250.0, MidRange)
    ensures InRange(3000.0, MidRange) && InRange(3000.0, TrebleRange)
  {
  }
}
