/**
 * The analysis bookkeeping of `ALSAAudioMonitor` (mled/mled.py:183-345):
 * the sample buffer of `_calculate_frequency_loop`, which releases one
 * fixed-size window per dequeued chunk at most, the three bounded level
 * histories of `_get_adaptive_boost_factors`, and the two-pass analysis
 * that turns each window into the levels handed to the code-channel sender.
 *
 * The FFT is an input: a function from a window to its positive-frequency
 * magnitudes and bin frequencies. Threads, the subprocess and the queue
 * timeouts are not modelled; the loop consumes a given sequence of chunks.
 */
module AudioMonitor {
  import opened Common
  import opened BandAnalysis

  /** AUDIO_UPDATE_INTERVAL_MS (mled/mled.py:39) */
  const AudioUpdateIntervalMs: nat := 40

  /** SAMPLE_RATE (mled/mled.py:45) */
  const DefaultSampleRate: nat := 44100

  /** The fixed boost factors `_get_adaptive_boost_factors` returns (mled/mled.py:309). */
  const FixedBoosts := Bands(2.0, 1.5, 8.0)

  /** The boosts of the first, unboosted pass (mled/mled.py:329). */
  const UnitBoosts := Bands(1.0, 1.0, 1.0)

  /** `int(sample_rate * (AUDIO_UPDATE_INTERVAL_MS / 1000.0))` (mled/mled.py:314) */
  function SamplesPerInterval(sampleRate: nat): (n: nat)
    ensures n as real <= sampleRate as real * 0.04 < n as real + 1.0
    ensures n == 0 <==> sampleRate < 25
  {
    (sampleRate as real * (AudioUpdateIntervalMs as real / 1000.0)).Floor
  }

  /** At 44100 Hz every analysed window holds 1764 samples. */
  lemma DefaultWindowLength()
    ensures SamplesPerInterval(DefaultSampleRate) == 1764
  {
    assert DefaultSampleRate as real * (AudioUpdateIntervalMs as real / 1000.0) == 1764.0;
  }

  // ---------------------------------------------------------------------
  // Windowing
  // ---------------------------------------------------------------------

  /** What one dequeued chunk does to the buffer: at most one window out, the rest kept. */
  datatype Step = Step(window: Option<seq<real>>, rest: seq<real>)

  /**
   * `buffer.extend(chunk)`, then, when at least `spi` samples are buffered,
   * `buffer[:spi]` is analysed and `buffer[spi:]` kept (mled/mled.py:320-326).
   */
  function TakeWindow(buffer: seq<real>, chunk: seq<real>, spi: nat): (s: Step)
    ensures s.window.Some? <==> |buffer| + |chunk| >= spi
    ensures s.window.Some? ==> |s.window.value| == spi && s.window.value + s.rest == buffer + chunk
    ensures s.window.None? ==> s.rest == buffer + chunk
  {
    var extended := buffer + chunk;
    if |extended| >= spi then
      assert extended[..spi] + extended[spi..] == extended;
      Step(Some(extended[..spi]), extended[spi..])
    else Step(None, extended)
  }

  /** All chunks concatenated in order. */
  function Concat(chunks: seq<seq<real>>): seq<real>
  {
    if chunks == [] then [] else chunks[0] + Concat(chunks[1..])
  }

  /** The windows and the leftover buffer after feeding `chunks`, one at a time, to a buffer holding `buffer`. */
  datatype Windowed = Windowed(windows: seq<seq<real>>, rest: seq<real>)

  function Windows(buffer: seq<real>, chunks: seq<seq<real>>, spi: nat): (r: Windowed)
    ensures |r.windows| <= |chunks|
    ensures forall k :: 0 <= k < |r.windows| ==> |r.windows[k]| == spi
    decreases |chunks|
  {
    if chunks == [] then Windowed([], buffer)
    else
      var step := TakeWindow(buffer, chunks[0], spi);
      var later := Windows(step.rest, chunks[1..], spi);
      match step.window
      case Some(w) => Windowed([w] + later.windows, later.rest)
      case None => later
  }

  /**
   * Nothing is lost or reordered: the windows taken, followed by the
   * leftover buffer, are the starting buffer followed by every chunk in
   * order.
   */
  lemma {:induction false} WindowsKeepSamples(buffer: seq<real>, chunks: seq<seq<real>>, spi: nat)
    ensures var r := Windows(buffer, chunks, spi);
            Concat(r.windows) + r.rest == buffer + Concat(chunks)
    decreases |chunks|
  {
    if chunks != [] {
      var step := TakeWindow(buffer, chunks[0], spi);
      WindowsKeepSamples(step.rest, chunks[1..], spi);
      var later := Windows(step.rest, chunks[1..], spi);
      assert Concat(later.windows) + later.rest == step.rest + Concat(chunks[1..]);
      assert buffer + Concat(chunks) == (buffer + chunks[0]) + Concat(chunks[1..]);
      match step.window
      case Some(w) =>
        assert (buffer + chunks[0]) == w + step.rest;
        assert Concat([w] + later.windows) == w + Concat(later.windows) by {
          assert ([w] + later.windows)[1..] == later.windows;
        }
        calc {
          Concat([w] + later.windows) + later.rest;
          w + (Concat(later.windows) + later.rest);
          w + (step.rest + Concat(chunks[1..]));
          (w + step.rest) + Concat(chunks[1..]);
        }
      case None =>
    }
  }

  /**
   * The windows depend on how the samples were chunked: one chunk of two
   * samples with one-sample windows releases one window and keeps a
   * sample, while the same samples in two chunks release two windows.
   */
  lemma ChunkingMatters()
    ensures Windows([], [[0.25, 0.5]], 1) == Windowed([[0.25]], [0.5])
    ensures Windows([], [[0.25], [0.5]], 1) == Windowed([[0.25], [0.5]], [])
  {
    assert [] + [0.25, 0.5] == [0.25, 0.5] && [] + [0.25] == [0.25] && [] + [0.5] == [0.5];
    assert [0.25, 0.5][..1] == [0.25] && [0.25, 0.5][1..] == [0.5];
    assert [0.25][..1] == [0.25] && [0.25][1..] == [] && [0.5][..1] == [0.5] && [0.5][1..] == [];
    assert TakeWindow([], [0.25, 0.5], 1) == Step(Some([0.25]), [0.5]);
    assert TakeWindow([0.5], [], 1) == Step(Some([0.5]), []);
    assert Windows([0.5], [], 1) == Windowed([], [0.5]);
    assert [[0.25, 0.5]][1..] == [];
    assert TakeWindow([], [0.25], 1) == Step(Some([0.25]), []);
    assert TakeWindow([], [0.5], 1) == Step(Some([0.5]), []);
    assert [[0.25], [0.5]][1..] == [[0.5]] && [[0.5]][1..] == [];
    assert Windows([], [[0.5]], 1) == Windowed([[0.5]], []);
  }

  // ---------------------------------------------------------------------
  // Bounded history
  // ---------------------------------------------------------------------

  /** `history.append(x)`, then `history.pop(0)` when it has grown past `cap` (mled/mled.py:298-306). */
  function BoundedAppend(history: seq<real>, x: real, cap: nat): (r: seq<real>)
    ensures |history| < cap ==> r == history + [x]
    ensures 1 <= |history| && cap <= |history| ==> r == history[1..] + [x]
    ensures |history| <= cap ==> |r| <= cap
    ensures 1 <= cap ==> r != [] && r[|r| - 1] == x
  {
    var h := history + [x];
    if |h| > cap then h[1..] else h
  }

  /**
   * A history within its cap stays within it; the newest value is last and
   * the rest is the old history with only its oldest entry dropped when
   * the cap was reached.
   */
  lemma BoundedAppendFifo(history: seq<real>, x: real, cap: nat)
    requires 1 <= cap && |history| <= cap
    ensures var h := BoundedAppend(history, x, cap);
            |h| == if |history| == cap then cap else |history| + 1
    ensures var h := BoundedAppend(history, x, cap);
            h[|h| - 1] == x &&
            h[..|h| - 1] == if |history| == cap then history[1..] else history
  {
  }

  /** The history after recording `xs` in order. */
  function Recorded(history: seq<real>, xs: seq<real>, cap: nat): (r: seq<real>)
    ensures |history| <= cap ==> |r| <= cap
    ensures |r| <= |history| + |xs|
    ensures xs != [] && 1 <= cap ==> |r| >= 1 && r[|r| - 1] == xs[|xs| - 1]
  {
    if xs == [] then history
    else BoundedAppend(Recorded(history, xs[..|xs| - 1], cap), xs[|xs| - 1], cap)
  }

  /**
   * After any number of recordings, a history holds the most recent
   * `min(cap, |history| + |xs|)` values of `history + xs`, oldest first.
   */
  lemma {:induction false} RecordedKeepsNewest(history: seq<real>, xs: seq<real>, cap: nat)
    requires 1 <= cap && |history| <= cap
    ensures var all := history + xs;
            var n := if |all| < cap then |all| else cap;
            Recorded(history, xs, cap) == all[|all| - n..]
  {
    if xs != [] {
      var init := xs[..|xs| - 1];
      RecordedKeepsNewest(history, init, cap);
      assert history + xs == (history + init) + [xs[|xs| - 1]];
    }
  }

  // ---------------------------------------------------------------------
  // The monitor
  // ---------------------------------------------------------------------

  /** What the FFT step hands to the band step for one window. */
  datatype Spectrum = Spectrum(magnitude: seq<real>, freqs: seq<real>)

  predicate WellFormed(s: Spectrum) { |s.magnitude| == |s.freqs| }

  /** The levels of one window after the given boosts. */
  function WindowLevels(spectrum: seq<real> -> Spectrum, w: seq<real>, boosts: Bands): Bands
    requires WellFormed(spectrum(w))
  {
    AnalyzeBands(spectrum(w).magnitude, spectrum(w).freqs, boosts)
  }

  /** The first-pass level of `band` (0 bass, 1 mid, 2 treble) for each window in order. */
  function RawSeries(spectrum: seq<real> -> Spectrum, windows: seq<seq<real>>, band: nat): (r: seq<real>)
    requires band < 3
    requires forall w :: WellFormed(spectrum(w))
    ensures |r| == |windows|
  {
    seq(|windows|, k requires 0 <= k < |windows| =>
      var levels := WindowLevels(spectrum, windows[k], UnitBoosts);
      if band == 0 then levels.bass else if band == 1 then levels.mid else levels.treble)
  }

  /** The second-pass levels, one per window, in order. */
  function Outputs(spectrum: seq<real> -> Spectrum, windows: seq<seq<real>>): (r: seq<Bands>)
    requires forall w :: WellFormed(spectrum(w))
    ensures |r| == |windows|
  {
    seq(|windows|, k requires 0 <= k < |windows| => WindowLevels(spectrum, windows[k], FixedBoosts))
  }

  /** The state of `ALSAAudioMonitor` that the analysis updates. */
  class Monitor {
    const sampleRate: nat
    const historySize: nat
    var bassHistory: seq<real>
    var midHistory: seq<real>
    var trebleHistory: seq<real>
    /** `websocket_queue`, once the sender has attached one; levels are dropped before that. */
    var queueAttached: bool
    var websocketQueue: seq<Bands>

    ghost predicate Valid()
      reads this
    {
      historySize == 100 &&
      |bassHistory| == |midHistory| == |trebleHistory| <= historySize
    }

    /** `ALSAAudioMonitor.__init__` (mled/mled.py:186-197) */
    constructor (sampleRate: nat)
      ensures Valid() && this.sampleRate == sampleRate
      ensures bassHistory == midHistory == trebleHistory == []
      ensures !queueAttached && websocketQueue == []
    {
      this.sampleRate := sampleRate;
      historySize := 100;
      bassHistory, midHistory, trebleHistory := [], [], [];
      queueAttached, websocketQueue := false, [];
    }

    /** `audio_monitor.websocket_queue = queue.Queue()` (mled/mled.py:367) */
    method AttachQueue()
      modifies this
      ensures queueAttached && websocketQueue == []
      ensures bassHistory == old(bassHistory) && midHistory == old(midHistory) && trebleHistory == old(trebleHistory)
    {
      queueAttached, websocketQueue := true, [];
    }

    /**
     * `_get_adaptive_boost_factors` (mled/mled.py:295-309): record the raw
     * levels, dropping the oldest entry of all three histories when the bass
     * history has grown past the cap, and return the fixed boosts.
     */
    method GetAdaptiveBoostFactors(bassRaw: real, midRaw: real, trebleRaw: real) returns (boosts: Bands)
      requires Valid()
      modifies this
      ensures Valid()
      ensures boosts == FixedBoosts
      ensures bassHistory == BoundedAppend(old(bassHistory), bassRaw, historySize)
      ensures midHistory == BoundedAppend(old(midHistory), midRaw, historySize)
      ensures trebleHistory == BoundedAppend(old(trebleHistory), trebleRaw, historySize)
      ensures queueAttached == old(queueAttached) && websocketQueue == old(websocketQueue)
    {
      bassHistory := bassHistory + [bassRaw];
      midHistory := midHistory + [midRaw];
      trebleHistory := trebleHistory + [trebleRaw];
      if |bassHistory| > historySize {
        bassHistory := bassHistory[1..];
        midHistory := midHistory[1..];
        trebleHistory := trebleHistory[1..];
      }
      boosts := FixedBoosts;
    }

    /**
     * The analysis of one window (mled/mled.py:328-339): the unboosted pass,
     * the history update, the boosted pass, and the hand-off to the sender
     * when a queue is attached.
     */
    method AnalyzeWindow(samples: seq<real>, spectrum: seq<real> -> Spectrum)
      requires Valid() && WellFormed(spectrum(samples))
      modifies this
      ensures Valid() && queueAttached == old(queueAttached)
      ensures var raw := WindowLevels(spectrum, samples, UnitBoosts);
              bassHistory == BoundedAppend(old(bassHistory), raw.bass, historySize) &&
              midHistory == BoundedAppend(old(midHistory), raw.mid, historySize) &&
              trebleHistory == BoundedAppend(old(trebleHistory), raw.treble, historySize)
      ensures websocketQueue == if queueAttached then old(websocketQueue) + [WindowLevels(spectrum, samples, FixedBoosts)] else old(websocketQueue)
    {
      var raw := WindowLevels(spectrum, samples, UnitBoosts);
      var boosts := GetAdaptiveBoostFactors(raw.bass, raw.mid, raw.treble);
      var levels := WindowLevels(spectrum, samples, boosts);
      if queueAttached {
        websocketQueue := websocketQueue + [levels];
      }
    }

    /**
     * One dequeued chunk (mled/mled.py:319-339): buffer it and, once a full
     * window is buffered, take the window off the front and analyse it.
     * Below 25 Hz `samples_per_interval` is 0 and the window is empty: the
     * FFT raises on it (mled/mled.py:73) and the handler at
     * mled/mled.py:343-344 drops it before anything is recorded or queued.
     */
    method FeedChunk(buffer: seq<real>, chunk: seq<real>, spectrum: seq<real> -> Spectrum) returns (rest: seq<real>)
      requires Valid()
      requires forall w :: WellFormed(spectrum(w))
      modifies this
      ensures Valid() && queueAttached == old(queueAttached)
      ensures rest == TakeWindow(buffer, chunk, SamplesPerInterval(sampleRate)).rest
      ensures var s := TakeWindow(buffer, chunk, SamplesPerInterval(sampleRate));
              s.window.Some? && SamplesPerInterval(sampleRate) > 0 ==>
                var raw := WindowLevels(spectrum, s.window.value, UnitBoosts);
                bassHistory == BoundedAppend(old(bassHistory), raw.bass, historySize) &&
                midHistory == BoundedAppend(old(midHistory), raw.mid, historySize) &&
                trebleHistory == BoundedAppend(old(trebleHistory), raw.treble, historySize) &&
                websocketQueue == if queueAttached then old(websocketQueue) + [WindowLevels(spectrum, s.window.value, FixedBoosts)] else old(websocketQueue)
      ensures var s := TakeWindow(buffer, chunk, SamplesPerInterval(sampleRate));
              s.window.None? || SamplesPerInterval(sampleRate) == 0 ==>
                bassHistory == old(bassHistory) && midHistory == old(midHistory) &&
                trebleHistory == old(trebleHistory) && websocketQueue == old(websocketQueue)
    {
      var spi := SamplesPerInterval(sampleRate);
      rest := buffer + chunk;
      if |rest| >= spi {
        var samples := rest[..spi];
        rest := rest[spi..];
        if spi > 0 {
          AnalyzeWindow(samples, spectrum);
        }
      }
    }

    /** `Tracked` of this monitor's histories and queue. */
    ghost predicate Tracks(spectrum: seq<real> -> Spectrum, b0: seq<real>, m0: seq<real>, t0: seq<real>,
                           q0: seq<Bands>, taken: seq<seq<real>>)
      requires forall w :: WellFormed(spectrum(w))
      reads this
    {
      Tracked(bassHistory, midHistory, trebleHistory, queueAttached, websocketQueue,
              spectrum, b0, m0, t0, q0, taken, historySize)
    }

    /**
     * One iteration of the loop below: `FeedChunk` on the first of the
     * `remaining` chunks, with the bookkeeping of the fold carried along:
     * `seen` holds every window taken so far and `taken` those analysed.
     */
    method LoopStep(buffer: seq<real>, remaining: seq<seq<real>>, spectrum: seq<real> -> Spectrum,
                    ghost b0: seq<real>, ghost m0: seq<real>, ghost t0: seq<real>, ghost q0: seq<Bands>,
                    ghost all: Windowed, ghost seen: seq<seq<real>>, ghost taken: seq<seq<real>>)
      returns (rest: seq<real>, ghost seen': seq<seq<real>>, ghost taken': seq<seq<real>>)
      requires Valid() && remaining != []
      requires forall w :: WellFormed(spectrum(w))
      requires FoldAt(all, seen, buffer, remaining, SamplesPerInterval(sampleRate))
      requires taken == (if SamplesPerInterval(sampleRate) > 0 then seen else [])
      requires Tracks(spectrum, b0, m0, t0, q0, taken)
      modifies this
      ensures Valid() && queueAttached == old(queueAttached)
      ensures rest == TakeWindow(buffer, remaining[0], SamplesPerInterval(sampleRate)).rest
      ensures FoldAt(all, seen', rest, remaining[1..], SamplesPerInterval(sampleRate))
      ensures taken' == (if SamplesPerInterval(sampleRate) > 0 then seen' else [])
      ensures Tracks(spectrum, b0, m0, t0, q0, taken')
    {
      var spi := SamplesPerInterval(sampleRate);
      WindowsAdvance(all, seen, buffer, remaining, spi);
      ghost var s := TakeWindow(buffer, remaining[0], spi);
      seen', taken' := seen, taken;
      if s.window.Some? {
        seen' := seen + [s.window.value];
        if spi > 0 {
          TrackedSnoc(bassHistory, midHistory, trebleHistory, queueAttached, websocketQueue,
                      spectrum, b0, m0, t0, q0, taken, historySize, s.window.value);
          taken' := taken + [s.window.value];
        }
      }
      rest := FeedChunk(buffer, remaining[0], spectrum);
    }

    /**
     * `_calculate_frequency_loop` over the chunks dequeued while running
     * (mled/mled.py:311-344): buffer them, take at most one window per
     * chunk, analyse it unboosted, record the raw levels, analyse it again
     * with the returned boosts and queue the result for the sender. Empty
     * windows, taken when `samples_per_interval` is 0, are dropped.
     * `rest` is what is left in the buffer.
     */
    method CalculateFrequencyLoop(chunks: seq<seq<real>>, spectrum: seq<real> -> Spectrum) returns (rest: seq<real>)
      requires Valid()
      requires forall w :: WellFormed(spectrum(w))
      modifies this
      ensures Valid()
      ensures queueAttached == old(queueAttached)
      ensures rest == Windows([], chunks, SamplesPerInterval(sampleRate)).rest
      ensures Tracks(spectrum, old(bassHistory), old(midHistory), old(trebleHistory), old(websocketQueue),
                     Analysed(chunks, SamplesPerInterval(sampleRate)))
    {
      var buffer: seq<real> := [];
      var spi := SamplesPerInterval(sampleRate);
      ghost var b0, m0, t0, q0 := bassHistory, midHistory, trebleHistory, websocketQueue;
      ghost var all := Windows([], chunks, spi);
      ghost var seen: seq<seq<real>> := [];
      ghost var taken: seq<seq<real>> := [];
      var i := 0;
      while i < |chunks|
        invariant 0 <= i <= |chunks|
        invariant Valid() && queueAttached == old(queueAttached)
        invariant FoldAt(all, seen, buffer, chunks[i..], spi)
        invariant taken == if spi > 0 then seen else []
        invariant Tracks(spectrum, b0, m0, t0, q0, taken)
      {
        buffer, seen, taken := LoopStep(buffer, chunks[i..], spectrum, b0, m0, t0, q0, all, seen, taken);
        assert chunks[i..][1..] == chunks[i + 1..];
        i := i + 1;
      }
      assert chunks[i..] == [];
      assert seen + [] == seen;
      assert taken == Analysed(chunks, spi);
      rest := buffer;
    }
  }

  /** One chunk of the fold: the window it releases, if any, comes before all later ones. */
  lemma WindowsUnfold(buffer: seq<real>, chunks: seq<seq<real>>, spi: nat)
    requires chunks != []
    ensures var extended := buffer + chunks[0];
            var later := Windows(if |extended| >= spi then extended[spi..] else extended, chunks[1..], spi);
            Windows(buffer, chunks, spi)
              == if |extended| >= spi then Windowed([extended[..spi]] + later.windows, later.rest) else later
  {
  }

  /** The windows that are analysed: all of them, unless they are empty. */
  function Analysed(chunks: seq<seq<real>>, spi: nat): (ws: seq<seq<real>>)
    ensures forall k :: 0 <= k < |ws| ==> |ws[k]| == spi > 0
  {
    if spi > 0 then Windows([], chunks, spi).windows else []
  }

  /** After the windows `seen`, the fold of `chunks` from `buffer` yields the rest of `all`. */
  ghost predicate FoldAt(all: Windowed, seen: seq<seq<real>>, buffer: seq<real>, chunks: seq<seq<real>>, spi: nat)
  {
    all.windows == seen + Windows(buffer, chunks, spi).windows &&
    all.rest == Windows(buffer, chunks, spi).rest
  }

  /** The fold's bookkeeping across one chunk: its window, if any, is the next one of the whole run. */
  lemma WindowsAdvance(all: Windowed, seen: seq<seq<real>>, buffer: seq<real>, chunks: seq<seq<real>>, spi: nat)
    requires chunks != []
    requires FoldAt(all, seen, buffer, chunks, spi)
    ensures var step := TakeWindow(buffer, chunks[0], spi);
            FoldAt(all, if step.window.Some? then seen + [step.window.value] else seen, step.rest, chunks[1..], spi)
  {
    WindowsUnfold(buffer, chunks, spi);
    var step := TakeWindow(buffer, chunks[0], spi);
    if step.window.Some? {
      var later := Windows(step.rest, chunks[1..], spi);
      assert seen + ([step.window.value] + later.windows) == (seen + [step.window.value]) + later.windows;
    }
  }

  /**
   * The histories are `b0`, `m0`, `t0` with the raw levels of `taken`
   * recorded, and the queue is `q0` followed by the boosted levels of
   * `taken` when a queue is attached.
   */
  ghost predicate Tracked(bass: seq<real>, mid: seq<real>, treble: seq<real>, attached: bool, queue: seq<Bands>,
                          spectrum: seq<real> -> Spectrum, b0: seq<real>, m0: seq<real>, t0: seq<real>,
                          q0: seq<Bands>, taken: seq<seq<real>>, cap: nat)
    requires forall w :: WellFormed(spectrum(w))
  {
    bass == Recorded(b0, RawSeries(spectrum, taken, 0), cap) &&
    mid == Recorded(m0, RawSeries(spectrum, taken, 1), cap) &&
    treble == Recorded(t0, RawSeries(spectrum, taken, 2), cap) &&
    queue == if attached then q0 + Outputs(spectrum, taken) else q0
  }

  /** Analysing one more window keeps the histories and the queue tracking the windows analysed. */
  lemma TrackedSnoc(bass: seq<real>, mid: seq<real>, treble: seq<real>, attached: bool, queue: seq<Bands>,
                    spectrum: seq<real> -> Spectrum, b0: seq<real>, m0: seq<real>, t0: seq<real>,
                    q0: seq<Bands>, taken: seq<seq<real>>, cap: nat, w: seq<real>)
    requires forall w :: WellFormed(spectrum(w))
    requires Tracked(bass, mid, treble, attached, queue, spectrum, b0, m0, t0, q0, taken, cap)
    ensures var raw := WindowLevels(spectrum, w, UnitBoosts);
            Tracked(BoundedAppend(bass, raw.bass, cap), BoundedAppend(mid, raw.mid, cap), BoundedAppend(treble, raw.treble, cap),
                    attached, if attached then queue + [WindowLevels(spectrum, w, FixedBoosts)] else queue,
                    spectrum, b0, m0, t0, q0, taken + [w], cap)
  {
    SeriesSnoc(spectrum, taken, w, b0, m0, t0, cap);
  }

  /** Recording one more window appends its raw levels to each history and its boosted levels to the outputs. */
  lemma SeriesSnoc(spectrum: seq<real> -> Spectrum, taken: seq<seq<real>>, w: seq<real>,
                   bass: seq<real>, mid: seq<real>, treble: seq<real>, cap: nat)
    requires forall w :: WellFormed(spectrum(w))
    ensures var raw := WindowLevels(spectrum, w, UnitBoosts);
            Recorded(bass, RawSeries(spectrum, taken + [w], 0), cap) == BoundedAppend(Recorded(bass, RawSeries(spectrum, taken, 0), cap), raw.bass, cap) &&
            Recorded(mid, RawSeries(spectrum, taken + [w], 1), cap) == BoundedAppend(Recorded(mid, RawSeries(spectrum, taken, 1), cap), raw.mid, cap) &&
            Recorded(treble, RawSeries(spectrum, taken + [w], 2), cap) == BoundedAppend(Recorded(treble, RawSeries(spectrum, taken, 2), cap), raw.treble, cap)
    ensures Outputs(spectrum, taken + [w]) == Outputs(spectrum, taken) + [WindowLevels(spectrum, w, FixedBoosts)]
  {
    forall band | 0 <= band < 3
      ensures RawSeries(spectrum, taken + [w], band)[..|taken|] == RawSeries(spectrum, taken, band)
    {
    }
  }
}
