/**
 * The sample conversion of `_read_audio_loop` (mled/mled.py:261-289) for
 * the configured S32_LE stereo stream: the raw bytes are read as signed
 * 32-bit little-endian integers, each pair of channels is averaged into one
 * mono sample, and the result is scaled by 1/2^31 into [-1, 1).
 *
 * `np.frombuffer` refuses a byte count that is not a multiple of 4 and
 * `reshape(-1, 2)` an odd number of integers; both raise, which ends the
 * reading loop. The conversion to float32 is over the reals here.
 */
module SampleDecode {
  import opened Common

  /** CHANNELS (mled/mled.py:46) and the 4 bytes of one S32_LE sample (mled/mled.py:263). */
  const Channels: nat := 2
  const BytesPerSample: nat := 4
  const BytesPerFrame: nat := 8

  /** The scale of `audio_data / 2147483648.0` (mled/mled.py:286). */
  const FullScale: int := 0x8000_0000

  predicate IsInt32(x: int) { -FullScale <= x < FullScale }

  datatype DecodeError =
    | SizeNotMultipleOfElement  // np.frombuffer: buffer size must be a multiple of element size
    | OddSampleCount            // reshape(-1, 2) of an odd number of samples

  datatype Decoded = Samples(samples: seq<real>) | Failed(error: DecodeError)

  /** One S32_LE sample: the unsigned little-endian value, read as two's complement. */
  function Int32LE(b: seq<Byte>): (x: int)
    requires |b| == 4
    ensures IsInt32(x)
  {
    var u: int := b[0] as int + 0x100 * (b[1] as int) + 0x1_0000 * (b[2] as int) + 0x100_0000 * (b[3] as int);
    if u >= FullScale then u - 0x1_0000_0000 else u
  }

  /** The four bytes of `x` as S32_LE. */
  function EncodeInt32LE(x: int): (b: seq<Byte>)
    requires IsInt32(x)
    ensures |b| == 4
  {
    var u := if x < 0 then x + 0x1_0000_0000 else x;
    [u % 0x100, (u / 0x100) % 0x100, (u / 0x1_0000) % 0x100, u / 0x100_0000]
  }

  lemma Int32RoundTrip(x: int)
    requires IsInt32(x)
    ensures Int32LE(EncodeInt32LE(x)) == x
  {
    var u := if x < 0 then x + 0x1_0000_0000 else x;
    assert u == u % 0x100 + 0x100 * ((u / 0x100) % 0x100) + 0x1_0000 * ((u / 0x1_0000) % 0x100) + 0x100_0000 * (u / 0x100_0000);
  }

  /** `np.mean` of one (left, right) frame, then `/ 2147483648.0`. */
  function MonoSample(left: int, right: int): (s: real)
    requires IsInt32(left) && IsInt32(right)
    ensures -1.0 <= s < 1.0
  {
    (left + right) as real / 2.0 / FullScale as real
  }

  /** Frame `i` of an interleaved stereo buffer, downmixed. */
  function FrameSample(data: seq<Byte>, i: nat): real
    requires BytesPerFrame * i + BytesPerFrame <= |data|
  {
    var o := BytesPerFrame * i;
    MonoSample(Int32LE(data[o .. o + 4]), Int32LE(data[o + 4 .. o + 8]))
  }

  /** The mono samples `_read_audio_loop` queues for one chunk of raw bytes, or the error it raises. */
  function DecodeStereo(data: seq<Byte>): (r: Decoded)
    ensures r.Samples? <==> |data| % BytesPerFrame == 0
    ensures r.Failed? ==> r.error == if |data| % BytesPerSample != 0 then SizeNotMultipleOfElement else OddSampleCount
    ensures r.Samples? ==> |r.samples| == |data| / BytesPerFrame
    ensures r.Samples? ==> forall i :: 0 <= i < |r.samples| ==> -1.0 <= r.samples[i] < 1.0
  {
    if |data| % BytesPerSample != 0 then Failed(SizeNotMultipleOfElement)
    else if (|data| / BytesPerSample) % Channels != 0 then Failed(OddSampleCount)
    else Samples(seq(|data| / BytesPerFrame, i requires 0 <= i < |data| / BytesPerFrame => FrameSample(data, i)))
  }

  /** The raw bytes of interleaved (left, right) frames. */
  function EncodeStereo(frames: seq<(int, int)>): (data: seq<Byte>)
    requires forall i :: 0 <= i < |frames| ==> IsInt32(frames[i].0) && IsInt32(frames[i].1)
    ensures |data| == BytesPerFrame * |frames|
  {
    if frames == [] then []
    else EncodeInt32LE(frames[0].0) + EncodeInt32LE(frames[0].1) + EncodeStereo(frames[1..])
  }

  lemma {:induction false} EncodeStereoAt(frames: seq<(int, int)>, i: nat)
    requires forall i :: 0 <= i < |frames| ==> IsInt32(frames[i].0) && IsInt32(frames[i].1)
    requires i < |frames|
    ensures var data := EncodeStereo(frames);
            data[8 * i .. 8 * i + 4] == EncodeInt32LE(frames[i].0) &&
            data[8 * i + 4 .. 8 * i + 8] == EncodeInt32LE(frames[i].1)
  {
    var data := EncodeStereo(frames);
    var head := EncodeInt32LE(frames[0].0) + EncodeInt32LE(frames[0].1);
    assert data == head + EncodeStereo(frames[1..]);
    if i > 0 {
      EncodeStereoAt(frames[1..], i - 1);
      assert data[8 * i .. 8 * i + 8] == EncodeStereo(frames[1..])[8 * (i - 1) .. 8 * (i - 1) + 8];
      assert data[8 * i .. 8 * i + 4] == EncodeStereo(frames[1..])[8 * (i - 1) .. 8 * (i - 1) + 4];
      assert data[8 * i + 4 .. 8 * i + 8] == EncodeStereo(frames[1..])[8 * (i - 1) + 4 .. 8 * (i - 1) + 8];
    } else {
      assert data[0 .. 4] == EncodeInt32LE(frames[0].0);
      assert data[4 .. 8] == EncodeInt32LE(frames[0].1);
    }
  }

  /**
   * Decoding the bytes of any stereo frames gives, frame by frame, the mean
   * of the two channels scaled into [-1, 1).
   */
  lemma DecodeEncodedStereo(frames: seq<(int, int)>)
    requires forall i :: 0 <= i < |frames| ==> IsInt32(frames[i].0) && IsInt32(frames[i].1)
    ensures DecodeStereo(EncodeStereo(frames))
         == Samples(seq(|frames|, i requires 0 <= i < |frames| => MonoSample(frames[i].0, frames[i].1)))
  {
    var data := EncodeStereo(frames);
    var expected := seq(|frames|, i requires 0 <= i < |frames| => MonoSample(frames[i].0, frames[i].1));
    FrameSizes(|frames|);
    assert DecodeStereo(data).Samples?;
    forall i | 0 <= i < |frames|
      ensures FrameSample(data, i) == expected[i]
    {
      FrameOfEncoded(frames, i);
    }
    assert DecodeStereo(data).samples == expected;
  }

  /** The size checks of `DecodeStereo` pass on the bytes of `n` whole frames. */
  lemma FrameSizes(n: nat)
    ensures (BytesPerFrame * n) % BytesPerSample == 0
    ensures ((BytesPerFrame * n) / BytesPerSample) % Channels == 0
    ensures (BytesPerFrame * n) / BytesPerFrame == n
  {
    assert BytesPerFrame * n == BytesPerSample * (Channels * n);
    assert (BytesPerFrame * n) / BytesPerSample == Channels * n;
  }

  lemma FrameOfEncoded(frames: seq<(int, int)>, i: nat)
    requires forall i :: 0 <= i < |frames| ==> IsInt32(frames[i].0) && IsInt32(frames[i].1)
    requires i < |frames|
    ensures FrameSample(EncodeStereo(frames), i) == MonoSample(frames[i].0, frames[i].1)
  {
    EncodeStereoAt(frames, i);
    Int32RoundTrip(frames[i].0);
    Int32RoundTrip(frames[i].1);
  }

  /** A silent stream (all bytes zero) decodes to silence. */
  lemma SilenceDecodesToZero(data: seq<Byte>)
    requires |data| % BytesPerFrame == 0
    requires forall i :: 0 <= i < |data| ==> data[i] == 0
    ensures forall i :: 0 <= i < |DecodeStereo(data).samples| ==> DecodeStereo(data).samples[i] == 0.0
  {
    forall i | 0 <= i < |data| / BytesPerFrame
      ensures FrameSample(data, i) == 0.0
    {
      var o := BytesPerFrame * i;
      assert Int32LE(data[o .. o + 4]) == 0;
      assert Int32LE(data[o + 4 .. o + 8]) == 0;
    }
  }
}
