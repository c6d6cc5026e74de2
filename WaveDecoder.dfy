/**
 * The WAV byte decoder (`decodeWaveFile` in Vox/Core/WaveDecoder.swift).
 *
 * The decoder assumes the canonical 44-byte RIFF/WAVE header: the channel
 * count, sample rate and bit depth sit at fixed offsets, and the PCM payload
 * starts right after the header. The payload is read as interleaved signed
 * 16-bit little-endian samples; one value per frame is produced, taken from
 * the first channel and divided by 32768. The sample rate is read but never
 * used: there is no resampling.
 *
 * `Decode` is the specification, `DecodeWaveFile` the loop that the source
 * runs, and `EncodeWave` a reference encoder of canonical files against which
 * the decoder is proved (`DecodeEncodedWave`).
 */
module WaveDecoder {

  /** One byte of the file. */
  type Byte = b: int | 0 <= b < 256

  /** Size of the canonical header; the PCM payload starts at this offset. */
  const HeaderSize: nat := 44
  const ChannelsOffset: nat := 22
  const SampleRateOffset: nat := 24
  const BitsPerSampleOffset: nat := 34

  /** The divisor that maps a signed 16-bit sample into [-1, 1). */
  const Scale: real := 32768.0

  /** `WaveError`: the two errors the decoder throws. */
  datatype WaveError = InvalidFile | UnsupportedFormat(message: string)

  /**
   * What a call of the decoder ends in: the samples, a thrown `WaveError`,
   * or the run-time trap of Swift's integer division when the header says
   * zero channels.
   */
  datatype DecodeResult =
    | Decoded(samples: seq<real>)
    | Thrown(error: WaveError)
    | DivideByZeroTrap

  /** The header fields the decoder reads. */
  datatype Header = Header(channels: nat, sampleRate: nat, bitsPerSample: nat)

  // ---------------------------------------------------------------------
  // Little-endian field reads

  /** An unsigned 16-bit little-endian value at `off`. */
  function U16(data: seq<Byte>, off: nat): (v: nat)
    requires off + 2 <= |data|
    ensures v < 0x1_0000
  {
    (data[off] as int) + 0x100 * (data[off + 1] as int)
  }

  /** An unsigned 32-bit little-endian value at `off`. */
  function U32(data: seq<Byte>, off: nat): (v: nat)
    requires off + 4 <= |data|
    ensures v < 0x1_0000_0000
  {
    U16(data, off) + 0x1_0000 * U16(data, off + 2)
  }

  /** A signed (two's complement) 16-bit little-endian value at `off`. */
  function I16(data: seq<Byte>, off: nat): (v: int)
    requires off + 2 <= |data|
    ensures -0x8000 <= v < 0x8000
    ensures v % 0x1_0000 == U16(data, off)
  {
    var u := U16(data, off);
    if u < 0x8000 then u else u - 0x1_0000
  }

  /** The channel count, sample rate and bit depth at bytes 22-23, 24-27 and 34-35. */
  function ReadHeader(data: seq<Byte>): Header
    requires HeaderSize <= |data|
  {
    Header(U16(data, ChannelsOffset), U32(data, SampleRateOffset), U16(data, BitsPerSampleOffset))
  }

  // ---------------------------------------------------------------------
  // The message of `unsupportedFormat`

  function DecimalDigit(d: nat): (c: char)
    requires d < 10
    ensures '0' <= c <= '9' && (c as int) - ('0' as int) == d
  {
    ['0', '1', '2', '3', '4', '5', '6', '7', '8', '9'][d]
  }

  predicate AllDigits(s: string) {
    forall i :: 0 <= i < |s| ==> '0' <= s[i] <= '9'
  }

  /** Swift's string interpolation of an unsigned integer: its decimal digits. */
  function Decimal(n: nat): (s: string)
    ensures |s| >= 1 && AllDigits(s)
    ensures s[0] == '0' <==> n == 0  // no leading zeros
  {
    if n < 10 then [DecimalDigit(n)] else Decimal(n / 10) + [DecimalDigit(n % 10)]
  }

  /** The value of a string of decimal digits. */
  function ParseDecimal(s: string): nat
    requires AllDigits(s)
  {
    if s == [] then 0
    else 10 * ParseDecimal(s[..|s| - 1]) + ((s[|s| - 1] as int) - ('0' as int))
  }

  lemma {:induction false} DecimalRoundTrip(n: nat)
    ensures ParseDecimal(Decimal(n)) == n
  {
    if n >= 10 {
      var s := Decimal(n);
      assert s[..|s| - 1] == Decimal(n / 10);
      DecimalRoundTrip(n / 10);
    }
  }

  const MessagePrefix: string := "Expected 16-bit PCM, got "
  const MessageSuffix: string := "-bit"

  /** The text thrown with `unsupportedFormat` for a bit depth of `bits`. */
  function UnsupportedMessage(bits: nat): string {
    MessagePrefix + Decimal(bits) + MessageSuffix
  }

  /** Reads the bit depth back out of a message of the shape above. */
  function MessageBitDepth(message: string): nat
    requires |message| >= |MessagePrefix| + |MessageSuffix|
    requires AllDigits(message[|MessagePrefix|..|message| - |MessageSuffix|])
  {
    ParseDecimal(message[|MessagePrefix|..|message| - |MessageSuffix|])
  }

  /** The message carries the actual bit depth: it can be read back exactly. */
  lemma MessageNamesBitDepth(bits: nat)
    ensures var m := UnsupportedMessage(bits);
      |m| >= |MessagePrefix| + |MessageSuffix| &&
      AllDigits(m[|MessagePrefix|..|m| - |MessageSuffix|]) &&
      MessageBitDepth(m) == bits
  {
    var m := UnsupportedMessage(bits);
    assert m[|MessagePrefix|..|m| - |MessageSuffix|] == Decimal(bits);
    DecimalRoundTrip(bits);
  }

  // ---------------------------------------------------------------------
  // The decoder: specification

  /** `sampleCount`: whole frames in a payload of `payloadLength` bytes. */
  function FrameCount(payloadLength: nat, channels: nat): nat
    requires channels > 0
  {
    DivNonNegative(payloadLength, channels * 2);
    payloadLength / (channels * 2)
  }

  /** The `k`-th 16-bit sample of the payload, as a float. */
  function SampleAt(pcm: seq<Byte>, k: nat): real
    requires 2 * k + 2 <= |pcm|
  {
    I16(pcm, 2 * k) as real / Scale
  }

  /**
   * The bounds guard of the loop always holds: the first sample of every
   * whole frame lies inside the payload.
   */
  lemma FrameIndexInBounds(payloadLength: nat, channels: nat, i: nat)
    requires channels > 0 && i < FrameCount(payloadLength, channels)
    ensures i * channels < payloadLength / 2
    ensures 2 * (i * channels) + 2 <= payloadLength
  {
    var n := FrameCount(payloadLength, channels);
    assert (channels * 2) * n <= payloadLength;
    assert i + 1 <= n;
    assert (channels * 2) * (i + 1) <= (channels * 2) * n;
    assert 2 * (i * channels) + 2 * channels <= payloadLength;
  }

  /** The first-channel sample of frame `i`, scaled to a float. */
  function FrameSample(pcm: seq<Byte>, channels: nat, i: nat): real
    requires channels > 0 && i < FrameCount(|pcm|, channels)
  {
    FrameIndexInBounds(|pcm|, channels, i);
    SampleAt(pcm, i * channels)
  }

  /** The first channel of every whole frame of `pcm`, scaled to floats. */
  function FirstChannel(pcm: seq<Byte>, channels: nat): seq<real>
    requires channels > 0
  {
    seq(FrameCount(|pcm|, channels), i requires 0 <= i < FrameCount(|pcm|, channels) =>
      FrameSample(pcm, channels, i))
  }

  /** What `decodeWaveFile` does with the bytes of the file. */
  function Decode(data: seq<Byte>): DecodeResult {
    if |data| <= HeaderSize then Thrown(InvalidFile)
    else
      var header := ReadHeader(data);
      if header.bitsPerSample != 16 then
        Thrown(UnsupportedFormat(UnsupportedMessage(header.bitsPerSample)))
      else if header.channels == 0 then DivideByZeroTrap
      else Decoded(FirstChannel(data[HeaderSize..], header.channels))
  }

  // ---------------------------------------------------------------------
  // The decoder: the source's loop

  /**
   * The body of the `withUnsafeBytes` closure: for every frame, reads the
   * first-channel sample behind the bounds guard into the preallocated output.
   */
  method FillFirstChannel(pcm: seq<Byte>, channels: nat, floatSamples: array<real>)
    requires channels > 0 && floatSamples.Length == FrameCount(|pcm|, channels)
    modifies floatSamples
    ensures floatSamples[..] == FirstChannel(pcm, channels)
  {
    var sampleCount := floatSamples.Length;
    var int16Count := |pcm| / 2;
    ghost var spec := FirstChannel(pcm, channels);
    for i := 0 to sampleCount
      invariant floatSamples[..i] == spec[..i]
    {
      var sampleIndex := i * channels;
      assert sampleIndex < int16Count && 2 * sampleIndex + 2 <= |pcm| by {
        FrameIndexInBounds(|pcm|, channels, i);
      }
      if sampleIndex < int16Count {
        floatSamples[i] := I16(pcm, 2 * sampleIndex) as real / Scale;
      }
      assert floatSamples[i] == spec[i];
    }
    assert floatSamples[..] == floatSamples[..sampleCount];
  }

  /**
   * `decodeWaveFile`: checks the header, reads the fields, preallocates the
   * output with zeros and fills it frame by frame.
   */
  method DecodeWaveFile(data: seq<Byte>) returns (result: DecodeResult)
    ensures result == Decode(data)
  {
    if |data| <= HeaderSize {
      return Thrown(InvalidFile);
    }
    var channels := U16(data, ChannelsOffset);
    var sampleRate := U32(data, SampleRateOffset);  // read, never used
    var bitsPerSample := U16(data, BitsPerSampleOffset);
    if bitsPerSample != 16 {
      return Thrown(UnsupportedFormat(UnsupportedMessage(bitsPerSample)));
    }
    var pcm := data[HeaderSize..];
    if channels == 0 {
      return DivideByZeroTrap;
    }
    DivNonNegative(|pcm|, channels * 2);
    var sampleCount := |pcm| / (channels * 2);
    var floatSamples := new real[sampleCount](_ => 0.0);
    FillFirstChannel(pcm, channels, floatSamples);
    return Decoded(floatSamples[..]);
  }

  // ---------------------------------------------------------------------
  // Properties of the decoder

  /**
   * The four outcomes: too short (44 bytes or fewer, even a header with an
   * empty payload), wrong bit depth (checked only once the length passes),
   * zero channels, or samples.
   */
  lemma DecodeOutcomes(data: seq<Byte>)
    ensures Decode(data) == Thrown(InvalidFile) <==> |data| <= HeaderSize
    ensures (Decode(data).Thrown? && Decode(data).error.UnsupportedFormat?) <==>
            |data| > HeaderSize && U16(data, BitsPerSampleOffset) != 16
    ensures Decode(data) == DivideByZeroTrap <==>
            |data| > HeaderSize && U16(data, BitsPerSampleOffset) == 16 && U16(data, ChannelsOffset) == 0
    ensures Decode(data).Decoded? <==>
            |data| > HeaderSize && U16(data, BitsPerSampleOffset) == 16 && U16(data, ChannelsOffset) > 0
  {
  }

  /** A wrong bit depth is reported with that bit depth in the message. */
  lemma UnsupportedFormatCarriesBitDepth(data: seq<Byte>)
    requires |data| > HeaderSize && U16(data, BitsPerSampleOffset) != 16
    ensures Decode(data).Thrown? && Decode(data).error.UnsupportedFormat?
    ensures var m := Decode(data).error.message;
      |m| >= |MessagePrefix| + |MessageSuffix| &&
      AllDigits(m[|MessagePrefix|..|m| - |MessageSuffix|]) &&
      MessageBitDepth(m) == U16(data, BitsPerSampleOffset)
  {
    MessageNamesBitDepth(U16(data, BitsPerSampleOffset));
  }

  /** A 16-bit sample of the payload, read at its offset in the whole file. */
  lemma PayloadSample(data: seq<Byte>, k: nat)
    requires HeaderSize + 2 * k + 2 <= |data|
    ensures I16(data[HeaderSize..], 2 * k) == I16(data, HeaderSize + 2 * k)
  {
    var pcm := data[HeaderSize..];
    assert pcm[2 * k] == data[HeaderSize + 2 * k];
    assert pcm[2 * k + 1] == data[HeaderSize + 2 * k + 1];
  }

  /** Element `i` of the first channel is the 16-bit sample at payload byte `2 * (i * channels)`. */
  lemma FirstChannelAt(pcm: seq<Byte>, channels: nat, i: nat)
    requires channels > 0 && i < FrameCount(|pcm|, channels)
    ensures 2 * (i * channels) + 2 <= |pcm|
    ensures FirstChannel(pcm, channels)[i] == I16(pcm, 2 * (i * channels)) as real / Scale
  {
    FrameIndexInBounds(|pcm|, channels, i);
  }

  /** The `i`-th output value is the first-channel sample of frame `i`. */
  lemma DecodedSample(data: seq<Byte>, i: nat)
    requires Decode(data).Decoded? && i < |Decode(data).samples|
    ensures var ch := U16(data, ChannelsOffset);
      HeaderSize + 2 * (i * ch) + 2 <= |data| &&
      Decode(data).samples[i] == I16(data, HeaderSize + 2 * (i * ch)) as real / Scale
  {
    var ch := U16(data, ChannelsOffset);
    var pcm := data[HeaderSize..];
    FirstChannelAt(pcm, ch, i);
    PayloadSample(data, i * ch);
  }

  /**
   * One output value per whole frame, read from the first channel of that
   * frame: `output[i]` is the signed 16-bit value at payload byte
   * `2 * (i * channels)`, divided by 32768.
   */
  lemma DecodedFrames(data: seq<Byte>)
    requires Decode(data).Decoded?
    ensures var ch := U16(data, ChannelsOffset);
      var out := Decode(data).samples;
      ch > 0 &&
      |out| == (|data| - HeaderSize) / (ch * 2) &&
      forall i :: 0 <= i < |out| ==>
        HeaderSize + 2 * (i * ch) + 2 <= |data| &&
        out[i] == I16(data, HeaderSize + 2 * (i * ch)) as real / Scale
  {
    var ch := U16(data, ChannelsOffset);
    var out := Decode(data).samples;
    forall i | 0 <= i < |out|
      ensures HeaderSize + 2 * (i * ch) + 2 <= |data|
      ensures out[i] == I16(data, HeaderSize + 2 * (i * ch)) as real / Scale
    {
      DecodedSample(data, i);
    }
  }

  /** Every output value lies in [-1, 1). */
  lemma SamplesInUnitRange(data: seq<Byte>)
    requires Decode(data).Decoded?
    ensures forall x :: x in Decode(data).samples ==> -1.0 <= x < 1.0
  {
    var out := Decode(data).samples;
    var ch := U16(data, ChannelsOffset);
    forall i | 0 <= i < |out|
      ensures -1.0 <= out[i] < 1.0
    {
      DecodedSample(data, i);
    }
  }

  /** For mono input every 16-bit sample is kept: a 64000-byte payload gives 32000 samples. */
  lemma MonoKeepsEverySample(data: seq<Byte>)
    requires |data| > HeaderSize
    requires U16(data, BitsPerSampleOffset) == 16 && U16(data, ChannelsOffset) == 1
    ensures Decode(data).Decoded?
    ensures |Decode(data).samples| == (|data| - HeaderSize) / 2
    ensures |data| == HeaderSize + 64000 ==> |Decode(data).samples| == 32000
  {
  }

  /** The sample-rate field has no effect on the output. */
  lemma SampleRateIgnored(d1: seq<Byte>, d2: seq<Byte>)
    requires |d1| == |d2|
    requires forall k :: 0 <= k < |d1| && !(SampleRateOffset <= k < SampleRateOffset + 4) ==> d1[k] == d2[k]
    ensures Decode(d1) == Decode(d2)
  {
    if |d1| > HeaderSize {
      assert d1[HeaderSize..] == d2[HeaderSize..];
    }
  }

  lemma MulMonotone(b: nat, x: int, y: int)
    requires x <= y
    ensures b * x <= b * y
  {
    assert b * y - b * x == b * (y - x);
  }

  lemma DivNonNegative(a: nat, b: nat)
    requires b > 0
    ensures a / b >= 0
  {
    var q, r := a / b, a % b;
    assert a == b * q + r && 0 <= r < b;
    if q < 0 {
      MulMonotone(b, q, -1);
    }
  }

  /** Euclidean division is determined by quotient and remainder. */
  lemma DivisionUnique(a: nat, b: nat, q: nat, r: nat)
    requires b > 0 && r < b && a == b * q + r
    ensures a / b == q
  {
    var q', r' := a / b, a % b;
    assert a == b * q' + r' && 0 <= r' < b;
    if q' > q {
      MulMonotone(b, q + 1, q');
    } else if q' < q {
      MulMonotone(b, q' + 1, q);
    }
  }

  /** Bytes appended to a payload do not change the samples of its frames. */
  lemma FirstChannelOfExtended(pcm: seq<Byte>, extra: seq<Byte>, ch: nat, i: nat)
    requires ch > 0 && i < FrameCount(|pcm|, ch) && i < FrameCount(|pcm + extra|, ch)
    ensures FirstChannel(pcm + extra, ch)[i] == FirstChannel(pcm, ch)[i]
  {
    FirstChannelAt(pcm, ch, i);
    FirstChannelAt(pcm + extra, ch, i);
    var k := 2 * (i * ch);
    assert (pcm + extra)[k] == pcm[k] && (pcm + extra)[k + 1] == pcm[k + 1];
  }

  /** Bytes after the last whole frame (a trailing partial frame) are dropped. */
  lemma TrailingPartialFrameDropped(data: seq<Byte>, extra: seq<Byte>)
    requires Decode(data).Decoded?
    requires (|data| - HeaderSize) % (U16(data, ChannelsOffset) * 2) == 0
    requires |extra| < U16(data, ChannelsOffset) * 2
    ensures Decode(data + extra) == Decode(data)
  {
    var ch := U16(data, ChannelsOffset);
    var longer := data + extra;
    assert ReadHeader(longer) == ReadHeader(data);
    var pcm, pcm' := data[HeaderSize..], longer[HeaderSize..];
    assert pcm' == pcm + extra;
    var n := |pcm| / (ch * 2);
    assert FrameCount(|pcm'|, ch) == n by {
      assert |pcm| == (ch * 2) * n + |pcm| % (ch * 2);
      DivisionUnique(|pcm'|, ch * 2, n, |extra|);
    }
    forall i | 0 <= i < n
      ensures FirstChannel(pcm', ch)[i] == FirstChannel(pcm, ch)[i]
    {
      FirstChannelOfExtended(pcm, extra, ch, i);
    }
    assert FirstChannel(pcm', ch) == FirstChannel(pcm, ch);
  }

  /** The first channel is kept, never an average: a stereo frame (0, 16384) decodes to 0.0, not 0.25. */
  lemma FirstChannelNotAverage(data: seq<Byte>)
    requires |data| == HeaderSize + 4
    requires U16(data, BitsPerSampleOffset) == 16 && U16(data, ChannelsOffset) == 2
    requires data[HeaderSize..] == [0x00, 0x00, 0x00, 0x40]
    ensures Decode(data) == Decoded([0.0])
  {
    assert FrameCount(4, 2) == 1;
    assert SampleAt(data[HeaderSize..], 0) == 0.0;
  }

  // ---------------------------------------------------------------------
  // A reference encoder of canonical WAV files

  function LE16(v: nat): (b: seq<Byte>)
    requires v < 0x1_0000
    ensures |b| == 2 && U16(b, 0) == v
  {
    [v % 0x100, v / 0x100]
  }

  function LE32(v: nat): (b: seq<Byte>)
    requires v < 0x1_0000_0000
    ensures |b| == 4 && U32(b, 0) == v
  {
    var lo, hi := LE16(v % 0x1_0000), LE16(v / 0x1_0000);
    assert (lo + hi)[2..] == hi;
    lo + hi
  }

  /** The two bytes of a signed 16-bit sample. */
  function EncodeSample(v: int): (b: seq<Byte>)
    requires -0x8000 <= v < 0x8000
    ensures |b| == 2 && I16(b, 0) == v
  {
    LE16(if v < 0 then v + 0x1_0000 else v)
  }

  const Riff: seq<Byte> := [0x52, 0x49, 0x46, 0x46]
  const WaveTag: seq<Byte> := [0x57, 0x41, 0x56, 0x45]
  const FmtTag: seq<Byte> := [0x66, 0x6d, 0x74, 0x20]
  const DataTag: seq<Byte> := [0x64, 0x61, 0x74, 0x61]

  /** The canonical header: "RIFF" size "WAVE", a 16-byte PCM "fmt " chunk, then "data" size. */
  function CanonicalHeader(channels: nat, sampleRate: nat, bitsPerSample: nat, dataLength: nat): (h: seq<Byte>)
    requires channels < 0x1_0000 && sampleRate < 0x1_0000_0000 && bitsPerSample < 0x1_0000
    ensures |h| == HeaderSize
    ensures ReadHeader(h) == Header(channels, sampleRate, bitsPerSample)
  {
    var front := Riff + LE32((36 + dataLength) % 0x1_0000_0000) + WaveTag + FmtTag + LE32(16) + LE16(1);
    var rate := LE32(sampleRate);
    var middle := LE32((sampleRate * channels * bitsPerSample / 8) % 0x1_0000_0000)
                  + LE16((channels * bitsPerSample / 8) % 0x1_0000);
    var back := DataTag + LE32(dataLength % 0x1_0000_0000);
    var h := front + LE16(channels) + rate + middle + LE16(bitsPerSample) + back;
    assert |front| == 22 && |middle| == 6;
    assert h[22..24] == LE16(channels);
    assert h[24..28] == rate;
    assert h[34..36] == LE16(bitsPerSample);
    assert U16(h, 22) == U16(LE16(channels), 0);
    assert U16(h, 24) == U16(rate, 0) && U16(h, 26) == U16(rate, 2);
    assert U16(h, 34) == U16(LE16(bitsPerSample), 0);
    h
  }

  /** Every frame holds `channels` samples, each a signed 16-bit value. */
  predicate WellFormedFrames(frames: seq<seq<int>>, channels: nat) {
    forall i :: 0 <= i < |frames| ==>
      |frames[i]| == channels && forall j :: 0 <= j < channels ==> -0x8000 <= frames[i][j] < 0x8000
  }

  /** One frame, its samples interleaved. */
  function EncodeFrame(frame: seq<int>): (b: seq<Byte>)
    requires forall j :: 0 <= j < |frame| ==> -0x8000 <= frame[j] < 0x8000
    ensures |b| == 2 * |frame|
  {
    if frame == [] then [] else EncodeSample(frame[0]) + EncodeFrame(frame[1..])
  }

  /** The PCM payload of a sequence of frames. */
  function EncodeFrames(frames: seq<seq<int>>, channels: nat): (b: seq<Byte>)
    requires WellFormedFrames(frames, channels)
    ensures |b| == 2 * channels * |frames|
  {
    if frames == [] then [] else EncodeFrame(frames[0]) + EncodeFrames(frames[1..], channels)
  }

  /** The first sample of frame `i` sits at payload byte `2 * i * channels`. */
  lemma {:induction false} EncodedFrameStart(frames: seq<seq<int>>, channels: nat, i: nat)
    requires channels > 0 && WellFormedFrames(frames, channels) && i < |frames|
    ensures 2 * (i * channels) + 2 <= |EncodeFrames(frames, channels)|
    ensures I16(EncodeFrames(frames, channels), 2 * (i * channels)) == frames[i][0]
  {
    var payload := EncodeFrames(frames, channels);
    var head := EncodeFrame(frames[0]);
    assert payload == head + EncodeFrames(frames[1..], channels);
    if i == 0 {
      assert head[..2] == EncodeSample(frames[0][0]);
      assert payload[..2] == head[..2];
    } else {
      var rest := EncodeFrames(frames[1..], channels);
      EncodedFrameStart(frames[1..], channels, i - 1);
      var k := 2 * ((i - 1) * channels);
      assert 2 * (i * channels) == |head| + k;
      assert payload[|head| + k] == rest[k] && payload[|head| + k + 1] == rest[k + 1];
    }
  }

  /** A canonical 16-bit WAV file holding `frames`. */
  function EncodeWave(channels: nat, sampleRate: nat, frames: seq<seq<int>>): seq<Byte>
    requires 0 < channels < 0x1_0000 && sampleRate < 0x1_0000_0000
    requires WellFormedFrames(frames, channels)
  {
    var payload := EncodeFrames(frames, channels);
    CanonicalHeader(channels, sampleRate, 16, |payload|) + payload
  }

  /** The first sample of every frame, scaled to floats. */
  function FirstChannelOf(frames: seq<seq<int>>, channels: nat): seq<real>
    requires channels > 0 && WellFormedFrames(frames, channels)
  {
    seq(|frames|, i requires 0 <= i < |frames| => frames[i][0] as real / Scale)
  }

  lemma MulDivCancel(n: nat, d: nat)
    requires d > 0
    ensures (d * n) / d == n
  {
    DivisionUnique(d * n, d, n, 0);
  }

  /**
   * Decoding a canonical file gives back the first channel of each frame,
   * whatever the sample rate and whatever the other channels hold.
   */
  lemma DecodeEncodedWave(channels: nat, sampleRate: nat, frames: seq<seq<int>>)
    requires 0 < channels < 0x1_0000 && sampleRate < 0x1_0000_0000
    requires WellFormedFrames(frames, channels) && |frames| > 0
    ensures Decode(EncodeWave(channels, sampleRate, frames)) == Decoded(FirstChannelOf(frames, channels))
  {
    var payload := EncodeFrames(frames, channels);
    var header := CanonicalHeader(channels, sampleRate, 16, |payload|);
    var data := header + payload;
    assert U16(data, ChannelsOffset) == U16(header, ChannelsOffset);
    assert U16(data, BitsPerSampleOffset) == U16(header, BitsPerSampleOffset);
    assert data[HeaderSize..] == payload;
    MulDivCancel(|frames|, 2 * channels);
    assert FrameCount(|payload|, channels) == |frames|;
    forall i | 0 <= i < |frames|
      ensures FirstChannel(payload, channels)[i] == FirstChannelOf(frames, channels)[i]
    {
      EncodedFrameStart(frames, channels, i);
    }
    assert FirstChannel(payload, channels) == FirstChannelOf(frames, channels);
  }

  /** A recording that holds no frame at all is a bare header, and is rejected as invalid. */
  lemma EmptyRecordingIsInvalid(channels: nat, sampleRate: nat)
    requires 0 < channels < 0x1_0000 && sampleRate < 0x1_0000_0000
    ensures Decode(EncodeWave(channels, sampleRate, [])) == Thrown(InvalidFile)
  {
  }
}
