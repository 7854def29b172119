/**
 * The recorder's WAV encoder: a 44-byte RIFF/WAVE header for 16-bit PCM
 * followed by the samples, frame by frame and channel by channel, every
 * multi-byte field little-endian (the "Waveform Audio File Format" chapter of
 * the Multimedia Programming Interface and Data Specifications 1.0).
 * Samples are exact reals; the browser's doubles are not modelled.
 */
module Wav {
  import opened Wrappers

  type byte = x: int | 0 <= x < 256

  /** A decoded recording: one sequence of samples per channel, all of the same length. */
  datatype AudioBuffer = AudioBuffer(data: seq<seq<real>>, sampleRate: nat, length: nat)

  predicate WellFormed(buf: AudioBuffer) {
    |buf.data| >= 1 && buf.sampleRate >= 1 &&
    forall c :: 0 <= c < |buf.data| ==> |buf.data[c]| == buf.length
  }

  /** The duration in seconds. */
  function Duration(buf: AudioBuffer): real
    requires buf.sampleRate >= 1
  {
    buf.length as real / buf.sampleRate as real
  }

  // ---------------------------------------------------------------- little-endian fields

  /** DataView.setUint16(_, v, true): v modulo 2^16, low byte first. */
  function LE16(v: int): (b: seq<byte>)
    ensures |b| == 2
  {
    var u := v % 0x1_0000;
    [u % 256, u / 256]
  }

  /** DataView.setUint32(_, v, true): v modulo 2^32, low byte first. */
  function LE32(v: int): (b: seq<byte>)
    ensures |b| == 4
  {
    var u := v % 0x1_0000_0000;
    var u1 := u / 256;
    var u2 := u1 / 256;
    [u % 256, u1 % 256, u2 % 256, u2 / 256]
  }

  /** DataView.setUint8 of each character code, as writeString does. */
  function Ascii(s: string): (b: seq<byte>)
    ensures |b| == |s|
    ensures forall i :: 0 <= i < |s| ==> b[i] == (s[i] as int) % 256
  {
    seq(|s|, i requires 0 <= i < |s| => (s[i] as int) % 256)
  }

  function ReadU16(b: seq<byte>, k: nat): int
    requires k + 2 <= |b|
  {
    b[k] as int + 256 * b[k + 1] as int
  }

  function ReadU32(b: seq<byte>, k: nat): int
    requires k + 4 <= |b|
  {
    b[k] as int + 256 * b[k + 1] as int + 0x1_0000 * b[k + 2] as int + 0x100_0000 * b[k + 3] as int
  }

  /** DataView.getInt16(_, true): the two's-complement reading of two bytes. */
  function ReadI16(b: seq<byte>, k: nat): int
    requires k + 2 <= |b|
  {
    var u := ReadU16(b, k);
    if u >= 0x8000 then u - 0x1_0000 else u
  }

  lemma LE16RoundTrip(v: int)
    ensures ReadU16(LE16(v), 0) == v % 0x1_0000
    ensures -0x8000 <= v < 0x8000 ==> ReadI16(LE16(v), 0) == v
  {
  }

  lemma LE32RoundTrip(v: int)
    ensures ReadU32(LE32(v), 0) == v % 0x1_0000_0000
  {
    var u := v % 0x1_0000_0000;
    var u1 := u / 256;
    var u2 := u1 / 256;
    assert u == u % 256 + 256 * (u1 % 256) + 0x1_0000 * (u2 % 256) + 0x100_0000 * (u2 / 256);
  }

  // ---------------------------------------------------------------- samples

  /** Math.max(-1, Math.min(1, s)). */
  function Clamp(s: real): (c: real)
    ensures -1.0 <= c <= 1.0
    ensures -1.0 <= s <= 1.0 ==> c == s
  {
    if s > 1.0 then 1.0 else if s < -1.0 then -1.0 else s
  }

  /** Conversion of a number to an integer as setInt16 does it: toward zero. */
  function Trunc(r: real): (t: int)
    ensures r >= 0.0 ==> t as real <= r < t as real + 1.0
    ensures r < 0.0 ==> t as real - 1.0 < r <= t as real
  {
    if r >= 0.0 then r.Floor else -((-r).Floor)
  }

  /** The 16-bit value written for a sample: clamped, scaled by 0x8000 below zero and 0x7FFF otherwise. */
  function SampleValue(s: real): int {
    var c := Clamp(s);
    Trunc(if c < 0.0 then c * 32768.0 else c * 32767.0)
  }

  /** Every written sample is a valid 16-bit signed value, and the sign is kept. */
  lemma {:induction false} SampleInRange(s: real)
    ensures -0x8000 <= SampleValue(s) <= 0x7FFF
    ensures s >= 0.0 ==> SampleValue(s) >= 0
    ensures s <= 0.0 ==> SampleValue(s) <= 0
    ensures s >= 1.0 ==> SampleValue(s) == 0x7FFF
    ensures s <= -1.0 ==> SampleValue(s) == -0x8000
  {
    var c := Clamp(s);
    if c < 0.0 {
      assert -32768.0 <= c * 32768.0 < 0.0;
    } else {
      assert 0.0 <= c * 32767.0 <= 32767.0;
    }
  }

  /** The bytes of frame i, channels 0 to ch - 1. */
  function FrameBytes(buf: AudioBuffer, i: nat, ch: nat): (b: seq<byte>)
    requires WellFormed(buf) && i < buf.length && ch <= |buf.data|
    ensures |b| == 2 * ch
  {
    if ch == 0 then []
    else FrameBytes(buf, i, ch - 1) + LE16(SampleValue(buf.data[ch - 1][i]))
  }

  /** The bytes of frames 0 to i - 1. */
  function SampleBytes(buf: AudioBuffer, i: nat): (b: seq<byte>)
    requires WellFormed(buf) && i <= buf.length
  {
    if i == 0 then []
    else SampleBytes(buf, i - 1) + FrameBytes(buf, i - 1, |buf.data|)
  }

  lemma {:induction false} SampleBytesLength(buf: AudioBuffer, i: nat)
    requires WellFormed(buf) && i <= buf.length
    ensures |SampleBytes(buf, i)| == i * |buf.data| * 2
  {
    if i > 0 {
      SampleBytesLength(buf, i - 1);
      FrameStep(i - 1, |buf.data|);
    }
  }

  lemma FrameStep(i: int, c: int)
    ensures (i + 1) * c * 2 == i * c * 2 + 2 * c
  {
  }

  /** The total file size: the header and two bytes per sample. */
  function FileSize(buf: AudioBuffer): int {
    buf.length * |buf.data| * 2 + 44
  }

  // ---------------------------------------------------------------- the file

  /** The header fields in file order. */
  function Header(channels: nat, sampleRate: nat, size: int): (h: seq<byte>)
    ensures |h| == 44
  {
    Ascii("RIFF") + LE32(size - 8) + Ascii("WAVE") + Ascii("fmt ") + LE32(16) + LE16(1) +
    LE16(channels) + LE32(sampleRate) + LE32(sampleRate * channels * 2) + LE16(channels * 2) +
    LE16(16) + Ascii("data") + LE32(size - 44)
  }

  /** The whole file audioBufferToWavBlob produces. */
  function WavBytes(buf: AudioBuffer): seq<byte>
    requires WellFormed(buf)
  {
    Header(|buf.data|, buf.sampleRate, FileSize(buf)) + SampleBytes(buf, buf.length)
  }

  /** The header as a reader sees it. */
  datatype WavHeader = WavHeader(riffSize: int, formatTag: int, channels: int, sampleRate: int,
                                 byteRate: int, blockAlign: int, bitsPerSample: int, dataSize: int)

  /** Reads a canonical 44-byte PCM header: the four tags and a 16-byte fmt chunk. */
  function ParseHeader(b: seq<byte>): (r: Option<WavHeader>)
    ensures r.Some? ==> |b| >= 44
  {
    if |b| < 44 || b[0..4] != Ascii("RIFF") || b[8..12] != Ascii("WAVE") || b[12..16] != Ascii("fmt ") ||
       ReadU32(b, 16) != 16 || b[36..40] != Ascii("data")
    then None
    else Some(WavHeader(ReadU32(b, 4), ReadU16(b, 20), ReadU16(b, 22), ReadU32(b, 24),
                        ReadU32(b, 28), ReadU16(b, 32), ReadU16(b, 34), ReadU32(b, 40)))
  }

  /**
   * The header reads back as PCM (format 1), 16 bits per sample, with the
   * given channel count and rate, byte rate = rate * channels * 2, block
   * align = channels * 2, RIFF size = size - 8 and data size = size - 44,
   * whenever these fit their fields.
   */
  lemma {:induction false} HeaderRoundTrip(channels: nat, sampleRate: nat, size: int, rest: seq<byte>)
    requires channels * 2 < 0x1_0000 && sampleRate < 0x1_0000_0000 && sampleRate * channels * 2 < 0x1_0000_0000
    requires 44 <= size < 0x1_0000_0000
    ensures ParseHeader(Header(channels, sampleRate, size) + rest) ==
      Some(WavHeader(size - 8, 1, channels, sampleRate, sampleRate * channels * 2, channels * 2, 16, size - 44))
  {
    ParseIgnoresRest(Header(channels, sampleRate, size), rest);
    HeaderParses(channels, sampleRate, size);
  }

  lemma HeaderParses(channels: nat, sampleRate: nat, size: int)
    requires channels * 2 < 0x1_0000 && sampleRate < 0x1_0000_0000 && sampleRate * channels * 2 < 0x1_0000_0000
    requires 44 <= size < 0x1_0000_0000
    ensures ParseHeader(Header(channels, sampleRate, size)) ==
      Some(WavHeader(size - 8, 1, channels, sampleRate, sampleRate * channels * 2, channels * 2, 16, size - 44))
  {
    var byteRate := sampleRate * channels * 2;
    assert 0 <= byteRate by {
      assert 0 <= sampleRate * channels;
    }
    HeaderLayout(channels, sampleRate, size);
    ParseFields(Header(channels, sampleRate, size), size - 8, channels, sampleRate, byteRate, channels * 2, size - 44);
  }

  /** The canonical 44-byte header layout with the given field values. */
  predicate Layout(h: seq<byte>, riffSize: int, channels: int, sampleRate: int, byteRate: int, align: int, dataSize: int) {
    |h| == 44 &&
    h[0..4] == Ascii("RIFF") && h[4..8] == LE32(riffSize) && h[8..12] == Ascii("WAVE") &&
    h[12..16] == Ascii("fmt ") && h[16..20] == LE32(16) && h[20..22] == LE16(1) &&
    h[22..24] == LE16(channels) && h[24..28] == LE32(sampleRate) && h[28..32] == LE32(byteRate) &&
    h[32..34] == LE16(align) && h[34..36] == LE16(16) && h[36..40] == Ascii("data") && h[40..44] == LE32(dataSize)
  }

  /** A 44-byte header whose fields hold values that fit them reads back as those values. */
  lemma ParseFields(h: seq<byte>, riffSize: int, channels: int, sampleRate: int, byteRate: int, align: int, dataSize: int)
    requires Layout(h, riffSize, channels, sampleRate, byteRate, align, dataSize)
    requires 0 <= channels < 0x1_0000 && 0 <= align < 0x1_0000
    requires 0 <= riffSize < 0x1_0000_0000 && 0 <= sampleRate < 0x1_0000_0000
    requires 0 <= byteRate < 0x1_0000_0000 && 0 <= dataSize < 0x1_0000_0000
    ensures ParseHeader(h) == Some(WavHeader(riffSize, 1, channels, sampleRate, byteRate, align, 16, dataSize))
  {
    ReadU32Of(h, 4, riffSize);
    ReadU32Of(h, 16, 16);
    ReadU16Of(h, 20, 1);
    ReadU16Of(h, 22, channels);
    ReadU32Of(h, 24, sampleRate);
    ReadU32Of(h, 28, byteRate);
    ReadU16Of(h, 32, align);
    ReadU16Of(h, 34, 16);
    ReadU32Of(h, 40, dataSize);
  }

  /** Where each field of the header lies. */
  lemma HeaderLayout(channels: nat, sampleRate: nat, size: int)
    ensures Layout(Header(channels, sampleRate, size), size - 8, channels, sampleRate, sampleRate * channels * 2, channels * 2, size - 44)
  {
  }

  /** The header parser looks at the first 44 bytes only. */
  lemma ParseIgnoresRest(h: seq<byte>, rest: seq<byte>)
    requires |h| == 44
    ensures ParseHeader(h + rest) == ParseHeader(h)
  {
    var b := h + rest;
    assert b[..44] == h;
    assert b[0..4] == h[0..4] && b[8..12] == h[8..12] && b[12..16] == h[12..16] && b[36..40] == h[36..40];
  }

  lemma ReadU32Of(b: seq<byte>, k: nat, v: int)
    requires k + 4 <= |b| && b[k..k + 4] == LE32(v)
    requires 0 <= v < 0x1_0000_0000
    ensures ReadU32(b, k) == v
  {
    assert b[k] == b[k..k + 4][0] && b[k + 1] == b[k..k + 4][1] && b[k + 2] == b[k..k + 4][2] && b[k + 3] == b[k..k + 4][3];
    LE32RoundTrip(v);
  }

  lemma ReadU16Of(b: seq<byte>, k: nat, v: int)
    requires k + 2 <= |b| && b[k..k + 2] == LE16(v)
    ensures 0 <= v < 0x1_0000 ==> ReadU16(b, k) == v
    ensures -0x8000 <= v < 0x8000 ==> ReadI16(b, k) == v
  {
    assert b[k] == b[k..k + 2][0] && b[k + 1] == b[k..k + 2][1];
    LE16RoundTrip(v);
  }

  /** The file is the header and two bytes per sample. */
  lemma {:induction false} WavLength(buf: AudioBuffer)
    requires WellFormed(buf)
    ensures |WavBytes(buf)| == FileSize(buf)
  {
    SampleBytesLength(buf, buf.length);
  }

  /** Frame i, channel c sits at byte 44 + 2 * (i * channels + c) and reads back as its 16-bit value. */
  lemma {:induction false} SampleAt(buf: AudioBuffer, i: nat, c: nat)
    requires WellFormed(buf) && i < buf.length && c < |buf.data|
    ensures 44 + 2 * (i * |buf.data| + c) + 2 <= |WavBytes(buf)|
    ensures ReadI16(WavBytes(buf), 44 + 2 * (i * |buf.data| + c)) == SampleValue(buf.data[c][i])
  {
    SampleSlice(buf, i, c);
    SampleInRange(buf.data[c][i]);
    ReadU16Of(WavBytes(buf), 44 + 2 * (i * |buf.data| + c), SampleValue(buf.data[c][i]));
  }

  /** The two bytes of frame i, channel c, in the file. */
  lemma {:induction false} SampleSlice(buf: AudioBuffer, i: nat, c: nat)
    requires WellFormed(buf) && i < buf.length && c < |buf.data|
    ensures var k := 44 + 2 * (i * |buf.data| + c);
      k + 2 <= |WavBytes(buf)| && WavBytes(buf)[k..k + 2] == LE16(SampleValue(buf.data[c][i]))
  {
    var s := SampleBytes(buf, buf.length);
    var p := |SampleBytes(buf, i)| + 2 * c;
    SampleBytesLength(buf, i);
    assert p == 2 * (i * |buf.data| + c);
    DataSlice(buf, i, c);
    assert WavBytes(buf)[44 + p..44 + p + 2] == s[p..p + 2];
  }

  /** The same two bytes within the sample data. */
  lemma {:induction false} DataSlice(buf: AudioBuffer, i: nat, c: nat)
    requires WellFormed(buf) && i < buf.length && c < |buf.data|
    ensures var p := |SampleBytes(buf, i)| + 2 * c;
      p + 2 <= |SampleBytes(buf, buf.length)| &&
      SampleBytes(buf, buf.length)[p..p + 2] == LE16(SampleValue(buf.data[c][i]))
  {
    var f := FrameBytes(buf, i, |buf.data|);
    var t := SampleBytes(buf, i + 1);
    SamplePrefix(buf, i + 1, buf.length);
    FrameSlice(buf, i, c);
    assert t == SampleBytes(buf, i) + f;
    ConcatSlice(SampleBytes(buf, i), f, 2 * c);
    PrefixSlice(t, SampleBytes(buf, buf.length), |SampleBytes(buf, i)| + 2 * c);
  }

  /** Two bytes of the second part of a concatenation, found in the whole. */
  lemma ConcatSlice(x: seq<byte>, y: seq<byte>, a: nat)
    requires a + 2 <= |y|
    ensures (x + y)[|x| + a..|x| + a + 2] == y[a..a + 2]
  {
    assert (x + y)[|x| + a] == y[a] && (x + y)[|x| + a + 1] == y[a + 1];
  }

  /** Two bytes of a prefix are the same two bytes of the whole. */
  lemma PrefixSlice(t: seq<byte>, s: seq<byte>, a: nat)
    requires t <= s && a + 2 <= |t|
    ensures a + 2 <= |s| && s[a..a + 2] == t[a..a + 2]
  {
    assert s[a] == t[a] && s[a + 1] == t[a + 1];
  }

  /** The same two bytes within the frame. */
  lemma {:induction false} FrameSlice(buf: AudioBuffer, i: nat, c: nat)
    requires WellFormed(buf) && i < buf.length && c < |buf.data|
    ensures FrameBytes(buf, i, |buf.data|)[2 * c..2 * c + 2] == LE16(SampleValue(buf.data[c][i]))
  {
    FramePrefix(buf, i, c + 1, |buf.data|);
    assert FrameBytes(buf, i, c + 1)[2 * c..] == LE16(SampleValue(buf.data[c][i]));
  }

  lemma {:induction false} FramePrefix(buf: AudioBuffer, i: nat, ch: nat, ch': nat)
    requires WellFormed(buf) && i < buf.length && ch <= ch' <= |buf.data|
    ensures FrameBytes(buf, i, ch) <= FrameBytes(buf, i, ch')
  {
    if ch < ch' {
      FramePrefix(buf, i, ch, ch' - 1);
    }
  }

  lemma {:induction false} SamplePrefix(buf: AudioBuffer, i: nat, i': nat)
    requires WellFormed(buf) && i <= i' <= buf.length
    ensures SampleBytes(buf, i) <= SampleBytes(buf, i')
  {
    if i < i' {
      SamplePrefix(buf, i, i' - 1);
    }
  }

  // ---------------------------------------------------------------- the encoder

  /** Writes bytes at offset, as writeString and the DataView setters do. */
  method WriteBytes(view: array<byte>, offset: nat, bytes: seq<byte>, ghost written: seq<byte>)
    requires offset + |bytes| <= view.Length && view[..offset] == written
    modifies view
    ensures view[..offset + |bytes|] == written + bytes
  {
    for i := 0 to |bytes|
      invariant view[..offset + i] == written + bytes[..i]
    {
      view[offset + i] := bytes[i];
      assert view[..offset + i + 1] == view[..offset + i] + [bytes[i]];
      assert bytes[..i + 1] == bytes[..i] + [bytes[i]];
    }
  }

  /** audioBufferToWavBlob: the header, then the samples frame by frame. */
  method EncodeWav(buf: AudioBuffer) returns (view: array<byte>)
    requires WellFormed(buf)
    ensures view[..] == WavBytes(buf)
    ensures view.Length == FileSize(buf)
  {
    var numChannels := |buf.data|;
    var length := buf.length * numChannels * 2 + 44;
    view := new byte[length];
    WriteHeader(view, numChannels, buf.sampleRate, length);
    WriteSamples(view, buf, Header(numChannels, buf.sampleRate, length));
  }

  /** The sample loop: frame i goes right after frames 0 to i - 1. */
  method WriteSamples(view: array<byte>, buf: AudioBuffer, ghost header: seq<byte>)
    requires WellFormed(buf) && view.Length == FileSize(buf) && view[..44] == header
    modifies view
    ensures view[..] == header + SampleBytes(buf, buf.length)
  {
    SampleBytesLength(buf, buf.length);
    var offset := 44;
    for i := 0 to buf.length
      invariant offset == 44 + |SampleBytes(buf, i)| <= view.Length
      invariant view[..offset] == header + SampleBytes(buf, i)
    {
      SampleBytesStep(buf, i, header);
      WriteFrame(view, buf, i, offset, header + SampleBytes(buf, i));
      offset := offset + 2 * |buf.data|;
    }
    assert view[..] == view[..offset];
  }

  /** Frame i extends the bytes written so far, and there is room for it in the file. */
  lemma {:induction false} SampleBytesStep(buf: AudioBuffer, i: nat, header: seq<byte>)
    requires WellFormed(buf) && i < buf.length
    ensures header + SampleBytes(buf, i) + FrameBytes(buf, i, |buf.data|) == header + SampleBytes(buf, i + 1)
    ensures |SampleBytes(buf, i + 1)| <= |SampleBytes(buf, buf.length)|
  {
    SamplePrefix(buf, i + 1, buf.length);
    assert SampleBytes(buf, i + 1) == SampleBytes(buf, i) + FrameBytes(buf, i, |buf.data|);
  }

  /** The 44 header bytes, through an advancing offset: the RIFF descriptor, the fmt chunk, the data chunk's head. */
  method WriteHeader(view: array<byte>, numChannels: nat, sampleRate: nat, length: int)
    requires view.Length >= 44
    modifies view
    ensures view[..44] == Header(numChannels, sampleRate, length)
  {
    WriteRiffDescriptor(view, length);
    ghost var written := Ascii("RIFF") + LE32(length - 8) + Ascii("WAVE");
    WriteFormatChunk(view, 12, numChannels, sampleRate, written);
    written := written + Ascii("fmt ") + LE32(16) + LE16(1) + LE16(numChannels) +
      LE32(sampleRate) + LE32(sampleRate * numChannels * 2) + LE16(numChannels * 2) + LE16(16);
    WriteDataHead(view, 36, length, written);
  }

  /** The 12-byte RIFF descriptor: the tag, the file size less 8, the WAVE tag. */
  method WriteRiffDescriptor(view: array<byte>, length: int)
    requires view.Length >= 12
    modifies view
    ensures view[..12] == Ascii("RIFF") + LE32(length - 8) + Ascii("WAVE")
  {
    WriteBytes(view, 0, Ascii("RIFF"), []);
    WriteBytes(view, 4, LE32(length - 8), Ascii("RIFF"));
    WriteBytes(view, 8, Ascii("WAVE"), Ascii("RIFF") + LE32(length - 8));
  }

  /** The 8-byte head of the data chunk: the tag and the data size. */
  method WriteDataHead(view: array<byte>, offset: nat, length: int, ghost written: seq<byte>)
    requires offset + 8 <= view.Length && view[..offset] == written
    modifies view
    ensures view[..offset + 8] == written + Ascii("data") + LE32(length - 44)
  {
    WriteBytes(view, offset, Ascii("data"), written);
    WriteBytes(view, offset + 4, LE32(length - 44), written + Ascii("data"));
  }

  /** The 24-byte fmt chunk: PCM, the channel count, the rates, the block align and 16 bits per sample. */
  method WriteFormatChunk(view: array<byte>, offset: nat, numChannels: nat, sampleRate: nat, ghost written: seq<byte>)
    requires offset + 24 <= view.Length && view[..offset] == written
    modifies view
    ensures view[..offset + 24] == written + Ascii("fmt ") + LE32(16) + LE16(1) + LE16(numChannels) +
      LE32(sampleRate) + LE32(sampleRate * numChannels * 2) + LE16(numChannels * 2) + LE16(16)
  {
    WriteFormatHead(view, offset, numChannels, written);
    WriteFormatRates(view, offset + 12, numChannels, sampleRate,
                     written + Ascii("fmt ") + LE32(16) + LE16(1) + LE16(numChannels));
  }

  /** The first 12 bytes of the fmt chunk: its tag, its size, the PCM format and the channel count. */
  method WriteFormatHead(view: array<byte>, offset: nat, numChannels: nat, ghost written: seq<byte>)
    requires offset + 12 <= view.Length && view[..offset] == written
    modifies view
    ensures view[..offset + 12] == written + Ascii("fmt ") + LE32(16) + LE16(1) + LE16(numChannels)
  {
    WriteBytes(view, offset, Ascii("fmt "), written);
    WriteBytes(view, offset + 4, LE32(16), written + Ascii("fmt "));
    WriteBytes(view, offset + 8, LE16(1), written + Ascii("fmt ") + LE32(16));
    WriteBytes(view, offset + 10, LE16(numChannels), written + Ascii("fmt ") + LE32(16) + LE16(1));
  }

  /** The last 12 bytes of the fmt chunk: the sample rate, the byte rate, the block align and the sample width. */
  method WriteFormatRates(view: array<byte>, offset: nat, numChannels: nat, sampleRate: nat, ghost written: seq<byte>)
    requires offset + 12 <= view.Length && view[..offset] == written
    modifies view
    ensures view[..offset + 12] == written + LE32(sampleRate) + LE32(sampleRate * numChannels * 2) +
      LE16(numChannels * 2) + LE16(16)
  {
    var byteRate := sampleRate * numChannels * 2;
    WriteBytes(view, offset, LE32(sampleRate), written);
    WriteBytes(view, offset + 4, LE32(byteRate), written + LE32(sampleRate));
    WriteBytes(view, offset + 8, LE16(numChannels * 2), written + LE32(sampleRate) + LE32(byteRate));
    WriteBytes(view, offset + 10, LE16(16), written + LE32(sampleRate) + LE32(byteRate) + LE16(numChannels * 2));
  }

  /** Channel ch's two bytes extend the frame written so far. */
  lemma FrameBytesStep(buf: AudioBuffer, i: nat, ch: nat, prefix: seq<byte>)
    requires WellFormed(buf) && i < buf.length && ch < |buf.data|
    ensures prefix + FrameBytes(buf, i, ch) + LE16(SampleValue(buf.data[ch][i])) == prefix + FrameBytes(buf, i, ch + 1)
  {
    assert FrameBytes(buf, i, ch + 1) == FrameBytes(buf, i, ch) + LE16(SampleValue(buf.data[ch][i]));
  }

  /** One frame: every channel's sample, clamped, scaled and written as a signed 16-bit value. */
  method WriteFrame(view: array<byte>, buf: AudioBuffer, i: nat, offset: nat, ghost prefix: seq<byte>)
    requires WellFormed(buf) && i < buf.length
    requires offset + 2 * |buf.data| <= view.Length && view[..offset] == prefix
    modifies view
    ensures view[..offset + 2 * |buf.data|] == prefix + FrameBytes(buf, i, |buf.data|)
  {
    var at := offset;
    for ch := 0 to |buf.data|
      invariant at == offset + 2 * ch
      invariant view[..at] == prefix + FrameBytes(buf, i, ch)
    {
      var sample := buf.data[ch][i];
      sample := Clamp(sample);
      var value := Trunc(if sample < 0.0 then sample * 32768.0 else sample * 32767.0);
      assert value == SampleValue(buf.data[ch][i]);
      WriteBytes(view, at, LE16(value), prefix + FrameBytes(buf, i, ch));
      FrameBytesStep(buf, i, ch, prefix);
      at := at + 2;
    }
  }
}
