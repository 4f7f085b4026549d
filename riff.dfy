/** The RIFF/WAVE writer of the keysound generator (keysound-gen/src/riff.rs): a
    44-byte header of little-endian fields followed by 16-bit PCM samples, frame by
    frame and channel by channel. Arithmetic overflow is taken as a debug build
    treats it: a panic, so the sizes that would overflow are preconditions. */
module Riff {
  import Seqs

  newtype byte = x: int | 0 <= x < 0x100
  newtype i16 = x: int | -0x8000 <= x < 0x8000

  const U16_LIMIT: nat := 0x1_0000
  const U32_LIMIT: nat := 0x1_0000_0000

  /** The header bytes before the samples, counted by the source as 44. */
  const NON_DATA_SIZE: nat := 44
  /** `WAVE_FORMAT_PCM`. */
  const PCM: nat := 1
  const BITS_PER_SAMPLE: nat := 16

  /** 256^n. */
  function Pow256(n: nat): (r: nat)
    ensures r >= 1
  {
    if n == 0 then 1 else 0x100 * Pow256(n - 1)
  }

  /** `to_le_bytes` of an n-byte unsigned value: least significant byte first. */
  function LE(x: nat, n: nat): (bs: seq<byte>)
    requires x < Pow256(n)
    ensures |bs| == n
  {
    if n == 0 then [] else [(x % 0x100) as byte] + LE(x / 0x100, n - 1)
  }

  /** Reads little-endian bytes back as an unsigned value. */
  function FromLE(bs: seq<byte>): nat {
    if bs == [] then 0 else bs[0] as nat + 0x100 * FromLE(bs[1..])
  }

  lemma {:induction false} LERoundTrip(x: nat, n: nat)
    requires x < Pow256(n)
    ensures FromLE(LE(x, n)) == x
  {
    if n > 0 {
      LERoundTrip(x / 0x100, n - 1);
      assert LE(x, n)[1..] == LE(x / 0x100, n - 1);
    }
  }

  /** `i16::to_le_bytes`: two's complement in two bytes. */
  function I16Bytes(v: i16): (bs: seq<byte>)
    ensures |bs| == 2
  {
    LE(if v < 0 then v as int + U16_LIMIT else v as int, 2)
  }

  /** Reads two bytes back as a two's complement 16-bit value. */
  function FromI16Bytes(bs: seq<byte>): int
    requires |bs| == 2
  {
    var u := FromLE(bs);
    if u >= 0x8000 then u - U16_LIMIT else u
  }

  /** Every sample reads back from its two bytes. */
  lemma I16RoundTrip(v: i16)
    ensures FromI16Bytes(I16Bytes(v)) == v as int
  {
    LERoundTrip(if v < 0 then v as int + U16_LIMIT else v as int, 2);
  }

  /** The ASCII bytes of a four-character tag. */
  function Tag(s: string): (bs: seq<byte>)
    requires forall i :: 0 <= i < |s| ==> s[i] as int < 0x80
    ensures |bs| == |s|
    ensures forall i :: 0 <= i < |s| ==> bs[i] as int == s[i] as int
  {
    seq(|s|, i requires 0 <= i < |s| => s[i] as int as byte)
  }


  /** `CHANNELS as u16 * bits_per_sample / 8` does not overflow `u16`. */
  predicate ChannelsFit(channels: nat) {
    (channels % U16_LIMIT) * BITS_PER_SAMPLE < U16_LIMIT
  }

  /** `block_align`: the bytes of one frame. */
  function BlockAlign(channels: nat): (a: nat)
    requires ChannelsFit(channels)
    ensures a < U16_LIMIT
    ensures channels < U16_LIMIT ==> a == 2 * channels
  {
    (channels % U16_LIMIT) * BITS_PER_SAMPLE / 8
  }

  /** `samples_bytes`: the byte count of the samples, cast to `u32`. */
  function SamplesBytes(channels: nat, frames: nat): (n: nat)
    requires ChannelsFit(channels)
    ensures n < U32_LIMIT
  {
    (frames * BlockAlign(channels)) % U32_LIMIT
  }

  /** No arithmetic of the header overflows. */
  predicate HeaderFits(channels: nat, sampleRate: nat, frames: nat) {
    ChannelsFit(channels) && sampleRate < U32_LIMIT &&
    sampleRate * BlockAlign(channels) < U32_LIMIT &&
    SamplesBytes(channels, frames) + NON_DATA_SIZE < U32_LIMIT
  }

  /** The values of the header's numeric fields, in file order. */
  datatype Fields = Fields(riffSize: nat, channels: nat, sampleRate: nat, byteRate: nat, blockAlign: nat, dataSize: nat)

  /** Every field fits its width: four bytes, or two for the channel count and block alignment. */
  predicate FieldsFit(f: Fields) {
    f.riffSize < U32_LIMIT && f.channels < U16_LIMIT && f.sampleRate < U32_LIMIT &&
    f.byteRate < U32_LIMIT && f.blockAlign < U16_LIMIT && f.dataSize < U32_LIMIT
  }

  /** The field values `write_riff` computes. */
  function Written(channels: nat, sampleRate: nat, frames: nat): (f: Fields)
    requires HeaderFits(channels, sampleRate, frames)
    ensures FieldsFit(f)
  {
    var align := BlockAlign(channels);
    var size := SamplesBytes(channels, frames);
    Fields(size + NON_DATA_SIZE, channels % U16_LIMIT, sampleRate, sampleRate * align, align, size)
  }

  /** The RIFF chunk's tag, size field and form type. */
  function RiffPart(f: Fields): (bs: seq<byte>)
    requires FieldsFit(f)
    ensures |bs| == 12
  {
    Tag("RIFF") + LE(f.riffSize, 4) + Tag("WAVE")
  }

  /** The `fmt ` subchunk up to the channel count. */
  function FmtFront(f: Fields): (bs: seq<byte>)
    requires FieldsFit(f)
    ensures |bs| == 12
  {
    Tag("fmt ") + LE(16, 4) + LE(PCM, 2) + LE(f.channels, 2)
  }

  /** The rest of the `fmt ` subchunk: rate, byte rate, block alignment, bits per sample. */
  function FmtBack(f: Fields): (bs: seq<byte>)
    requires FieldsFit(f)
    ensures |bs| == 12
  {
    LE(f.sampleRate, 4) + LE(f.byteRate, 4) + LE(f.blockAlign, 2) + LE(BITS_PER_SAMPLE, 2)
  }

  /** The `data` subchunk's tag and size field. */
  function DataPart(f: Fields): (bs: seq<byte>)
    requires FieldsFit(f)
    ensures |bs| == 8
  {
    Tag("data") + LE(f.dataSize, 4)
  }

  /** The 44 header bytes holding the given field values. */
  function HeaderOf(f: Fields): (h: seq<byte>)
    requires FieldsFit(f)
    ensures |h| == NON_DATA_SIZE
  {
    RiffPart(f) + FmtFront(f) + FmtBack(f) + DataPart(f)
  }

  /** The header `write_riff` writes. */
  function Header(channels: nat, sampleRate: nat, frames: nat): (h: seq<byte>)
    requires HeaderFits(channels, sampleRate, frames)
    ensures |h| == NON_DATA_SIZE
  {
    HeaderOf(Written(channels, sampleRate, frames))
  }

  /** The samples of one frame, channel by channel. */
  function FrameBytes(frame: seq<i16>): (bs: seq<byte>)
    ensures |bs| == 2 * |frame|
  {
    if frame == [] then [] else FrameBytes(frame[..|frame| - 1]) + I16Bytes(frame[|frame| - 1])
  }

  /** The samples of all frames, frame by frame. */
  function SampleBytes(samples: seq<seq<i16>>): seq<byte> {
    if samples == [] then [] else SampleBytes(samples[..|samples| - 1]) + FrameBytes(samples[|samples| - 1])
  }

  /** Every frame has one sample per channel (the source's `[i16; CHANNELS]`). */
  predicate Frames(samples: seq<seq<i16>>, channels: nat) {
    forall k :: 0 <= k < |samples| ==> |samples[k]| == channels
  }

  /** The whole file `write_riff` produces. */
  function RiffBytes(channels: nat, sampleRate: nat, samples: seq<seq<i16>>): seq<byte>
    requires HeaderFits(channels, sampleRate, |samples|)
  {
    Header(channels, sampleRate, |samples|) + SampleBytes(samples)
  }

  /** `write_riff`: the header fields in order, then every sample of every frame. */
  method WriteRiff(channels: nat, sampleRate: nat, samples: seq<seq<i16>>) returns (buf: seq<byte>)
    requires HeaderFits(channels, sampleRate, |samples|) && Frames(samples, channels)
    ensures buf == RiffBytes(channels, sampleRate, samples)
  {
    buf := WriteHeader(channels, sampleRate, |samples|);
    var data := WriteSamples(samples);
    buf := buf + data;
  }

  /** The fixed sequence of header writes. */
  method WriteHeader(channels: nat, sampleRate: nat, frames: nat) returns (buf: seq<byte>)
    requires HeaderFits(channels, sampleRate, frames)
    ensures buf == Header(channels, sampleRate, frames)
  {
    var blockAlign := (channels % U16_LIMIT) * BITS_PER_SAMPLE / 8;
    var bytePerSecond := sampleRate * blockAlign;
    var samplesBytes := (frames * blockAlign) % U32_LIMIT;
    ghost var f := Written(channels, sampleRate, frames);
    assert f == Fields(samplesBytes + NON_DATA_SIZE, channels % U16_LIMIT, sampleRate, bytePerSecond, blockAlign, samplesBytes);

    buf := Tag("RIFF");
    buf := buf + LE(samplesBytes + NON_DATA_SIZE, 4);
    buf := buf + Tag("WAVE");
    assert buf == RiffPart(f);
    ghost var riff := buf;

    buf := buf + Tag("fmt ");
    buf := buf + LE(16, 4);
    buf := buf + LE(PCM, 2);
    buf := buf + LE(channels % U16_LIMIT, 2);
    assert buf == riff + FmtFront(f);
    ghost var front := buf;
    buf := buf + LE(sampleRate, 4);
    buf := buf + LE(bytePerSecond, 4);
    buf := buf + LE(blockAlign, 2);
    buf := buf + LE(BITS_PER_SAMPLE, 2);
    assert buf == front + FmtBack(f);
    ghost var fmt := buf;

    buf := buf + Tag("data");
    buf := buf + LE(samplesBytes, 4);
    assert buf == fmt + DataPart(f);
  }

  /** The nested sample loop: frame by frame, channel by channel. */
  method WriteSamples(samples: seq<seq<i16>>) returns (buf: seq<byte>)
    ensures buf == SampleBytes(samples)
  {
    buf := [];
    var k := 0;
    while k < |samples|
      invariant k <= |samples|
      invariant buf == SampleBytes(samples[..k])
    {
      var frame := samples[k];
      var c := 0;
      while c < |frame|
        invariant c <= |frame|
        invariant buf == SampleBytes(samples[..k]) + FrameBytes(frame[..c])
      {
        buf := buf + I16Bytes(frame[c]);
        assert frame[..c + 1][..c] == frame[..c];
        c := c + 1;
      }
      assert frame[..c] == frame;
      assert samples[..k + 1][..k] == samples[..k];
      k := k + 1;
    }
    assert samples[..k] == samples;
  }

  /** The samples take two bytes per channel per frame. */
  lemma {:induction false} SampleBytesLength(samples: seq<seq<i16>>, channels: nat)
    requires Frames(samples, channels)
    ensures |SampleBytes(samples)| == 2 * (|samples| * channels)
  {
    if samples != [] {
      var n := |samples| - 1;
      SampleBytesLength(samples[..n], channels);
      assert |samples| * channels == n * channels + channels;
    }
  }

  /** The header fields sit at their fixed offsets and read back as the values
      given: the four tags, the RIFF size, and the `fmt ` and `data` fields. */
  lemma HeaderLayout(f: Fields)
    requires FieldsFit(f)
    ensures var h := HeaderOf(f);
      h[0..4] == Tag("RIFF") && h[8..12] == Tag("WAVE") && h[12..16] == Tag("fmt ") && h[36..40] == Tag("data") &&
      FromLE(h[4..8]) == f.riffSize &&
      FromLE(h[16..20]) == 16 && FromLE(h[20..22]) == PCM && FromLE(h[22..24]) == f.channels &&
      FromLE(h[24..28]) == f.sampleRate && FromLE(h[28..32]) == f.byteRate &&
      FromLE(h[32..34]) == f.blockAlign && FromLE(h[34..36]) == BITS_PER_SAMPLE &&
      FromLE(h[40..44]) == f.dataSize
  {
    HeaderRiff(f);
    HeaderFront(f);
    HeaderBack(f);
    HeaderData(f);
  }

  lemma HeaderRiff(f: Fields)
    requires FieldsFit(f)
    ensures var h := HeaderOf(f);
      h[0..4] == Tag("RIFF") && FromLE(h[4..8]) == f.riffSize && h[8..12] == Tag("WAVE")
  {
    var h := HeaderOf(f);
    Slices4(RiffPart(f), FmtFront(f), FmtBack(f), DataPart(f));
    RiffFields(f);
    SliceOfSlice(h, 0, 12, 0, 4);
    SliceOfSlice(h, 0, 12, 4, 8);
    SliceOfSlice(h, 0, 12, 8, 12);
  }

  lemma HeaderFront(f: Fields)
    requires FieldsFit(f)
    ensures var h := HeaderOf(f);
      h[12..16] == Tag("fmt ") && FromLE(h[16..20]) == 16 && FromLE(h[20..22]) == PCM && FromLE(h[22..24]) == f.channels
  {
    var h := HeaderOf(f);
    Slices4(RiffPart(f), FmtFront(f), FmtBack(f), DataPart(f));
    FrontFields(f);
    SliceOfSlice(h, 12, 24, 0, 4);
    SliceOfSlice(h, 12, 24, 4, 8);
    SliceOfSlice(h, 12, 24, 8, 10);
    SliceOfSlice(h, 12, 24, 10, 12);
  }

  lemma HeaderBack(f: Fields)
    requires FieldsFit(f)
    ensures var h := HeaderOf(f);
      FromLE(h[24..28]) == f.sampleRate && FromLE(h[28..32]) == f.byteRate &&
      FromLE(h[32..34]) == f.blockAlign && FromLE(h[34..36]) == BITS_PER_SAMPLE
  {
    var h := HeaderOf(f);
    Slices4(RiffPart(f), FmtFront(f), FmtBack(f), DataPart(f));
    BackFields(f);
    SliceOfSlice(h, 24, 36, 0, 4);
    SliceOfSlice(h, 24, 36, 4, 8);
    SliceOfSlice(h, 24, 36, 8, 10);
    SliceOfSlice(h, 24, 36, 10, 12);
  }

  lemma HeaderData(f: Fields)
    requires FieldsFit(f)
    ensures var h := HeaderOf(f); h[36..40] == Tag("data") && FromLE(h[40..44]) == f.dataSize
  {
    var h := HeaderOf(f);
    Slices4(RiffPart(f), FmtFront(f), FmtBack(f), DataPart(f));
    DataFields(f);
    SliceOfSlice(h, 36, 44, 0, 4);
    SliceOfSlice(h, 36, 44, 4, 8);
  }

  lemma SliceOfSlice(s: seq<byte>, i: nat, j: nat, a: nat, b: nat)
    requires i <= j <= |s| && a <= b <= j - i
    ensures s[i..j][a..b] == s[i + a..i + b]
  {
    assert forall k :: 0 <= k < b - a ==> s[i..j][a..b][k] == s[i + a + k];
  }

  /** The four pieces of a concatenation are its slices at the running lengths. */
  lemma Slices4(a: seq<byte>, b: seq<byte>, c: seq<byte>, d: seq<byte>)
    ensures var s := a + b + c + d;
      s[0..|a|] == a && s[|a|..|a| + |b|] == b &&
      s[|a| + |b|..|a| + |b| + |c|] == c && s[|a| + |b| + |c|..|s|] == d
  {
    var s := a + b + c + d;
    assert s[0..|a|] == a;
    assert s[|a|..|a| + |b|] == b;
    assert s[|a| + |b|..|a| + |b| + |c|] == c;
    assert s[|a| + |b| + |c|..|s|] == d;
  }

  lemma RiffFields(f: Fields)
    requires FieldsFit(f)
    ensures var p := RiffPart(f); p[0..4] == Tag("RIFF") && FromLE(p[4..8]) == f.riffSize && p[8..12] == Tag("WAVE")
  {
    var a, b, c := Tag("RIFF"), LE(f.riffSize, 4), Tag("WAVE");
    assert a + b + c == a + b + c + [];
    Slices4(a, b, c, []);
    LERoundTrip(f.riffSize, 4);
  }

  lemma FrontFields(f: Fields)
    requires FieldsFit(f)
    ensures var p := FmtFront(f);
      p[0..4] == Tag("fmt ") && FromLE(p[4..8]) == 16 && FromLE(p[8..10]) == PCM && FromLE(p[10..12]) == f.channels
  {
    Slices4(Tag("fmt "), LE(16, 4), LE(PCM, 2), LE(f.channels, 2));
    LERoundTrip(16, 4);
    LERoundTrip(PCM, 2);
    LERoundTrip(f.channels, 2);
  }

  lemma BackFields(f: Fields)
    requires FieldsFit(f)
    ensures var p := FmtBack(f);
      FromLE(p[0..4]) == f.sampleRate && FromLE(p[4..8]) == f.byteRate &&
      FromLE(p[8..10]) == f.blockAlign && FromLE(p[10..12]) == BITS_PER_SAMPLE
  {
    Slices4(LE(f.sampleRate, 4), LE(f.byteRate, 4), LE(f.blockAlign, 2), LE(BITS_PER_SAMPLE, 2));
    LERoundTrip(f.sampleRate, 4);
    LERoundTrip(f.byteRate, 4);
    LERoundTrip(f.blockAlign, 2);
    LERoundTrip(BITS_PER_SAMPLE, 2);
  }

  lemma DataFields(f: Fields)
    requires FieldsFit(f)
    ensures var p := DataPart(f); p[0..4] == Tag("data") && FromLE(p[4..8]) == f.dataSize
  {
    var a, b := Tag("data"), LE(f.dataSize, 4);
    assert a + b == a + b + [] + [];
    Slices4(a, b, [], []);
    LERoundTrip(f.dataSize, 4);
  }

  lemma MulMono(a: nat, b: nat, c: nat)
    requires a <= b
    ensures a * c <= b * c
  {
    assert b * c == a * c + (b - a) * c;
  }

  /** Channel c of a frame sits at bytes 2c and 2c + 1 of the frame. */
  lemma {:induction false} FrameBytesAt(frame: seq<i16>, c: nat)
    requires c < |frame|
    ensures FrameBytes(frame)[2 * c..2 * c + 2] == I16Bytes(frame[c])
  {
    var n := |frame| - 1;
    if c < n {
      FrameBytesAt(frame[..n], c);
      Seqs.PrefixSlice(FrameBytes(frame[..n]), I16Bytes(frame[n]), 2 * c, 2 * c + 2);
    } else {
      Seqs.SuffixSlice(FrameBytes(frame[..n]), I16Bytes(frame[n]), 0, 2);
    }
  }

  /** The offset of an earlier frame's channel lies within the earlier frames. */
  lemma OffsetBefore(k: nat, n: nat, channels: nat, c: nat)
    requires k < n && c < channels
    ensures k * channels + c + 1 <= n * channels
  {
    MulMono(k + 1, n, channels);
    assert (k + 1) * channels == k * channels + channels;
  }

  /** The byte offset of channel c of frame k within the samples: two bytes per sample, frame after frame. */
  function SampleOffset(channels: nat, k: nat, c: nat): nat {
    2 * (k * channels + c)
  }

  /** Channel c of frame k sits at byte 2(k·channels + c) of the samples. */
  lemma {:induction false} SampleBytesAt(samples: seq<seq<i16>>, channels: nat, k: nat, c: nat)
    requires Frames(samples, channels) && k < |samples| && c < channels
    ensures var at := SampleOffset(channels, k, c);
      at + 2 <= |SampleBytes(samples)| && SampleBytes(samples)[at..at + 2] == I16Bytes(samples[k][c])
  {
    var n := |samples| - 1;
    var front := samples[..n];
    assert SampleBytes(samples) == SampleBytes(front) + FrameBytes(samples[n]);
    assert Frames(front, channels);
    SampleBytesLength(front, channels);
    var at := SampleOffset(channels, k, c);
    if k < n {
      OffsetBefore(k, n, channels, c);
      SampleBytesAt(front, channels, k, c);
      Seqs.PrefixSlice(SampleBytes(front), FrameBytes(samples[n]), at, at + 2);
    } else {
      assert at == |SampleBytes(front)| + 2 * c;
      FrameBytesAt(samples[n], c);
      Seqs.SuffixSlice(SampleBytes(front), FrameBytes(samples[n]), 2 * c, 2 * c + 2);
    }
  }

  /** With fewer than 2^16 channels, `samples_bytes` is the sample byte count, cut to 32 bits. */
  lemma DataSize(channels: nat, sampleRate: nat, samples: seq<seq<i16>>)
    requires ChannelsFit(channels) && Frames(samples, channels) && channels < U16_LIMIT
    ensures SamplesBytes(channels, |samples|) == |SampleBytes(samples)| % U32_LIMIT
    ensures |SampleBytes(samples)| < U32_LIMIT ==> SamplesBytes(channels, |samples|) == |SampleBytes(samples)|
  {
    SampleBytesLength(samples, channels);
    var len := |SampleBytes(samples)|;
    DoubleFactor(|samples|, channels);
    assert SamplesBytes(channels, |samples|) == len % U32_LIMIT;
    if len < U32_LIMIT {
      ModSmall(len, U32_LIMIT);
    }
  }

  lemma DoubleFactor(n: nat, c: nat)
    ensures n * (2 * c) == 2 * (n * c)
  {
  }

  lemma ModSmall(x: nat, m: nat)
    requires x < m
    ensures x % m == x
  {
  }

  /** The header fields read back the same from the whole file, whatever follows the header. */
  lemma FileFields(f: Fields, data: seq<byte>)
    requires FieldsFit(f)
    ensures var bytes := HeaderOf(f) + data;
      bytes[0..4] == Tag("RIFF") && bytes[8..12] == Tag("WAVE") && bytes[12..16] == Tag("fmt ") && bytes[36..40] == Tag("data") &&
      FromLE(bytes[4..8]) == f.riffSize &&
      FromLE(bytes[16..20]) == 16 && FromLE(bytes[20..22]) == PCM && FromLE(bytes[22..24]) == f.channels &&
      FromLE(bytes[24..28]) == f.sampleRate && FromLE(bytes[28..32]) == f.byteRate &&
      FromLE(bytes[32..34]) == f.blockAlign && FromLE(bytes[34..36]) == BITS_PER_SAMPLE &&
      FromLE(bytes[40..44]) == f.dataSize
  {
    var h := HeaderOf(f);
    HeaderLayout(f);
    Seqs.PrefixSlice(h, data, 0, 4);
    Seqs.PrefixSlice(h, data, 4, 8);
    Seqs.PrefixSlice(h, data, 8, 12);
    Seqs.PrefixSlice(h, data, 12, 16);
    Seqs.PrefixSlice(h, data, 16, 20);
    Seqs.PrefixSlice(h, data, 20, 22);
    Seqs.PrefixSlice(h, data, 22, 24);
    Seqs.PrefixSlice(h, data, 24, 28);
    Seqs.PrefixSlice(h, data, 28, 32);
    Seqs.PrefixSlice(h, data, 32, 34);
    Seqs.PrefixSlice(h, data, 34, 36);
    Seqs.PrefixSlice(h, data, 36, 40);
    Seqs.PrefixSlice(h, data, 40, 44);
  }

  /** The file is 44 header bytes plus two bytes per channel per frame; its data size
      field gives the sample byte count whenever the file length fits in a `u32`, the
      format fields give the channel count, rate and alignment, and its tags sit at
      offsets 0, 8, 12 and 36. */
  lemma RiffLayout(channels: nat, sampleRate: nat, samples: seq<seq<i16>>)
    requires HeaderFits(channels, sampleRate, |samples|) && Frames(samples, channels) && channels < U16_LIMIT
    ensures var bytes := RiffBytes(channels, sampleRate, samples);
      |bytes| == NON_DATA_SIZE + 2 * (|samples| * channels) &&
      bytes[0..4] == Tag("RIFF") && bytes[8..12] == Tag("WAVE") && bytes[12..16] == Tag("fmt ") && bytes[36..40] == Tag("data") &&
      FromLE(bytes[16..20]) == 16 && FromLE(bytes[20..22]) == PCM &&
      FromLE(bytes[22..24]) == channels && FromLE(bytes[24..28]) == sampleRate &&
      FromLE(bytes[28..32]) == sampleRate * (2 * channels) &&
      FromLE(bytes[32..34]) == 2 * channels && FromLE(bytes[34..36]) == BITS_PER_SAMPLE &&
      (|bytes| < U32_LIMIT ==> FromLE(bytes[40..44]) == |bytes| - NON_DATA_SIZE)
  {
    SampleBytesLength(samples, channels);
    DataSize(channels, sampleRate, samples);
    FileFields(Written(channels, sampleRate, |samples|), SampleBytes(samples));
  }

  /** Channel c of frame k reads back from bytes 44 + 2(k·channels + c) and the next. */
  lemma SampleAt(channels: nat, sampleRate: nat, samples: seq<seq<i16>>, k: nat, c: nat)
    requires HeaderFits(channels, sampleRate, |samples|) && Frames(samples, channels)
    requires k < |samples| && c < channels
    ensures var bytes, at := RiffBytes(channels, sampleRate, samples), NON_DATA_SIZE + SampleOffset(channels, k, c);
      at + 2 <= |bytes| && FromI16Bytes(bytes[at..at + 2]) == samples[k][c] as int
  {
    SampleAfter(Header(channels, sampleRate, |samples|), samples, channels, k, c);
  }

  /** The same, for any 44-byte header in front of the samples. */
  lemma SampleAfter(h: seq<byte>, samples: seq<seq<i16>>, channels: nat, k: nat, c: nat)
    requires |h| == NON_DATA_SIZE && Frames(samples, channels)
    requires k < |samples| && c < channels
    ensures var bytes, at := h + SampleBytes(samples), NON_DATA_SIZE + SampleOffset(channels, k, c);
      at + 2 <= |bytes| && FromI16Bytes(bytes[at..at + 2]) == samples[k][c] as int
  {
    SampleBytesAt(samples, channels, k, c);
    ReadAfterHeader(h, SampleBytes(samples), SampleOffset(channels, k, c), samples[k][c]);
  }

  /** A sample at byte `at` of the data reads back from byte 44 + at of the file. */
  lemma ReadAfterHeader(h: seq<byte>, data: seq<byte>, at: nat, v: i16)
    requires |h| == NON_DATA_SIZE && at + 2 <= |data| && data[at..at + 2] == I16Bytes(v)
    ensures NON_DATA_SIZE + at + 2 <= |h + data| && FromI16Bytes((h + data)[NON_DATA_SIZE + at..NON_DATA_SIZE + at + 2]) == v as int
  {
    Seqs.SuffixSlice(h, data, at, at + 2);
    I16RoundTrip(v);
  }

  /** As written, the RIFF size field holds the whole file's length. */
  lemma RiffSizeAsWritten(channels: nat, sampleRate: nat, samples: seq<seq<i16>>)
    requires HeaderFits(channels, sampleRate, |samples|) && Frames(samples, channels) && channels < U16_LIMIT
    ensures var bytes := RiffBytes(channels, sampleRate, samples);
      |bytes| < U32_LIMIT ==> FromLE(bytes[4..8]) == |bytes|
  {
    DataSize(channels, sampleRate, samples);
    FileFields(Written(channels, sampleRate, |samples|), SampleBytes(samples));
  }

  /** One mono file with no samples: 44 bytes whose RIFF size field reads 44, where
      the RIFF format's rule (the file length less the 8 bytes of tag and size) gives 36. */
  lemma RiffSizeCounterexample()
    ensures var bytes := RiffBytes(1, 44100, []);
      |bytes| == 44 && FromLE(bytes[4..8]) == 44 && FromLE(bytes[4..8]) != |bytes| - 8
  {
    RiffSizeAsWritten(1, 44100, []);
  }

  /** The field values with the RIFF size the format prescribes: the data plus 36. */
  function CorrectedFields(channels: nat, sampleRate: nat, frames: nat): (f: Fields)
    requires HeaderFits(channels, sampleRate, frames)
    ensures FieldsFit(f)
  {
    var w := Written(channels, sampleRate, frames);
    w.(riffSize := w.dataSize + NON_DATA_SIZE - 8)
  }

  function CorrectedRiffBytes(channels: nat, sampleRate: nat, samples: seq<seq<i16>>): seq<byte>
    requires HeaderFits(channels, sampleRate, |samples|)
  {
    HeaderOf(CorrectedFields(channels, sampleRate, |samples|)) + SampleBytes(samples)
  }

  /** With the corrected header the RIFF size field is the file length less 8, and
      every other byte is the one the source writes. */
  lemma CorrectedRiffSize(channels: nat, sampleRate: nat, samples: seq<seq<i16>>)
    requires HeaderFits(channels, sampleRate, |samples|) && Frames(samples, channels) && channels < U16_LIMIT
    ensures var bytes, written := CorrectedRiffBytes(channels, sampleRate, samples), RiffBytes(channels, sampleRate, samples);
      |bytes| == |written| &&
      (|bytes| < U32_LIMIT ==> FromLE(bytes[4..8]) == |bytes| - 8) &&
      bytes[..4] == written[..4] && bytes[8..] == written[8..]
  {
    var f := CorrectedFields(channels, sampleRate, |samples|);
    var data := SampleBytes(samples);
    DataSize(channels, sampleRate, samples);
    FileFields(f, data);
    SameOutsideSize(f, Written(channels, sampleRate, |samples|), data);
  }

  /** Two headers that differ only in the RIFF size field agree on every other byte. */
  lemma SameOutsideSize(f: Fields, g: Fields, data: seq<byte>)
    requires FieldsFit(f) && FieldsFit(g) && g == f.(riffSize := g.riffSize)
    ensures var a, b := HeaderOf(f) + data, HeaderOf(g) + data;
      a[..4] == b[..4] && a[8..] == b[8..]
  {
    assert FmtFront(g) == FmtFront(f) && FmtBack(g) == FmtBack(f) && DataPart(g) == DataPart(f);
    var rest := FmtFront(f) + FmtBack(f) + DataPart(f) + data;
    Regroup(RiffPart(f), FmtFront(f), FmtBack(f), DataPart(f), data);
    Regroup(RiffPart(g), FmtFront(f), FmtBack(f), DataPart(f), data);
    RiffFields(f);
    RiffFields(g);
    SameOutside(RiffPart(f), RiffPart(g), rest);
  }

  lemma Regroup(a: seq<byte>, b: seq<byte>, c: seq<byte>, d: seq<byte>, e: seq<byte>)
    ensures a + b + c + d + e == a + (b + c + d + e)
  {
  }

  /** Two 12-byte heads that agree outside bytes 4..8 keep agreeing there when followed by the same bytes. */
  lemma SameOutside(x: seq<byte>, y: seq<byte>, r: seq<byte>)
    requires |x| == 12 && |y| == 12 && x[0..4] == y[0..4] && x[8..12] == y[8..12]
    ensures (x + r)[..4] == (y + r)[..4] && (x + r)[8..] == (y + r)[8..]
  {
    assert (x + r)[..4] == x[0..4];
    assert (y + r)[..4] == y[0..4];
    assert (x + r)[8..] == x[8..12] + r;
    assert (y + r)[8..] == y[8..12] + r;
  }
}
