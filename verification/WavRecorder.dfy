/** The WAV debug recorder: the header writer of audio_debug_file_writer.cc and
    the file it maintains, against a reader that follows the layout of the section
    "Waveform Audio File Format (WAVE)" of the Multimedia Programming Interface
    and Data Specifications 1.0. */
module WavRecorder {
  import opened Words

  type Byte = x: nat | x < 256
  type Sample = x: int | -32768 <= x < 32768

  const WAV_HEADER_SIZE: nat := 44
  const FMT_CHUNK_SIZE: u32 := 16
  const CHUNK_HEADER_SIZE: nat := 8
  const WAV_FORMAT_PCM: nat := 1
  const BYTES_PER_SAMPLE: nat := 2
  /** The largest payload whose RIFF chunk size still fits a uint32_t. */
  const MAX_PAYLOAD: nat := MAX32 - 36

  // ---------------------------------------------------------- little endian

  function Le16(x: nat): (bytes: seq<Byte>)
    ensures |bytes| == 2
  {
    [x % 256, x / 256 % 256]
  }

  function Le32(x: nat): (bytes: seq<Byte>)
    ensures |bytes| == 4
  {
    [x % 256, x / 256 % 256, x / 65536 % 256, x / 16777216 % 256]
  }

  function U16At(s: seq<Byte>, at: nat): nat
    requires at + 2 <= |s|
  {
    var b0: nat, b1: nat := s[at], s[at + 1];
    b0 + 256 * b1
  }

  function U32At(s: seq<Byte>, at: nat): nat
    requires at + 4 <= |s|
  {
    var b0: nat, b1: nat, b2: nat, b3: nat := s[at], s[at + 1], s[at + 2], s[at + 3];
    b0 + 256 * b1 + 65536 * b2 + 16777216 * b3
  }

  lemma Le16RoundTrip(x: nat)
    ensures U16At(Le16(x), 0) == x % 65536
  {
    var q := x / 256;
    assert x == 256 * q + x % 256 && q == 256 * (q / 256) + q % 256;
    assert x == 65536 * (q / 256) + (256 * (q % 256) + x % 256);
  }

  lemma Le32RoundTrip(x: u32)
    ensures U32At(Le32(x), 0) == x
  {
    hide U32At, Le32;
    LittleEndian(x);
    LowByte(x);
    LowByte(x / 256);
    LowByte(x / 65536);
    Shifted(x);
  }

  lemma LittleEndian(x: u32)
    ensures U32At(Le32(x), 0) ==
            x % 256 + 256 * (x / 256 % 256) + 65536 * (x / 65536 % 256) + 16777216 * (x / 16777216 % 256)
  {
  }

  lemma LowByte(x: nat)
    ensures x == x % 256 + 256 * (x / 256)
  {
  }

  lemma Shifted(x: u32)
    ensures x / 256 / 256 == x / 65536 && x / 65536 / 256 == x / 16777216 == x / 16777216 % 256
  {
  }

  lemma FieldIs16(s: seq<Byte>, at: nat, x: nat)
    requires at + 2 <= |s| && s[at..at + 2] == Le16(x)
    ensures U16At(s, at) == x % 65536
  {
    hide Le16;
    Le16RoundTrip(x);
    assert s[at] == s[at..at + 2][0] && s[at + 1] == s[at..at + 2][1];
  }

  lemma FieldIs32(s: seq<Byte>, at: nat, x: u32)
    requires at + 4 <= |s| && s[at..at + 4] == Le32(x)
    ensures U32At(s, at) == x
  {
    hide Le32;
    Le32RoundTrip(x);
    var f := s[at..at + 4];
    assert s[at] == f[0] && s[at + 1] == f[1] && s[at + 2] == f[2] && s[at + 3] == f[3];
  }

  // -------------------------------------------------------------- the reader

  const RIFF: seq<Byte> := [0x52, 0x49, 0x46, 0x46]
  const WAVE: seq<Byte> := [0x57, 0x41, 0x56, 0x45]
  const FMT: seq<Byte> := [0x66, 0x6D, 0x74, 0x20]
  const DATA: seq<Byte> := [0x64, 0x61, 0x74, 0x61]

  datatype Header = Header(
    riffSize: nat,
    fmtSize: nat,
    format: nat,
    channels: nat,
    sampleRate: nat,
    byteRate: nat,
    blockAlign: nat,
    bitsPerSample: nat,
    dataSize: nat)

  datatype Option<T> = None | Some(value: T)

  /** A reader of the fixed 44-byte layout: tags and fields by their offsets. */
  function ParseHeader(file: seq<Byte>): Option<Header> {
    if |file| < WAV_HEADER_SIZE then None
    else if file[0..4] != RIFF || file[8..12] != WAVE || file[12..16] != FMT || file[36..40] != DATA then None
    else Some(Header(U32At(file, 4), U32At(file, 16), U16At(file, 20), U16At(file, 22), U32At(file, 24),
                     U32At(file, 28), U16At(file, 32), U16At(file, 34), U32At(file, 40)))
  }

  function SampleOf(u: nat): Sample
    requires u < 65536
  {
    if u < 32768 then u else u - 65536
  }

  /** Decodes 16-bit samples; a trailing odd byte is ignored. */
  function DecodeSamples(bytes: seq<Byte>): seq<Sample> {
    if |bytes| < 2 then [] else [SampleOf(U16At(bytes, 0))] + DecodeSamples(bytes[2..])
  }

  datatype Wav = Wav(header: Header, samples: seq<Sample>)

  /** The payload is as long as the header says, or as long as the file is. */
  function ReadWav(file: seq<Byte>): Option<Wav> {
    match ParseHeader(file)
    case None => None
    case Some(header) =>
      var end := WAV_HEADER_SIZE + header.dataSize;
      Some(Wav(header, DecodeSamples(file[WAV_HEADER_SIZE..if end <= |file| then end else |file|])))
  }

  // -------------------------------------------------------------- the writer

  /** Writes bytes into a fixed buffer through an advancing size. */
  class CharBufferWriter {
    const buf: array<Byte>
    var size: nat

    constructor (buf: array<Byte>)
      ensures this.buf == buf && size == 0
    {
      this.buf := buf;
      size := 0;
    }

    ghost predicate Valid()
      reads this
    {
      size <= buf.Length
    }

    /** The CHECK_LE of the source is the second precondition. */
    method Write(data: seq<Byte>)
      requires Valid()
      requires size + |data| <= buf.Length
      modifies this, buf
      ensures Valid() && size == old(size) + |data|
      ensures buf[..size] == old(buf[..size]) + data
    {
      for i := 0 to |data|
        invariant size == old(size)
        invariant buf[..size] == old(buf[..size])
        invariant buf[size..size + i] == data[..i]
      {
        buf[size + i] := data[i];
        assert buf[size..size + i + 1] == buf[size..size + i] + [data[i]];
      }
      assert buf[size..size + |data|] == data[..|data|] == data;
      assert buf[..size + |data|] == buf[..size] + buf[size..size + |data|];
      size := size + |data|;
    }
  }

  function Min(a: nat, b: nat): nat {
    if a <= b then a else b
  }

  /** The uint64_t product and its clipping to the RIFF limit. */
  function BytesInPayload(samples: nat): (bytes: nat)
    requires samples < TWO64
    ensures bytes <= MAX_PAYLOAD
  {
    var bytes64 := samples * BYTES_PER_SAMPLE % TWO64;
    if bytes64 > MAX_PAYLOAD then MAX_PAYLOAD else bytes64
  }

  /** The header's data size is the clipped payload exactly when the 64-bit product does
      not wrap below the clipping limit. */
  lemma PayloadExact(samples: nat)
    requires samples < TWO64
    ensures BytesInPayload(samples) == Min(2 * samples, MAX_PAYLOAD) <==>
            (samples < TWO64 / 2 || 2 * samples - TWO64 >= MAX_PAYLOAD)
  {
  }

  lemma {:induction false} PayloadWraps()
    ensures BytesInPayload(TWO64 / 2 + 1) == 2
    ensures Min(2 * (TWO64 / 2 + 1), MAX_PAYLOAD) == MAX_PAYLOAD
  {
  }

  /** What a reader finds in the header written for these parameters. */
  function HeaderFor(channels: u32, sampleRate: u32, samples: nat): Header
    requires samples < TWO64
  {
    var payload := BytesInPayload(samples);
    Header(payload + 36, 16, 1, channels % 65536, sampleRate, Wrap(channels * sampleRate * 2),
           channels * 2 % 65536, 16, payload)
  }

  /** What a reader learns about a recording: the rate always, the channel count exactly if it fits
      16 bits, the block alignment exactly if twice the channel count does, the byte rate exactly if
      it fits 32 bits, the data size clipped to the format's limit exactly if the 64-bit byte count
      does not wrap below that limit, and a RIFF size of 36 more in any case. */
  predicate Describes(header: Option<Header>, channels: u32, sampleRate: u32, samples: nat) {
    && header.Some?
    && var h := header.value;
    && h.sampleRate == sampleRate
    && (h.channels == channels <==> channels < 65536)
    && (h.blockAlign == 2 * channels <==> channels < 32768)
    && (h.byteRate == channels * sampleRate * 2 <==> channels * sampleRate * 2 < TWO32)
    && (h.dataSize == Min(2 * samples, 0xFFFF_FFDB) <==>
          samples < 0x8000_0000_0000_0000 || 2 * samples - 0x1_0000_0000_0000_0000 >= 0xFFFF_FFDB)
    && h.riffSize == h.dataSize + 36
    && h.fmtSize == 16 && h.format == 1 && h.bitsPerSample == 16
  }

  lemma HeaderDescribes(channels: u32, sampleRate: u32, samples: nat)
    requires samples < TWO64
    ensures Describes(Some(HeaderFor(channels, sampleRate, samples)), channels, sampleRate, samples)
  {
    PayloadExact(samples);
    ChannelsFit(channels, sampleRate, samples);
    WrapFits(channels * sampleRate * 2);
    hide BytesInPayload, Wrap;
  }

  lemma WrapFits(x: nat)
    ensures Wrap(x) == x <==> x < TWO32
  {
  }

  /** WriteWavHeader(): exactly fills the buffer, and the reader finds the sizes, the rate and
      the low 16 bits of the channel count. */
  method WriteWavHeader(buf: array<Byte>, channels: u32, sampleRate: u32, samples: nat)
    requires buf.Length == WAV_HEADER_SIZE && samples < TWO64
    modifies buf
    ensures ParseHeader(buf[..]) == Some(HeaderFor(channels, sampleRate, samples))
    ensures Describes(ParseHeader(buf[..]), channels, sampleRate, samples)
    ensures var payload := BytesInPayload(samples);
            buf[..] == HeaderBytes(channels, sampleRate, Wrap(channels * 2), Wrap(channels * sampleRate * 2),
                                   payload + 36, payload)
  {
    HeaderDescribes(channels, sampleRate, samples);
    hide Wrap, BytesInPayload, ParseHeader, RiffPart, FormatPart, RatePart, DataPart, Describes;
    var payload := BytesInPayload(samples);
    var blockAlign := Wrap(channels * BYTES_PER_SAMPLE);
    var byteRate := Wrap(Wrap(channels * sampleRate) * BYTES_PER_SAMPLE);
    var riffChunkSize := Wrap(Wrap(payload + WAV_HEADER_SIZE) + TWO32 - CHUNK_HEADER_SIZE);
    var writer := new CharBufferWriter(buf);
    WriteRiffAndFormat(writer, channels, riffChunkSize);
    WriteRatesAndData(writer, sampleRate, blockAlign, byteRate, payload);
    HeaderParses(channels, sampleRate, blockAlign, byteRate, riffChunkSize, payload);
    RiffSizeExact(payload);
    WrapTwice(channels * sampleRate);
    WrapMod(channels * 2);
  }

  /** payload + 44 may exceed the word; subtracting 8 brings it back. */
  lemma RiffSizeExact(payload: nat)
    requires payload <= MAX_PAYLOAD
    ensures Wrap(Wrap(payload + WAV_HEADER_SIZE) + TWO32 - CHUNK_HEADER_SIZE) == payload + 36
  {
  }

  lemma WrapTwice(x: nat)
    ensures Wrap(Wrap(x) * BYTES_PER_SAMPLE) == Wrap(x * 2)
  {
    hide Wrap;
    WrapDouble(x);
  }

  lemma WrapMod(x: nat)
    ensures Wrap(x) % 65536 == x % 65536
  {
  }

  ghost function RiffPart(riffSize: u32): seq<Byte> { RIFF + Le32(riffSize) + WAVE }

  ghost function FormatPart(channels: u32): seq<Byte> {
    FMT + Le32(FMT_CHUNK_SIZE) + Le16(WAV_FORMAT_PCM) + Le16(channels)
  }

  ghost function RatePart(sampleRate: u32, blockAlign: u32, byteRate: u32): seq<Byte> {
    Le32(sampleRate) + Le32(byteRate) + Le16(blockAlign) + Le16(BYTES_PER_SAMPLE * 8)
  }

  ghost function DataPart(payload: u32): seq<Byte> { DATA + Le32(payload) }

  ghost function HeaderBytes(channels: u32, sampleRate: u32, blockAlign: u32, byteRate: u32,
                             riffSize: u32, payload: u32): seq<Byte> {
    RiffPart(riffSize) + FormatPart(channels) + RatePart(sampleRate, blockAlign, byteRate) + DataPart(payload)
  }

  method WriteRiffAndFormat(writer: CharBufferWriter, channels: u32, riffSize: u32)
    requires writer.size == 0 && writer.buf.Length == WAV_HEADER_SIZE
    modifies writer, writer.buf
    ensures writer.size == 24 && writer.buf[..24] == RiffPart(riffSize) + FormatPart(channels)
  {
    hide Le16, Le32;
    writer.Write(RIFF);
    writer.Write(Le32(riffSize));
    writer.Write(WAVE);
    assert writer.buf[..writer.size] == RiffPart(riffSize);
    writer.Write(FMT);
    writer.Write(Le32(FMT_CHUNK_SIZE));
    writer.Write(Le16(WAV_FORMAT_PCM));
    writer.Write(Le16(channels));
  }

  method WriteRatesAndData(writer: CharBufferWriter, sampleRate: u32, blockAlign: u32, byteRate: u32, payload: u32)
    requires writer.size == 24 && writer.buf.Length == WAV_HEADER_SIZE
    modifies writer, writer.buf
    ensures writer.size == WAV_HEADER_SIZE
    ensures writer.buf[..] == old(writer.buf[..24]) + RatePart(sampleRate, blockAlign, byteRate) + DataPart(payload)
  {
    hide Le16, Le32;
    writer.Write(Le32(sampleRate));
    writer.Write(Le32(byteRate));
    writer.Write(Le16(blockAlign));
    writer.Write(Le16(BYTES_PER_SAMPLE * 8));
    assert writer.buf[..writer.size] == old(writer.buf[..24]) + RatePart(sampleRate, blockAlign, byteRate);
    writer.Write(DATA);
    writer.Write(Le32(payload));
    assert writer.buf[..] == writer.buf[..writer.size];
  }

  /** Byte by byte, the header of an empty stereo recording at 44100 Hz. */
  lemma EmptyStereoHeader()
    ensures HeaderBytes(2, 44100, 4, 176400, 36, 0) ==
            [0x52, 0x49, 0x46, 0x46, 0x24, 0x00, 0x00, 0x00, 0x57, 0x41, 0x56, 0x45,
             0x66, 0x6D, 0x74, 0x20, 0x10, 0x00, 0x00, 0x00, 0x01, 0x00, 0x02, 0x00,
             0x44, 0xAC, 0x00, 0x00, 0x10, 0xB1, 0x02, 0x00, 0x04, 0x00, 0x10, 0x00,
             0x64, 0x61, 0x74, 0x61, 0x00, 0x00, 0x00, 0x00]
  {
    RiffAndFormat();
    RateAndData();
    hide RiffPart, FormatPart, RatePart, DataPart;
  }

  lemma RiffAndFormat()
    ensures RiffPart(36) == [0x52, 0x49, 0x46, 0x46, 0x24, 0x00, 0x00, 0x00, 0x57, 0x41, 0x56, 0x45]
    ensures FormatPart(2) == [0x66, 0x6D, 0x74, 0x20, 0x10, 0x00, 0x00, 0x00, 0x01, 0x00, 0x02, 0x00]
  {
    assert Le32(36) == [0x24, 0, 0, 0] && Le32(16) == [0x10, 0, 0, 0] && Le16(1) == [1, 0] && Le16(2) == [2, 0];
    hide Le16, Le32;
  }

  lemma RateAndData()
    ensures RatePart(44100, 4, 176400) == [0x44, 0xAC, 0x00, 0x00, 0x10, 0xB1, 0x02, 0x00, 0x04, 0x00, 0x10, 0x00]
    ensures DataPart(0) == [0x64, 0x61, 0x74, 0x61, 0x00, 0x00, 0x00, 0x00]
  {
    assert Le32(44100) == [0x44, 0xAC, 0, 0] && Le32(176400) == [0x10, 0xB1, 0x02, 0] && Le32(0) == [0, 0, 0, 0];
    assert Le16(4) == [4, 0] && Le16(16) == [16, 0];
    hide Le16, Le32;
  }

  /** Samples are two's complement, low byte first. */
  lemma SampleBytes(x: Sample)
    ensures |EncodeSample(x)| == 2
    ensures var low: int, high: int := EncodeSample(x)[0], EncodeSample(x)[1];
            low + 256 * high == if x < 0 then x + 65536 else x
  {
  }

  /** Every field lies at the offset the format gives it. */
  lemma HeaderParses(channels: u32, sampleRate: u32, blockAlign: u32, byteRate: u32, riffSize: u32, payload: u32)
    ensures var head := HeaderBytes(channels, sampleRate, blockAlign, byteRate, riffSize, payload);
            && |head| == WAV_HEADER_SIZE
            && ParseHeader(head) == Some(Header(riffSize, 16, 1, channels % 65536, sampleRate, byteRate,
                                                blockAlign % 65536, 16, payload))
  {
    hide Le16, Le32, U16At, U32At;
    var head := HeaderBytes(channels, sampleRate, blockAlign, byteRate, riffSize, payload);
    var r, f, t, d := RiffPart(riffSize), FormatPart(channels), RatePart(sampleRate, blockAlign, byteRate), DataPart(payload);
    assert head[..12] == r && head[12..24] == f && head[24..36] == t && head[36..] == d;
    assert head[0..4] == r[0..4] == RIFF && head[4..8] == r[4..8] == Le32(riffSize) && head[8..12] == r[8..12] == WAVE;
    assert head[12..16] == f[0..4] == FMT && head[16..20] == f[4..8] == Le32(FMT_CHUNK_SIZE);
    assert head[20..22] == f[8..10] == Le16(WAV_FORMAT_PCM) && head[22..24] == f[10..12] == Le16(channels);
    assert head[24..28] == t[0..4] == Le32(sampleRate) && head[28..32] == t[4..8] == Le32(byteRate);
    assert head[32..34] == t[8..10] == Le16(blockAlign) && head[34..36] == t[10..12] == Le16(16);
    assert head[36..40] == d[0..4] == DATA && head[40..44] == d[4..8] == Le32(payload);
    FieldIs32(head, 4, riffSize);
    FieldIs32(head, 16, FMT_CHUNK_SIZE);
    FieldIs16(head, 20, WAV_FORMAT_PCM);
    FieldIs16(head, 22, channels);
    FieldIs32(head, 24, sampleRate);
    FieldIs32(head, 28, byteRate);
    FieldIs16(head, 32, blockAlign);
    FieldIs16(head, 34, 16);
    FieldIs32(head, 40, payload);
  }

  /** The channel count survives exactly if it fits its 16-bit field. */
  lemma ChannelsFit(channels: u32, sampleRate: u32, samples: nat)
    requires samples < TWO64
    ensures HeaderFor(channels, sampleRate, samples).channels == channels <==> channels < 65536
    ensures HeaderFor(channels, sampleRate, samples).sampleRate == sampleRate
  {
  }

  // ---------------------------------------------------------------- samples

  function EncodeSample(x: Sample): seq<Byte> {
    Le16(if x < 0 then x + 65536 else x)
  }

  function EncodeSamples(samples: seq<Sample>): (bytes: seq<Byte>)
    ensures |bytes| == 2 * |samples|
  {
    if samples == [] then [] else EncodeSample(samples[0]) + EncodeSamples(samples[1..])
  }

  lemma {:induction false} EncodeConcat(a: seq<Sample>, b: seq<Sample>)
    ensures EncodeSamples(a + b) == EncodeSamples(a) + EncodeSamples(b)
  {
    if a == [] {
      assert a + b == b;
    } else {
      assert (a + b)[1..] == a[1..] + b;
      EncodeConcat(a[1..], b);
    }
  }

  lemma SampleRoundTrip(x: Sample)
    ensures U16At(EncodeSample(x), 0) < 65536
    ensures SampleOf(U16At(EncodeSample(x), 0)) == x
  {
    Le16RoundTrip(if x < 0 then x + 65536 else x);
  }

  /** Decoding any prefix of the encoded bytes gives the samples that lie wholly in it. */
  lemma {:induction false} DecodePrefix(samples: seq<Sample>, k: nat)
    requires k <= 2 * |samples|
    ensures DecodeSamples(EncodeSamples(samples)[..k]) == samples[..k / 2]
    decreases |samples|
  {
    hide EncodeSample, U16At;
    var bytes := EncodeSamples(samples)[..k];
    if k >= 2 {
      var first, rest := EncodeSample(samples[0]), EncodeSamples(samples[1..]);
      SampleRoundTrip(samples[0]);
      FirstSample(first, bytes);
      assert bytes[2..] == rest[..k - 2];
      DecodePrefix(samples[1..], k - 2);
      assert samples[..k / 2] == [samples[0]] + samples[1..][..(k - 2) / 2];
    }
  }

  lemma FirstSample(first: seq<Byte>, bytes: seq<Byte>)
    requires |first| == 2 && |bytes| >= 2 && bytes[..2] == first
    ensures U16At(bytes, 0) == U16At(first, 0)
  {
    assert bytes[0] == first[0] && bytes[1] == first[1];
  }

  // ------------------------------------------------------------------- files

  /** `data` written over `contents` at `offset`; a gap is filled with zeros. */
  function Overlay(contents: seq<Byte>, offset: nat, data: seq<Byte>): seq<Byte> {
    var padded := if |contents| < offset then contents + seq(offset - |contents|, _ => 0) else contents;
    padded[..offset] + data + From(padded, offset + |data|)
  }

  /** What lies at or after a position. */
  function From(contents: seq<Byte>, at: nat): seq<Byte> {
    if at <= |contents| then contents[at..] else []
  }

  /** Writing right behind what was encoded extends it and keeps what lies beyond. */
  lemma OverlayAppends(contents: seq<Byte>, encoded: seq<Byte>, original: seq<Byte>, data: seq<Byte>)
    requires |contents| >= WAV_HEADER_SIZE
    requires contents[WAV_HEADER_SIZE..] == encoded + From(original, WAV_HEADER_SIZE + |encoded|)
    ensures var after := Overlay(contents, WAV_HEADER_SIZE + |encoded|, data);
            && |after| >= WAV_HEADER_SIZE
            && after[WAV_HEADER_SIZE..] == encoded + data + From(original, WAV_HEADER_SIZE + |encoded| + |data|)
  {
    hide Overlay, From, WAV_HEADER_SIZE;
    var at := WAV_HEADER_SIZE + |encoded|;
    FromTail(contents, encoded, From(original, at));
    FromFrom(contents, original, at, |data|);
    var rest := From(original, at + |data|);
    OverlayInside(contents, at, data);
    SkipHead(contents[..at], data, rest);
  }

  lemma OverlayInside(contents: seq<Byte>, at: nat, data: seq<Byte>)
    requires at <= |contents|
    ensures Overlay(contents, at, data) == contents[..at] + data + From(contents, at + |data|)
  {
  }

  lemma SkipHead(a: seq<Byte>, b: seq<Byte>, c: seq<Byte>)
    requires |a| >= WAV_HEADER_SIZE
    ensures (a + b + c)[WAV_HEADER_SIZE..] == a[WAV_HEADER_SIZE..] + b + c
  {
  }

  lemma FromTail(contents: seq<Byte>, encoded: seq<Byte>, rest: seq<Byte>)
    requires |contents| >= WAV_HEADER_SIZE && contents[WAV_HEADER_SIZE..] == encoded + rest
    ensures |contents| >= WAV_HEADER_SIZE + |encoded|
    ensures contents[..WAV_HEADER_SIZE + |encoded|][WAV_HEADER_SIZE..] == encoded
    ensures From(contents, WAV_HEADER_SIZE + |encoded|) == rest
  {
    var tail := contents[WAV_HEADER_SIZE..];
    assert tail[..|encoded|] == encoded && tail[|encoded|..] == rest;
  }

  lemma FromFrom(a: seq<Byte>, b: seq<Byte>, at: nat, more: nat)
    requires From(a, at) == From(b, at)
    ensures From(a, at + more) == From(b, at + more)
  {
    assert From(a, at + more) == From(From(a, at), more);
    assert From(b, at + more) == From(From(b, at), more);
  }

  /** base::File, with writes that succeed. */
  class File {
    var contents: seq<Byte>
    var cursor: nat

    constructor (contents: seq<Byte>)
      ensures this.contents == contents && cursor == 0
    {
      this.contents, cursor := contents, 0;
    }

    /** Write at an offset; the cursor stays. */
    method Write(offset: nat, data: seq<Byte>)
      modifies this`contents
      ensures contents == Overlay(old(contents), offset, data)
    {
      contents := Overlay(contents, offset, data);
    }

    method WriteAtCurrentPos(data: seq<Byte>)
      modifies this
      ensures contents == Overlay(old(contents), old(cursor), data) && cursor == old(cursor) + |data|
    {
      contents := Overlay(contents, cursor, data);
      cursor := cursor + |data|;
    }

    method Seek(position: nat)
      modifies this`cursor
      ensures cursor == position
    {
      cursor := position;
    }
  }

  /** Room for the header, then all samples in order, then whatever the file held beyond them. */
  predicate Holds(contents: seq<Byte>, recorded: seq<Sample>, original: seq<Byte>) {
    && |contents| >= WAV_HEADER_SIZE
    && contents[WAV_HEADER_SIZE..] == EncodeSamples(recorded) + From(original, WAV_HEADER_SIZE + 2 * |recorded|)
  }

  /** AudioDebugFileWriter::AudioFileWriter; a null file is an invalid one. */
  class AudioFileWriter {
    const channels: u32
    const sampleRate: u32
    var file: File?
    var samples: nat

    ghost var recorded: seq<Sample>
    ghost var original: seq<Byte>

    ghost predicate Valid()
      reads this, file
    {
      && samples == Wrap64(|recorded|)
      && (file == null ==> recorded == [])
      && (file != null ==>
            && file.cursor == WAV_HEADER_SIZE + 2 * |recorded|
            && Holds(file.contents, recorded, original))
    }

    constructor (channels: u32, sampleRate: u32)
      ensures Valid() && file == null
      ensures this.channels == channels && this.sampleRate == sampleRate
    {
      this.channels, this.sampleRate := channels, sampleRate;
      file, samples, recorded, original := null, 0, [], [];
    }

    method StartRecording(f: File?)
      requires Valid() && file == null
      modifies this, f
      ensures Valid() && file == f && recorded == []
      ensures f != null ==>
                original == old(f.contents) && ParseHeader(f.contents) == Some(HeaderFor(channels, sampleRate, 0))
    {
      file := f;
      if f != null {
        original := f.contents;
        WriteHeader();
      }
    }

    /** Writes the header at the start of the file and moves the cursor behind it. */
    method WriteHeader()
      requires file != null && samples == Wrap64(|recorded|)
      modifies file
      ensures file.cursor == WAV_HEADER_SIZE
      ensures |file.contents| >= WAV_HEADER_SIZE
      ensures file.contents[WAV_HEADER_SIZE..] == From(old(file.contents), WAV_HEADER_SIZE)
      ensures ParseHeader(file.contents) == Some(HeaderFor(channels, sampleRate, samples))
    {
      hide HeaderFor, HeaderBytes, Describes, ParseHeader, BytesInPayload, Wrap;
      var buf := new Byte[WAV_HEADER_SIZE];
      WriteWavHeader(buf, channels, sampleRate, samples);
      file.Write(0, buf[..]);
      HeaderIsPrefix(buf[..], From(old(file.contents), WAV_HEADER_SIZE));
      assert file.contents == buf[..] + From(old(file.contents), WAV_HEADER_SIZE);
      file.Seek(WAV_HEADER_SIZE);
    }

    /** Write(): `data` are the interleaved 16-bit samples of one audio bus. */
    method Write(data: seq<Sample>)
      requires Valid()
      modifies this, file
      ensures Valid() && file == old(file) && original == old(original)
      ensures recorded == if file == null then [] else old(recorded) + data
    {
      if file == null {
        return;
      }
      hide Holds, Overlay, From, EncodeSamples, Wrap64, WAV_HEADER_SIZE;
      Mod64Add(|recorded|, |data|);
      samples := Wrap64(samples + |data|);
      RecordingGrows(file.contents, recorded, original, data);
      file.WriteAtCurrentPos(EncodeSamples(data));
      recorded := recorded + data;
    }

    /** The destructor rewrites the header with the final count. The file is then the 44-byte
        header, every recorded sample in order, and what the file held beyond them before. A
        reader gets back the parameters, a data size of twice the sample count clipped to the
        format's limit with a RIFF size 36 more, and the samples up to that limit. */
    method Destroy()
      requires Valid()
      modifies file
      ensures file != null ==>
                && |file.contents| >= WAV_HEADER_SIZE
                && file.contents[WAV_HEADER_SIZE..] ==
                     EncodeSamples(recorded) + From(original, WAV_HEADER_SIZE + 2 * |recorded|)
                && ParseHeader(file.contents) == Some(HeaderFor(channels, sampleRate, Wrap64(|recorded|)))
      ensures file != null && |recorded| < TWO64 / 2 ==>
                var size := Min(2 * |recorded|, MAX_PAYLOAD);
                && HeaderFor(channels, sampleRate, |recorded|).dataSize == size
                && HeaderFor(channels, sampleRate, |recorded|).riffSize == size + 36
                && ReadWav(file.contents) ==
                     Some(Wav(HeaderFor(channels, sampleRate, |recorded|), recorded[..size / 2]))
      ensures file != null && 2 * |recorded| <= MAX_PAYLOAD ==>
                ReadWav(file.contents) == Some(Wav(HeaderFor(channels, sampleRate, |recorded|), recorded))
    {
      hide ParseHeader, HeaderFor, EncodeSamples, ReadWav, BytesInPayload;
      if file != null {
        WriteHeader();
        assert recorded[..|recorded|] == recorded;
        if |recorded| < TWO64 / 2 {
          Mod64Small(|recorded|);
          ReadBack(file.contents, channels, sampleRate, recorded, From(original, WAV_HEADER_SIZE + 2 * |recorded|));
        }
      }
    }
  }

  /** Writing further samples right behind the recorded ones. */
  lemma RecordingGrows(contents: seq<Byte>, recorded: seq<Sample>, original: seq<Byte>, data: seq<Sample>)
    requires Holds(contents, recorded, original)
    ensures Holds(Overlay(contents, WAV_HEADER_SIZE + 2 * |recorded|, EncodeSamples(data)), recorded + data, original)
  {
    hide Overlay, From, EncodeSamples, WAV_HEADER_SIZE;
    var encoded, more := EncodeSamples(recorded), EncodeSamples(data);
    var at := WAV_HEADER_SIZE + 2 * |recorded|;
    assert at == WAV_HEADER_SIZE + |encoded|;
    var end := at + 2 * |data|;
    assert end == WAV_HEADER_SIZE + |encoded| + |more| == WAV_HEADER_SIZE + 2 * |recorded + data|;
    OverlayAppends(contents, encoded, original, more);
    assert Overlay(contents, at, more)[WAV_HEADER_SIZE..] == encoded + more + From(original, end);
    EncodeConcat(recorded, data);
  }

  function Flatten(writes: seq<seq<Sample>>): seq<Sample> {
    if writes == [] then [] else Flatten(writes[..|writes| - 1]) + writes[|writes| - 1]
  }

  /** A whole recording, from opening the file to destruction. */
  method Record(f: File, channels: u32, sampleRate: u32, writes: seq<seq<Sample>>)
    modifies f
    ensures var all := Flatten(writes);
            && |f.contents| >= WAV_HEADER_SIZE
            && f.contents[WAV_HEADER_SIZE..] == EncodeSamples(all) + From(old(f.contents), WAV_HEADER_SIZE + 2 * |all|)
            && ParseHeader(f.contents) == Some(HeaderFor(channels, sampleRate, Wrap64(|all|)))
            && Describes(ParseHeader(f.contents), channels, sampleRate, Wrap64(|all|))
            && (2 * |all| <= MAX_PAYLOAD ==>
                  ReadWav(f.contents) == Some(Wav(HeaderFor(channels, sampleRate, |all|), all)))
  {
    hide ParseHeader, HeaderFor, EncodeSamples, ReadWav, BytesInPayload, From, Describes;
    var recorder := new AudioFileWriter(channels, sampleRate);
    recorder.StartRecording(f);
    for i := 0 to |writes|
      invariant recorder.Valid() && recorder.file == f && recorder.original == old(f.contents)
      invariant recorder.recorded == Flatten(writes[..i])
    {
      recorder.Write(writes[i]);
      assert writes[..i + 1][..i] == writes[..i];
    }
    assert writes[..|writes|] == writes;
    HeaderDescribes(channels, sampleRate, Wrap64(|Flatten(writes)|));
    recorder.Destroy();
  }

  lemma Mod64Small(x: nat)
    requires x < TWO64
    ensures Wrap64(x) == x
  {
  }

  lemma Mod64Add(x: nat, y: nat)
    ensures Wrap64(Wrap64(x) + y) == Wrap64(x + y)
  {
  }

  /** The reader looks at nothing but the first 44 bytes. */
  lemma HeaderIsPrefix(head: seq<Byte>, rest: seq<Byte>)
    requires |head| == WAV_HEADER_SIZE
    ensures ParseHeader(head + rest) == ParseHeader(head)
  {
    var file := head + rest;
    assert file[0..4] == head[0..4] && file[8..12] == head[8..12];
    assert file[12..16] == head[12..16] && file[36..40] == head[36..40];
  }

  /** The sizes in the header of a recording whose byte count fits 64 bits. */
  lemma HeaderSizes(channels: u32, sampleRate: u32, samples: nat)
    requires samples < TWO64 / 2
    ensures var head := HeaderFor(channels, sampleRate, samples);
            head.dataSize == Min(2 * samples, MAX_PAYLOAD) && head.riffSize == head.dataSize + 36
  {
    PayloadExact(samples);
  }

  lemma ReadBack(contents: seq<Byte>, channels: u32, sampleRate: u32, recorded: seq<Sample>, rest: seq<Byte>)
    requires |recorded| < TWO64 / 2 && |contents| >= WAV_HEADER_SIZE
    requires contents[WAV_HEADER_SIZE..] == EncodeSamples(recorded) + rest
    requires ParseHeader(contents) == Some(HeaderFor(channels, sampleRate, |recorded|))
    ensures var size := Min(2 * |recorded|, MAX_PAYLOAD);
            && HeaderFor(channels, sampleRate, |recorded|).dataSize == size
            && HeaderFor(channels, sampleRate, |recorded|).riffSize == size + 36
            && ReadWav(contents) == Some(Wav(HeaderFor(channels, sampleRate, |recorded|), recorded[..size / 2]))
  {
    hide ParseHeader, ReadWav, EncodeSamples, HeaderFor;
    HeaderSizes(channels, sampleRate, |recorded|);
    ReadPayload(contents, HeaderFor(channels, sampleRate, |recorded|), recorded, rest);
  }

  lemma ReadPayload(contents: seq<Byte>, header: Header, recorded: seq<Sample>, rest: seq<Byte>)
    requires |contents| >= WAV_HEADER_SIZE && contents[WAV_HEADER_SIZE..] == EncodeSamples(recorded) + rest
    requires ParseHeader(contents) == Some(header) && header.dataSize <= 2 * |recorded|
    ensures ReadWav(contents) == Some(Wav(header, recorded[..header.dataSize / 2]))
  {
    hide *;
    PayloadIs(contents, EncodeSamples(recorded), rest, header.dataSize);
    DecodePrefix(recorded, header.dataSize);
    ReadsDeclared(contents, header);
  }

  lemma ReadsDeclared(contents: seq<Byte>, header: Header)
    requires ParseHeader(contents) == Some(header) && WAV_HEADER_SIZE + header.dataSize <= |contents|
    ensures ReadWav(contents) ==
            Some(Wav(header, DecodeSamples(contents[WAV_HEADER_SIZE..WAV_HEADER_SIZE + header.dataSize])))
  {
    hide ParseHeader, DecodeSamples;
  }

  lemma PayloadIs(contents: seq<Byte>, encoded: seq<Byte>, rest: seq<Byte>, size: nat)
    requires |contents| >= WAV_HEADER_SIZE && contents[WAV_HEADER_SIZE..] == encoded + rest && size <= |encoded|
    ensures WAV_HEADER_SIZE + size <= |contents|
    ensures contents[WAV_HEADER_SIZE..WAV_HEADER_SIZE + size] == encoded[..size]
  {
    assert contents[WAV_HEADER_SIZE..WAV_HEADER_SIZE + size] == contents[WAV_HEADER_SIZE..][..size];
    assert (encoded + rest)[..size] == encoded[..size];
  }
}
