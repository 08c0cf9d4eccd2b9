/** The WAV serialisation of the save loop: the canonical 44-byte header of
    the RIFF WAVE form (a `RIFF` chunk holding `WAVE`, a 16-byte `fmt `
    chunk with format tag 1, integer PCM, and a `data` chunk) followed by the
    raw PCM payload, with every integer field written little-endian. */
module Wav {
  import opened Jvm

  const HeaderSize: int := 44

  /** The bytes `writeInt` stores at `offset .. offset + 3`: `value shr 8k and
      0xff` for k = 0..3 (an arithmetic shift is a floor division). */
  function LE32(value: int): (r: seq<Byte>)
    ensures |r| == 4
  {
    [value % 0x100, (value / 0x100) % 0x100, (value / 0x1_0000) % 0x100, (value / 0x100_0000) % 0x100]
  }

  /** The bytes `writeShort` stores at `offset .. offset + 1`. */
  function LE16(value: int): (r: seq<Byte>)
    ensures |r| == 2
  {
    [value % 0x100, (value / 0x100) % 0x100]
  }

  /** Reading back an unsigned little-endian 32-bit field. */
  function ReadLE32(s: seq<Byte>, offset: nat): int
    requires offset + 4 <= |s|
  {
    var b0: int, b1: int, b2: int, b3: int := s[offset], s[offset + 1], s[offset + 2], s[offset + 3];
    b0 + 0x100 * (b1 + 0x100 * (b2 + 0x100 * b3))
  }

  /** Reading back an unsigned little-endian 16-bit field. */
  function ReadLE16(s: seq<Byte>, offset: nat): int
    requires offset + 2 <= |s|
  {
    var b0: int, b1: int := s[offset], s[offset + 1];
    b0 + 0x100 * b1
  }

  /** The character codes of a four-letter chunk tag. */
  function Tag(a: char, b: char, c: char, d: char): seq<Byte>
    requires a as int < 256 && b as int < 256 && c as int < 256 && d as int < 256
  {
    [a as int, b as int, c as int, d as int]
  }

  /** `sampleRate * channels * bitsPerSample / 8` in `Int` arithmetic. */
  function ByteRate(sampleRate: int, channels: int, bitsPerSample: int): int {
    DivTrunc(Wrap32(Wrap32(sampleRate * channels) * bitsPerSample), 8)
  }

  /** `channels * bitsPerSample / 8` in `Int` arithmetic, before `toShort()`. */
  function BlockAlign(channels: int, bitsPerSample: int): int {
    DivTrunc(Wrap32(channels * bitsPerSample), 8)
  }

  /** The 24-byte `fmt ` sub-chunk: its tag, its size 16, format tag 1 (PCM),
      the channel count, sample rate, byte rate, block align, and a
      bits-per-sample field of 16. */
  function FmtChunk(channels: int, sampleRate: int, byteRate: int, blockAlign: int): seq<Byte> {
    Tag('f', 'm', 't', ' ') + LE32(16) + LE16(1) + LE16(channels)
    + LE32(sampleRate) + LE32(byteRate) + LE16(blockAlign) + LE16(16)
  }

  /** The canonical header with its six variable fields given as values. */
  function Layout(riffSize: int, channels: int, sampleRate: int, byteRate: int, blockAlign: int, dataSize: int): seq<Byte> {
    Tag('R', 'I', 'F', 'F') + LE32(riffSize) + Tag('W', 'A', 'V', 'E')
    + FmtChunk(channels, sampleRate, byteRate, blockAlign)
    + Tag('d', 'a', 't', 'a') + LE32(dataSize)
  }

  /** The 44 header bytes `saveAsWav` fills in for a payload of `dataSize`
      bytes. The bits-per-sample field is the constant 16 whatever
      `bitsPerSample` is; only the byte rate and block align use it. */
  function Header(dataSize: int, sampleRate: int, channels: int, bitsPerSample: int): seq<Byte> {
    Layout(Wrap32(dataSize + 36), channels, sampleRate, ByteRate(sampleRate, channels, bitsPerSample),
           BlockAlign(channels, bitsPerSample), dataSize)
  }

  /** The bytes written to the sink: the header followed by the payload. */
  function WavBytes(pcm: seq<Byte>, sampleRate: int, channels: int, bitsPerSample: int): seq<Byte> {
    Header(|pcm|, sampleRate, channels, bitsPerSample) + pcm
  }

  /** The fields a reader finds in a 44-byte canonical header. */
  datatype WavFormat = WavFormat(
    chunkSize: int, fmtSize: int, audioFormat: int, numChannels: int, sampleRate: int,
    byteRate: int, blockAlign: int, bitsPerSample: int, dataSize: int)

  /** A reader of the canonical header: checks the four tags and reads every
      field unsigned. */
  function ParseHeader(bytes: seq<Byte>): Option<WavFormat> {
    if |bytes| < HeaderSize then None
    else if bytes[0..4] != Tag('R', 'I', 'F', 'F') || bytes[8..12] != Tag('W', 'A', 'V', 'E')
         || bytes[12..16] != Tag('f', 'm', 't', ' ') || bytes[36..40] != Tag('d', 'a', 't', 'a') then None
    else Some(WavFormat(
      ReadLE32(bytes, 4), ReadLE32(bytes, 16), ReadLE16(bytes, 20), ReadLE16(bytes, 22),
      ReadLE32(bytes, 24), ReadLE32(bytes, 28), ReadLE16(bytes, 32), ReadLE16(bytes, 34),
      ReadLE32(bytes, 40)))
  }

  /** The payload a reader finds after the header. */
  function Payload(bytes: seq<Byte>): seq<Byte>
    requires |bytes| >= HeaderSize
  {
    bytes[HeaderSize..]
  }

  // ---------------------------------------------------------------------------
  // Division facts for the round trips

  lemma ModSplit(v: int, m: int)
    requires m > 0
    ensures v % (0x100 * m) == v % 0x100 + 0x100 * ((v / 0x100) % m)
    ensures (v / 0x100) / m == v / (0x100 * m)
  {
    var q, r := v / 0x100, v % 0x100;
    var a, b := q / m, q % m;
    assert v == a * (0x100 * m) + (0x100 * b + r) by {
      calc {
        v;
        q * 0x100 + r;
        (a * m + b) * 0x100 + r;
        a * (0x100 * m) + (0x100 * b + r);
      }
    }
    assert 0 <= 0x100 * b + r < 0x100 * m;
    ModUnique(v, 0x100 * m, a, 0x100 * b + r);
  }

  /** Reading back the four bytes of `writeInt` recovers the value modulo 2^32. */
  lemma {:induction false} LE32RoundTrip(value: int)
    ensures ReadLE32(LE32(value), 0) == value % TwoTo32
  {
    var v1 := value / 0x100;
    var v2 := v1 / 0x100;
    ModSplit(value, 0x100);
    ModSplit(v1, 0x100);
    ModSplit(value, 0x1_0000);
    assert v2 == value / 0x1_0000;
    assert v2 / 0x100 == value / 0x100_0000;
    ModSplit(value, 0x100_0000);
    ModSplit(v1, 0x1_0000);
    ModSplit(v2, 0x100);
  }

  /** Reading back the two bytes of `writeShort` recovers the value modulo 2^16. */
  lemma {:induction false} LE16RoundTrip(value: int)
    ensures ReadLE16(LE16(value), 0) == value % TwoTo16
  {
    ModSplit(value, 0x100);
  }

  lemma Wrap32Mod(x: int)
    ensures Wrap32(x) % TwoTo32 == x % TwoTo32
  {
    var r := Wrap32(x);
    var k := (r - x) / TwoTo32;
    assert r - x == k * TwoTo32;
    assert r == (x / TwoTo32 + k) * TwoTo32 + x % TwoTo32;
    ModUnique(r, TwoTo32, x / TwoTo32 + k, x % TwoTo32);
  }

  lemma ReadAt32(s: seq<Byte>, offset: nat, value: int)
    requires offset + 4 <= |s| && s[offset..offset + 4] == LE32(value)
    ensures ReadLE32(s, offset) == value % TwoTo32
  {
    LE32RoundTrip(value);
    assert s[offset] == LE32(value)[0] && s[offset + 1] == LE32(value)[1];
    assert s[offset + 2] == LE32(value)[2] && s[offset + 3] == LE32(value)[3];
  }

  lemma ReadAt16(s: seq<Byte>, offset: nat, value: int)
    requires offset + 2 <= |s| && s[offset..offset + 2] == LE16(value)
    ensures ReadLE16(s, offset) == value % TwoTo16
  {
    LE16RoundTrip(value);
    assert s[offset] == LE16(value)[0] && s[offset + 1] == LE16(value)[1];
  }

  /** Where each field of the `fmt ` sub-chunk sits. */
  lemma FmtSlices(channels: int, sampleRate: int, byteRate: int, blockAlign: int)
    ensures var f := FmtChunk(channels, sampleRate, byteRate, blockAlign);
      && |f| == 24
      && f[0..4] == Tag('f', 'm', 't', ' ') && f[4..8] == LE32(16) && f[8..10] == LE16(1)
      && f[10..12] == LE16(channels) && f[12..16] == LE32(sampleRate) && f[16..20] == LE32(byteRate)
      && f[20..22] == LE16(blockAlign) && f[22..24] == LE16(16)
  {
  }

  /** Where each field of the canonical header sits. */
  lemma LayoutSlices(riffSize: int, channels: int, sampleRate: int, byteRate: int, blockAlign: int, dataSize: int)
    ensures var h := Layout(riffSize, channels, sampleRate, byteRate, blockAlign, dataSize);
      && |h| == HeaderSize
      && h[0..4] == Tag('R', 'I', 'F', 'F') && h[4..8] == LE32(riffSize)
      && h[8..12] == Tag('W', 'A', 'V', 'E') && h[12..36] == FmtChunk(channels, sampleRate, byteRate, blockAlign)
      && h[12..16] == Tag('f', 'm', 't', ' ')
      && h[16..20] == LE32(16) && h[20..22] == LE16(1) && h[22..24] == LE16(channels)
      && h[24..28] == LE32(sampleRate) && h[28..32] == LE32(byteRate)
      && h[32..34] == LE16(blockAlign) && h[34..36] == LE16(16)
      && h[36..40] == Tag('d', 'a', 't', 'a') && h[40..44] == LE32(dataSize)
  {
    var h := Layout(riffSize, channels, sampleRate, byteRate, blockAlign, dataSize);
    var f := FmtChunk(channels, sampleRate, byteRate, blockAlign);
    FmtSlices(channels, sampleRate, byteRate, blockAlign);
    assert h[12..36] == f;
    assert forall i, j :: 12 <= i <= j <= 36 ==> h[i..j] == f[i - 12..j - 12];
  }

  /** The header is its RIFF descriptor, its `fmt ` sub-chunk and its `data` sub-chunk header. */
  lemma LayoutFromParts(s: seq<Byte>, riffSize: int, channels: int, sampleRate: int, byteRate: int, blockAlign: int, dataSize: int)
    requires s == (Tag('R', 'I', 'F', 'F') + LE32(riffSize) + Tag('W', 'A', 'V', 'E'))
      + FmtChunk(channels, sampleRate, byteRate, blockAlign) + (Tag('d', 'a', 't', 'a') + LE32(dataSize))
    ensures s == Layout(riffSize, channels, sampleRate, byteRate, blockAlign, dataSize)
  {
  }

  /** A reader recovers each field of a header followed by any payload. */
  lemma ParseLayout(pcm: seq<Byte>, riffSize: int, channels: int, sampleRate: int, byteRate: int, blockAlign: int, dataSize: int)
    ensures var w := Layout(riffSize, channels, sampleRate, byteRate, blockAlign, dataSize) + pcm;
      && |w| == HeaderSize + |pcm| && Payload(w) == pcm
      && ParseHeader(w) == Some(WavFormat(riffSize % TwoTo32, 16, 1, channels % TwoTo16, sampleRate % TwoTo32,
           byteRate % TwoTo32, blockAlign % TwoTo16, 16, dataSize % TwoTo32))
  {
    var h := Layout(riffSize, channels, sampleRate, byteRate, blockAlign, dataSize);
    var w := h + pcm;
    LayoutSlices(riffSize, channels, sampleRate, byteRate, blockAlign, dataSize);
    assert w[..HeaderSize] == h;
    assert forall i, j :: 0 <= i <= j <= HeaderSize ==> w[i..j] == h[i..j];
    ReadAt32(w, 4, riffSize);
    ReadAt32(w, 16, 16);
    ReadAt16(w, 20, 1);
    ReadAt16(w, 22, channels);
    ReadAt32(w, 24, sampleRate);
    ReadAt32(w, 28, byteRate);
    ReadAt16(w, 32, blockAlign);
    ReadAt16(w, 34, 16);
    ReadAt32(w, 40, dataSize);
  }

  /** The header is 44 bytes long, the payload follows it unchanged, and a
      reader recovers every field `saveAsWav` wrote: the RIFF size is the
      payload length plus 36 and the data size is the payload length (both
      modulo 2^32), the fmt size 16, format tag 1, the channel count (modulo
      2^16), the sample rate, byte rate and block align, and bits per sample 16. */
  lemma {:induction false} HeaderRoundTrip(pcm: seq<Byte>, sampleRate: int, channels: int, bitsPerSample: int)
    ensures |WavBytes(pcm, sampleRate, channels, bitsPerSample)| == HeaderSize + |pcm|
    ensures Payload(WavBytes(pcm, sampleRate, channels, bitsPerSample)) == pcm
    ensures ParseHeader(WavBytes(pcm, sampleRate, channels, bitsPerSample)) == Some(WavFormat(
      (|pcm| + 36) % TwoTo32, 16, 1, channels % TwoTo16, sampleRate % TwoTo32,
      ByteRate(sampleRate, channels, bitsPerSample) % TwoTo32,
      BlockAlign(channels, bitsPerSample) % TwoTo16, 16, |pcm| % TwoTo32))
  {
    ParseLayout(pcm, Wrap32(|pcm| + 36), channels, sampleRate, ByteRate(sampleRate, channels, bitsPerSample),
                BlockAlign(channels, bitsPerSample), |pcm|);
    Wrap32Mod(|pcm| + 36);
  }

  /** With the recorder's format (16 kHz, mono, 16 bits) a reader finds exactly
      that format, a byte rate of 32000, a block align of 2, and the payload
      length, for any payload a JVM byte array can hold. */
  lemma RecorderFormatRoundTrip(pcm: seq<Byte>)
    requires |pcm| + 36 <= IntMax
    ensures ParseHeader(WavBytes(pcm, 16000, 1, 16))
         == Some(WavFormat(|pcm| + 36, 16, 1, 1, 16000, 32000, 2, 16, |pcm|))
    ensures Payload(WavBytes(pcm, 16000, 1, 16)) == pcm
  {
    var n := |pcm|;
    HeaderRoundTrip(pcm, 16000, 1, 16);
    RecorderRates();
    SmallMod(n + 36, TwoTo32);
    SmallMod(n, TwoTo32);
    assert 1 % TwoTo16 == 1 && 16000 % TwoTo32 == 16000 && 32000 % TwoTo32 == 32000 && 2 % TwoTo16 == 2;
  }

  lemma RecorderRates()
    ensures ByteRate(16000, 1, 16) == 32000 && BlockAlign(1, 16) == 2
  {
    assert Wrap32(16000) == 16000 && Wrap32(256000) == 256000 && Wrap32(16) == 16;
  }

  lemma SmallMod(x: int, m: int)
    requires 0 <= x < m
    ensures x % m == x
  {
  }

  /** Two payloads with the same format encode to the same WAV bytes only if
      they are equal. */
  lemma EncodingInjective(p: seq<Byte>, q: seq<Byte>, sampleRate: int, channels: int, bitsPerSample: int)
    requires WavBytes(p, sampleRate, channels, bitsPerSample) == WavBytes(q, sampleRate, channels, bitsPerSample)
    ensures p == q
  {
    HeaderRoundTrip(p, sampleRate, channels, bitsPerSample);
    HeaderRoundTrip(q, sampleRate, channels, bitsPerSample);
  }

  // ---------------------------------------------------------------------------
  // The in-place writers and the header construction of `saveAsWav`

  /** `writeInt`: stores the four little-endian bytes of an `Int` at `offset`
      and leaves every other byte of `header` alone. */
  method WriteInt(header: array<Byte>, offset: int, value: int)
    requires 0 <= offset && offset + 4 <= header.Length
    requires IsInt(value)
    modifies header
    ensures header[offset..offset + 4] == LE32(value)
    ensures forall i :: 0 <= i < header.Length && !(offset <= i < offset + 4) ==> header[i] == old(header[i])
  {
    header[offset] := value % 0x100;
    header[offset + 1] := (value / 0x100) % 0x100;
    header[offset + 2] := (value / 0x1_0000) % 0x100;
    header[offset + 3] := (value / 0x100_0000) % 0x100;
  }

  /** `writeShort`: stores the two little-endian bytes of a `Short` at `offset`
      (the `Int` is narrowed by `toShort()` at the call site; its low sixteen
      bits are what is stored either way). */
  method WriteShort(header: array<Byte>, offset: int, value: int)
    requires 0 <= offset && offset + 2 <= header.Length
    modifies header
    ensures header[offset..offset + 2] == LE16(value)
    ensures forall i :: 0 <= i < header.Length && !(offset <= i < offset + 2) ==> header[i] == old(header[i])
  {
    header[offset] := value % 0x100;
    header[offset + 1] := (value / 0x100) % 0x100;
  }

  /** The part of `saveAsWav` that fills bytes 12 to 35 of the header, the
      `fmt ` sub-chunk, leaving the other bytes alone. */
  method WriteFmtChunk(header: array<Byte>, channels: int, sampleRate: int, byteRate: int, blockAlign: int)
    requires header.Length == HeaderSize
    requires IsInt(sampleRate) && IsInt(byteRate)
    modifies header
    ensures header[12..36] == FmtChunk(channels, sampleRate, byteRate, blockAlign)
    ensures forall i :: 0 <= i < HeaderSize && !(12 <= i < 36) ==> header[i] == old(header[i])
  {
    WriteFmtFormat(header, channels);
    ghost var format := header[12..24];
    WriteFmtRates(header, sampleRate, byteRate, blockAlign);
    assert header[12..24] == format;
    assert header[12..36] == header[12..24] + header[24..36];
    assert FmtChunk(channels, sampleRate, byteRate, blockAlign)
        == FmtFormat(channels) + FmtRates(sampleRate, byteRate, blockAlign);
  }

  /** The first half of the `fmt ` sub-chunk. */
  function FmtFormat(channels: int): seq<Byte> {
    Tag('f', 'm', 't', ' ') + LE32(16) + LE16(1) + LE16(channels)
  }

  /** The second half of the `fmt ` sub-chunk. */
  function FmtRates(sampleRate: int, byteRate: int, blockAlign: int): seq<Byte> {
    LE32(sampleRate) + LE32(byteRate) + LE16(blockAlign) + LE16(16)
  }

  /** Bytes 12 to 23: the `fmt ` tag, the sub-chunk size 16, the PCM format
      code 1 and the channel count. */
  method WriteFmtFormat(header: array<Byte>, channels: int)
    requires header.Length == HeaderSize
    modifies header
    ensures header[12..24] == FmtFormat(channels)
    ensures forall i :: 0 <= i < HeaderSize && !(12 <= i < 24) ==> header[i] == old(header[i])
  {
    header[12], header[13], header[14], header[15] := 'f' as int, 'm' as int, 't' as int, ' ' as int;
    assert header[12..16] == Tag('f', 'm', 't', ' ');
    WriteInt(header, 16, 16);
    assert header[12..16] == Tag('f', 'm', 't', ' ');
    ghost var sized := header[12..20];
    WriteShort(header, 20, 1);
    assert header[12..20] == sized;
    ghost var coded := header[12..22];
    WriteShort(header, 22, channels);
    assert header[12..22] == coded;
    assert header[12..24] == header[12..16] + header[16..20] + header[20..22] + header[22..24];
  }

  /** Bytes 24 to 35: the sample rate, the byte rate, the block alignment
      and the constant 16 bits per sample. */
  method WriteFmtRates(header: array<Byte>, sampleRate: int, byteRate: int, blockAlign: int)
    requires header.Length == HeaderSize
    requires IsInt(sampleRate) && IsInt(byteRate)
    modifies header
    ensures header[24..36] == FmtRates(sampleRate, byteRate, blockAlign)
    ensures forall i :: 0 <= i < HeaderSize && !(24 <= i < 36) ==> header[i] == old(header[i])
  {
    WriteInt(header, 24, sampleRate);
    WriteInt(header, 28, byteRate);
    WriteShort(header, 32, blockAlign);
    WriteShort(header, 34, 16);
    assert header[24..36] == header[24..28] + header[28..32] + header[32..34] + header[34..36];
  }

  /** The part of `saveAsWav` that fills bytes 0 to 11 of the header, the
      RIFF chunk descriptor, leaving the other bytes alone. */
  method WriteRiffDescriptor(header: array<Byte>, riffSize: int)
    requires header.Length == HeaderSize
    requires IsInt(riffSize)
    modifies header
    ensures header[0..12] == Tag('R', 'I', 'F', 'F') + LE32(riffSize) + Tag('W', 'A', 'V', 'E')
    ensures forall i :: 12 <= i < HeaderSize ==> header[i] == old(header[i])
  {
    header[0], header[1], header[2], header[3] := 'R' as int, 'I' as int, 'F' as int, 'F' as int;
    WriteInt(header, 4, riffSize);
    header[8], header[9], header[10], header[11] := 'W' as int, 'A' as int, 'V' as int, 'E' as int;
    assert header[0..4] == Tag('R', 'I', 'F', 'F') && header[4..8] == LE32(riffSize);
    assert header[8..12] == Tag('W', 'A', 'V', 'E');
    assert header[0..12] == header[0..4] + header[4..8] + header[8..12];
  }

  /** The part of `saveAsWav` that fills bytes 36 to 43 of the header, the
      `data` sub-chunk header, leaving the other bytes alone. */
  method WriteDataHeader(header: array<Byte>, dataSize: int)
    requires header.Length == HeaderSize
    requires IsInt(dataSize)
    modifies header
    ensures header[36..44] == Tag('d', 'a', 't', 'a') + LE32(dataSize)
    ensures forall i :: 0 <= i < 36 ==> header[i] == old(header[i])
  {
    header[36], header[37], header[38], header[39] := 'd' as int, 'a' as int, 't' as int, 'a' as int;
    WriteInt(header, 40, dataSize);
    assert header[36..40] == Tag('d', 'a', 't', 'a') && header[40..44] == LE32(dataSize);
    assert header[36..44] == header[36..40] + header[40..44];
  }

  /** The three writers of `saveAsWav` in sequence: a 44-byte header filled
      in place holds the canonical layout of the given fields. */
  method FillHeader(header: array<Byte>, riffSize: int, channels: int, sampleRate: int, byteRate: int,
                    blockAlign: int, dataSize: int)
    requires header.Length == HeaderSize
    requires IsInt(riffSize) && IsInt(sampleRate) && IsInt(byteRate) && IsInt(dataSize)
    modifies header
    ensures header[..] == Layout(riffSize, channels, sampleRate, byteRate, blockAlign, dataSize)
  {
    WriteRiffDescriptor(header, riffSize);
    ghost var riff := header[0..12];
    WriteFmtChunk(header, channels, sampleRate, byteRate, blockAlign);
    assert forall i :: 0 <= i < 12 ==> header[i] == riff[i];
    assert header[0..12] == riff;
    ghost var fmt := header[12..36];
    WriteDataHeader(header, dataSize);
    assert forall i :: 0 <= i < 12 ==> header[i] == riff[i];
    assert forall i :: 12 <= i < 36 ==> header[i] == fmt[i - 12];
    assert header[0..12] == riff && header[12..36] == fmt;
    ghost var h := header[..];
    assert h == header[0..12] + header[12..36] + header[36..44];
    LayoutFromParts(h, riffSize, channels, sampleRate, byteRate, blockAlign, dataSize);
  }

  /** The byte-layout part of `saveAsWav`: fills a fresh 44-byte header in
      place and returns it followed by the payload, which is what is written
      to the output stream. */
  method EncodeWav(pcm: seq<Byte>, sampleRate: int, channels: int, bitsPerSample: int) returns (bytes: seq<Byte>)
    requires |pcm| <= IntMax
    requires IsInt(sampleRate) && IsInt(channels) && IsInt(bitsPerSample)
    ensures bytes == WavBytes(pcm, sampleRate, channels, bitsPerSample)
  {
    var byteRate := ByteRate(sampleRate, channels, bitsPerSample);
    var blockAlign := BlockAlign(channels, bitsPerSample);
    var dataSize := |pcm|;
    var riffSize := Wrap32(dataSize + 36);
    var header := new Byte[HeaderSize];
    FillHeader(header, riffSize, channels, sampleRate, byteRate, blockAlign, dataSize);
    bytes := header[..] + pcm;
  }
}
