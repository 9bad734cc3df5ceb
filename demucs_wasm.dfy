/**
 * The in-browser separator of `demucsWasm.ts`: the model-loading flags of
 * `DemucsSeparator`, and `AudioProcessor.audioBufferToBlob`, which writes an
 * audio buffer as a 16-bit PCM RIFF/WAVE file through a `DataView` over a
 * fresh `ArrayBuffer`.
 *
 * The buffer is an `array<byte>`; each `DataView` setter is a method that
 * writes its bytes little-endian after the ECMAScript conversion (ToUint16,
 * ToUint32, ToInt16: reduction modulo 2^16 or 2^32).  Channel data are
 * `real`s; the clamp to [-1, 1], the scaling by 0x7FFF and the truncation of
 * `setInt16` are written out in `Quantize`.
 */
module DemucsWasm {
  import opened Arith

  type byte = x: int | 0 <= x < 256

  const Two16: int := 0x1_0000
  const Two32: int := 0x1_0000_0000

  /** Header length, and offset of the first sample. */
  const HeaderSize: nat := 44

  // ---------------------------------------------------------------------
  // Little-endian encodings written by the DataView setters
  // ---------------------------------------------------------------------

  /** `setUint16(_, v, true)`: v reduced modulo 2^16, low byte first. */
  function U16LE(v: int): (b: seq<byte>)
    ensures |b| == 2
  {
    var w := v % Two16;
    [w % 256, w / 256]
  }

  /** `setUint32(_, v, true)`: v reduced modulo 2^32, low byte first (so the low half first). */
  function U32LE(v: int): (b: seq<byte>)
    ensures |b| == 4
  {
    var w := v % Two32;
    U16LE(w % Two16) + U16LE(w / Two16)
  }

  /** `setInt16(_, v, true)` on an integer: the two's complement bits are those of v modulo 2^16. */
  function I16LE(v: int): (b: seq<byte>)
    ensures |b| == 2
  {
    U16LE(v)
  }

  /** `setUint8(_, s.charCodeAt(i))` for every character: each code modulo 256. */
  function Ascii(s: string): (b: seq<byte>)
    ensures |b| == |s|
    ensures forall i :: 0 <= i < |s| && s[i] as int < 256 ==> b[i] == s[i] as int
  {
    seq(|s|, i requires 0 <= i < |s| => (s[i] as int) % 256)
  }

  // ---------------------------------------------------------------------
  // Little-endian readers, the partners of the encodings
  // ---------------------------------------------------------------------

  function ReadU16(bs: seq<byte>, at: nat): int
    requires at + 2 <= |bs|
  {
    var b0: int, b1: int := bs[at], bs[at + 1];
    b0 + 256 * b1
  }

  function ReadU32(bs: seq<byte>, at: nat): int
    requires at + 4 <= |bs|
  {
    var b0: int, b1: int, b2: int, b3: int := bs[at], bs[at + 1], bs[at + 2], bs[at + 3];
    b0 + 256 * b1 + 0x1_0000 * b2 + 0x100_0000 * b3
  }

  /** Reads a two's complement 16-bit value. */
  function ReadI16(bs: seq<byte>, at: nat): int
    requires at + 2 <= |bs|
  {
    var u := ReadU16(bs, at);
    if u >= 0x8000 then u - Two16 else u
  }

  lemma U16RoundTrip(v: int)
    ensures ReadU16(U16LE(v), 0) == v % Two16
    ensures 0 <= v < Two16 ==> ReadU16(U16LE(v), 0) == v
  {
    var w := v % Two16;
    DivModUnique(w, 256, w / 256, w % 256);
  }

  lemma U32RoundTrip(v: int)
    ensures ReadU32(U32LE(v), 0) == v % Two32
    ensures 0 <= v < Two32 ==> ReadU32(U32LE(v), 0) == v
  {
    var w := v % Two32;
    var lo, hi := w % Two16, w / Two16;
    DivLt(w, Two16, Two16);
    U16RoundTrip(lo);
    U16RoundTrip(hi);
    assert ReadU32(U32LE(v), 0) == ReadU16(U16LE(lo), 0) + Two16 * ReadU16(U16LE(hi), 0);
  }

  lemma I16RoundTrip(v: int)
    requires -0x8000 <= v < 0x8000
    ensures ReadI16(I16LE(v), 0) == v
  {
    U16RoundTrip(v);
  }

  // ---------------------------------------------------------------------
  // The WAV layout
  // ---------------------------------------------------------------------

  /** Bytes of sample data: two per sample, for every frame and channel. */
  function DataSize(channels: nat, length: nat): (n: nat)
    ensures n % 2 == 0
    ensures channels > 0 ==> n / (2 * channels) == length
  {
    var n := length * channels * 2;
    DivModUnique(n, 2, length * channels, 0);
    if channels > 0 then
      assert n == length * (2 * channels) + 0;
      DivModUnique(n, 2 * channels, length, 0);
      n
    else n
  }

  /** The RIFF descriptor: tag, size of the rest of the file, form type. */
  function RiffChunk(dataSize: nat): (r: seq<byte>)
    ensures |r| == 12
  {
    Ascii("RIFF") + U32LE(36 + dataSize) + Ascii("WAVE")
  }

  /**
   * The format chunk: tag, chunk size 16, PCM (1), channel count, sample
   * rate, byte rate, block size, 16 bits per sample.
   */
  function FmtChunk(channels: nat, sampleRate: nat): (f: seq<byte>)
    ensures |f| == 24
  {
    Ascii("fmt ") + U32LE(16) + FmtBody(channels, sampleRate)
  }

  /** The 16 bytes of the format chunk after its tag and size. */
  function FmtBody(channels: nat, sampleRate: nat): (f: seq<byte>)
    ensures |f| == 16
  {
    (U16LE(1) + U16LE(channels))
    + (U32LE(sampleRate) + U32LE(sampleRate * channels * 2))
    + (U16LE(channels * 2) + U16LE(16))
  }

  /** The data chunk header: tag and size of the samples that follow. */
  function DataChunkHeader(dataSize: nat): (d: seq<byte>)
    ensures |d| == 8
  {
    Ascii("data") + U32LE(dataSize)
  }

  /** The 44-byte RIFF/WAVE header. */
  function Header(channels: nat, length: nat, sampleRate: nat): (h: seq<byte>)
    ensures |h| == HeaderSize
  {
    RiffChunk(DataSize(channels, length)) + FmtChunk(channels, sampleRate)
    + DataChunkHeader(DataSize(channels, length))
  }

  /**
   * `Math.max(-1, Math.min(1, x)) * 0x7FFF` as `setInt16` stores it: the
   * conversion truncates toward zero.
   */
  function Quantize(x: real): (q: int)
    ensures -0x7FFF <= q <= 0x7FFF
    ensures x >= 1.0 ==> q == 0x7FFF
    ensures x <= -1.0 ==> q == -0x7FFF
    ensures (q > 0 ==> x > 0.0) && (q < 0 ==> x < 0.0)
    ensures 0.0 <= x < 1.0 ==> q as real <= x * 32767.0 < q as real + 1.0
    ensures -1.0 < x < 0.0 ==> q as real - 1.0 < x * 32767.0 <= q as real
  {
    var clamped := if x < -1.0 then -1.0 else if x > 1.0 then 1.0 else x;
    var scaled := clamped * 32767.0;
    if scaled >= 0.0 then scaled.Floor else -((-scaled).Floor)
  }

  /** Channel data of an AudioBuffer: every channel holds `length` samples. */
  predicate WellFormed(chs: seq<seq<real>>, length: nat)
  {
    forall c :: 0 <= c < |chs| ==> |chs[c]| == length
  }

  /**
   * Byte `j` of the data chunk: samples are interleaved frame by frame, so
   * the pair `j / 2` is frame `(j / 2) / n`, channel `(j / 2) % n`.
   */
  function SampleByte(chs: seq<seq<real>>, length: nat, j: nat): byte
    requires WellFormed(chs, length)
    requires j < DataSize(|chs|, length)
  {
    var n := |chs|;
    var k := j / 2;
    DivLt(j, 2, length * n);
    DivLt(k, n, length);
    I16LE(Quantize(chs[k % n][k / n]))[j % 2]
  }

  /** The whole file `audioBufferToBlob` produces. */
  function WavBytes(chs: seq<seq<real>>, length: nat, sampleRate: nat): (w: seq<byte>)
    requires WellFormed(chs, length)
    ensures |w| == HeaderSize + DataSize(|chs|, length)
    ensures w[..HeaderSize] == Header(|chs|, length, sampleRate)
  {
    Header(|chs|, length, sampleRate)
      + seq(DataSize(|chs|, length), j requires 0 <= j < DataSize(|chs|, length) => SampleByte(chs, length, j))
  }

  /** A value below the modulus is its own residue. */
  lemma Fits(x: int, m: int)
    requires 0 <= x < m
    ensures x % m == x
  {
  }

  lemma DivLt(k: nat, n: nat, bound: nat)
    requires k < bound * n
    ensures n > 0 && k / n < bound
  {
  }

  lemma FrameBound(i: nat, c: nat, n: nat, length: nat)
    requires i < length && c < n
    ensures i * n + c + 1 <= length * n
  {
    assert (i + 1) * n <= length * n;
  }

  // ---------------------------------------------------------------------
  // What a WAV reader finds in the file
  // ---------------------------------------------------------------------

  /** A read inside an embedded field reads that field. */
  lemma ReadWithin(bs: seq<byte>, at: nat, part: seq<byte>, k: nat)
    requires at + |part| <= |bs| && bs[at..at + |part|] == part
    ensures k + 2 <= |part| ==> ReadU16(bs, at + k) == ReadU16(part, k)
    ensures k + 4 <= |part| ==> ReadU32(bs, at + k) == ReadU32(part, k)
  {
    if k + 2 <= |part| {
      assert bs[at + k] == part[k] && bs[at + k + 1] == part[k + 1];
    }
    if k + 4 <= |part| {
      assert bs[at + k + 2] == part[k + 2] && bs[at + k + 3] == part[k + 3];
    }
  }

  /** The RIFF size field holds 36 plus the data size, modulo 2^32. */
  lemma RiffFields(dataSize: nat)
    ensures ReadU32(RiffChunk(dataSize), 4) == (36 + dataSize) % Two32
  {
    var r := RiffChunk(dataSize);
    U32RoundTrip(36 + dataSize);
    assert r[4..8] == U32LE(36 + dataSize);
    ReadWithin(r, 4, U32LE(36 + dataSize), 0);
  }

  /** Two adjacent 16-bit fields read back as written. */
  lemma U16PairFields(a: int, b: int)
    ensures ReadU16(U16LE(a) + U16LE(b), 0) == a % Two16
    ensures ReadU16(U16LE(a) + U16LE(b), 2) == b % Two16
  {
    var s := U16LE(a) + U16LE(b);
    U16RoundTrip(a);
    U16RoundTrip(b);
    assert s[0] == U16LE(a)[0] && s[1] == U16LE(a)[1];
    assert s[2] == U16LE(b)[0] && s[3] == U16LE(b)[1];
  }

  /** Two adjacent 32-bit fields read back as written. */
  lemma U32PairFields(a: int, b: int)
    ensures ReadU32(U32LE(a) + U32LE(b), 0) == a % Two32
    ensures ReadU32(U32LE(a) + U32LE(b), 4) == b % Two32
  {
    var s := U32LE(a) + U32LE(b);
    U32RoundTrip(a);
    U32RoundTrip(b);
    ReadWithin(s, 0, U32LE(a), 0);
    assert s[4..8] == U32LE(b);
    ReadWithin(s, 4, U32LE(b), 0);
  }

  /** The fields of the format chunk after its tag and size. */
  lemma FmtBodyFields(channels: nat, sampleRate: nat)
    ensures var f := FmtBody(channels, sampleRate);
      && ReadU16(f, 0) == 1
      && ReadU16(f, 2) == channels % Two16
      && ReadU32(f, 4) == sampleRate % Two32
      && ReadU32(f, 8) == (sampleRate * channels * 2) % Two32
      && ReadU16(f, 12) == (channels * 2) % Two16
      && ReadU16(f, 14) == 16
  {
    var f := FmtBody(channels, sampleRate);
    var p1 := U16LE(1) + U16LE(channels);
    var p2 := U32LE(sampleRate) + U32LE(sampleRate * channels * 2);
    var p3 := U16LE(channels * 2) + U16LE(16);
    U16PairFields(1, channels);
    U32PairFields(sampleRate, sampleRate * channels * 2);
    U16PairFields(channels * 2, 16);
    assert f[0..4] == p1 && f[4..12] == p2 && f[12..16] == p3;
    ReadWithin(f, 0, p1, 0);
    ReadWithin(f, 0, p1, 2);
    ReadWithin(f, 4, p2, 0);
    ReadWithin(f, 4, p2, 4);
    ReadWithin(f, 12, p3, 0);
    ReadWithin(f, 12, p3, 2);
  }

  /** Every field of the format chunk reads back as written. */
  lemma FmtFields(channels: nat, sampleRate: nat)
    ensures var f := FmtChunk(channels, sampleRate);
      && ReadU32(f, 4) == 16
      && ReadU16(f, 8) == 1
      && ReadU16(f, 10) == channels % Two16
      && ReadU32(f, 12) == sampleRate % Two32
      && ReadU32(f, 16) == (sampleRate * channels * 2) % Two32
      && ReadU16(f, 20) == (channels * 2) % Two16
      && ReadU16(f, 22) == 16
  {
    var f := FmtChunk(channels, sampleRate);
    var body := FmtBody(channels, sampleRate);
    U32RoundTrip(16);
    assert f[4..8] == U32LE(16) && f[8..24] == body;
    ReadWithin(f, 4, U32LE(16), 0);
    FmtBodyFields(channels, sampleRate);
    ReadWithin(f, 8, body, 0);
    ReadWithin(f, 8, body, 2);
    ReadWithin(f, 8, body, 4);
    ReadWithin(f, 8, body, 8);
    ReadWithin(f, 8, body, 12);
    ReadWithin(f, 8, body, 14);
  }

  /** The data size field holds the data size modulo 2^32. */
  lemma DataChunkFields(dataSize: nat)
    ensures ReadU32(DataChunkHeader(dataSize), 4) == dataSize % Two32
  {
    U32RoundTrip(dataSize);
    ReadWithin(DataChunkHeader(dataSize), 4, U32LE(dataSize), 0);
  }

  /** The three chunk headers sit at offsets 0, 12 and 36 of the file. */
  lemma ChunksInPlace(chs: seq<seq<real>>, length: nat, sampleRate: nat)
    requires WellFormed(chs, length)
    ensures var w := WavBytes(chs, length, sampleRate);
      && w[0..12] == RiffChunk(DataSize(|chs|, length))
      && w[12..36] == FmtChunk(|chs|, sampleRate)
      && w[36..44] == DataChunkHeader(DataSize(|chs|, length))
  {
    var w := WavBytes(chs, length, sampleRate);
    assert w[..HeaderSize] == Header(|chs|, length, sampleRate);
  }

  /** The chunk tags sit at offsets 0, 8, 12 and 36. */
  lemma TagsInPlace(chs: seq<seq<real>>, length: nat, sampleRate: nat)
    requires WellFormed(chs, length)
    ensures var w := WavBytes(chs, length, sampleRate);
      w[0..4] == Ascii("RIFF") && w[8..12] == Ascii("WAVE")
      && w[12..16] == Ascii("fmt ") && w[36..40] == Ascii("data")
  {
    ChunksInPlace(chs, length, sampleRate);
    var w := WavBytes(chs, length, sampleRate);
    assert w[0..4] == w[0..12][0..4];
    assert w[8..12] == w[0..12][8..12];
    assert w[12..16] == w[12..36][0..4];
    assert w[36..40] == w[36..44][0..4];
  }

  /** The header fields, at their absolute offsets. */
  lemma HeaderFields(channels: nat, length: nat, sampleRate: nat)
    ensures var h := Header(channels, length, sampleRate);
      && ReadU32(h, 4) == (36 + DataSize(channels, length)) % Two32
      && ReadU32(h, 16) == 16
      && ReadU16(h, 20) == 1
      && ReadU16(h, 22) == channels % Two16
      && ReadU32(h, 24) == sampleRate % Two32
      && ReadU32(h, 28) == (sampleRate * channels * 2) % Two32
      && ReadU16(h, 32) == (channels * 2) % Two16
      && ReadU16(h, 34) == 16
      && ReadU32(h, 40) == DataSize(channels, length) % Two32
  {
    var size := DataSize(channels, length);
    var h := Header(channels, length, sampleRate);
    var f := FmtChunk(channels, sampleRate);
    RiffFields(size);
    FmtFields(channels, sampleRate);
    DataChunkFields(size);
    assert h[0..12] == RiffChunk(size);
    assert h[12..36] == f;
    assert h[36..44] == DataChunkHeader(size);
    ReadWithin(h, 0, RiffChunk(size), 4);
    ReadWithin(h, 12, f, 4);
    ReadWithin(h, 12, f, 8);
    ReadWithin(h, 12, f, 10);
    ReadWithin(h, 12, f, 12);
    ReadWithin(h, 12, f, 16);
    ReadWithin(h, 12, f, 20);
    ReadWithin(h, 12, f, 22);
    ReadWithin(h, 36, DataChunkHeader(size), 4);
  }

  /** The header fields, read from any bytes that start with the header. */
  lemma HeaderReadsBack(bs: seq<byte>, channels: nat, length: nat, sampleRate: nat)
    requires HeaderSize <= |bs| && bs[..HeaderSize] == Header(channels, length, sampleRate)
    ensures && ReadU32(bs, 4) == (36 + DataSize(channels, length)) % Two32
      && ReadU32(bs, 16) == 16
      && ReadU16(bs, 20) == 1
      && ReadU16(bs, 22) == channels % Two16
      && ReadU32(bs, 24) == sampleRate % Two32
      && ReadU32(bs, 28) == (sampleRate * channels * 2) % Two32
      && ReadU16(bs, 32) == (channels * 2) % Two16
      && ReadU16(bs, 34) == 16
      && ReadU32(bs, 40) == DataSize(channels, length) % Two32
  {
    var h := Header(channels, length, sampleRate);
    HeaderFields(channels, length, sampleRate);
    assert bs[0..HeaderSize] == h;
    ReadWithin(bs, 0, h, 4);
    ReadWithin(bs, 0, h, 16);
    ReadWithin(bs, 0, h, 20);
    ReadWithin(bs, 0, h, 22);
    ReadWithin(bs, 0, h, 24);
    ReadWithin(bs, 0, h, 28);
    ReadWithin(bs, 0, h, 32);
    ReadWithin(bs, 0, h, 34);
    ReadWithin(bs, 0, h, 40);
  }

  /**
   * Without wrap-around, in a file of header plus data the RIFF size is the
   * file length less 8 and the data size is what follows the header.
   */
  lemma SizesReadBack(bs: seq<byte>, channels: nat, length: nat, sampleRate: nat)
    requires |bs| == HeaderSize + DataSize(channels, length)
    requires bs[..HeaderSize] == Header(channels, length, sampleRate)
    requires 36 + DataSize(channels, length) < Two32
    ensures ReadU32(bs, 4) == |bs| - 8
    ensures ReadU32(bs, 40) == |bs| - HeaderSize
  {
    HeaderReadsBack(bs, channels, length, sampleRate);
    Fits(36 + DataSize(channels, length), Two32);
    Fits(DataSize(channels, length), Two32);
  }

  /** Without wrap-around, the channel count and block size hold exactly the values written. */
  lemma ChannelsReadBack(bs: seq<byte>, channels: nat, length: nat, sampleRate: nat)
    requires HeaderSize <= |bs| && bs[..HeaderSize] == Header(channels, length, sampleRate)
    requires channels * 2 < Two16
    ensures ReadU16(bs, 22) == channels
    ensures ReadU16(bs, 32) == channels * 2
  {
    HeaderReadsBack(bs, channels, length, sampleRate);
    Fits(channels, Two16);
    Fits(channels * 2, Two16);
  }

  /** Without wrap-around, the sample rate field holds exactly the rate written. */
  lemma SampleRateReadBack(bs: seq<byte>, channels: nat, length: nat, sampleRate: nat)
    requires HeaderSize <= |bs| && bs[..HeaderSize] == Header(channels, length, sampleRate)
    requires sampleRate < Two32
    ensures ReadU32(bs, 24) == sampleRate
  {
    assert ReadU32(bs, 24) == sampleRate % Two32 by {
      HeaderReadsBack(bs, channels, length, sampleRate);
    }
    Fits(sampleRate, Two32);
  }

  /** Without wrap-around, the byte rate field holds exactly rate times block size. */
  lemma ByteRateReadBack(bs: seq<byte>, channels: nat, length: nat, sampleRate: nat)
    requires HeaderSize <= |bs| && bs[..HeaderSize] == Header(channels, length, sampleRate)
    requires sampleRate * channels * 2 < Two32
    ensures ReadU32(bs, 28) == sampleRate * channels * 2
  {
    var byteRate := sampleRate * channels * 2;
    assert ReadU32(bs, 28) == byteRate % Two32 by {
      HeaderReadsBack(bs, channels, length, sampleRate);
    }
    Fits(byteRate, Two32);
  }

  /**
   * `bs` holds the 16-bit little-endian sample of channel `c` in frame `i`
   * at offset `44 + 2 * (i * n + c)`.
   */
  ghost predicate SampleStored(bs: seq<byte>, chs: seq<seq<real>>, length: nat, i: nat, c: nat)
    requires WellFormed(chs, length) && i < length && c < |chs|
  {
    var at := HeaderSize + 2 * (i * |chs| + c);
    at + 2 <= |bs| && bs[at] == I16LE(Quantize(chs[c][i]))[0] && bs[at + 1] == I16LE(Quantize(chs[c][i]))[1]
  }

  /** Byte `j` of the data chunk sits right after the header. */
  lemma DataByte(chs: seq<seq<real>>, length: nat, sampleRate: nat, j: nat)
    requires WellFormed(chs, length) && j < DataSize(|chs|, length)
    ensures WavBytes(chs, length, sampleRate)[HeaderSize + j] == SampleByte(chs, length, j)
  {
  }

  /** Bytes `2k` and `2k + 1` of the data chunk are the two halves of sample pair `k`. */
  lemma SampleBytesOf(chs: seq<seq<real>>, length: nat, i: nat, c: nat, b: nat, j: nat)
    requires WellFormed(chs, length) && i < length && c < |chs| && b < 2
    requires j == 2 * (i * |chs| + c) + b
    ensures j < DataSize(|chs|, length)
    ensures SampleByte(chs, length, j) == I16LE(Quantize(chs[c][i]))[b]
  {
    var n := |chs|;
    var k := i * n + c;
    FrameBound(i, c, n, length);
    DivModUnique(k, n, i, c);
    DivModUnique(j, 2, k, b);
  }

  lemma SampleAt(chs: seq<seq<real>>, length: nat, sampleRate: nat, i: nat, c: nat)
    requires WellFormed(chs, length)
    requires i < length && c < |chs|
    ensures SampleStored(WavBytes(chs, length, sampleRate), chs, length, i, c)
  {
    var j := 2 * (i * |chs| + c);
    SampleBytesOf(chs, length, i, c, 0, j);
    SampleBytesOf(chs, length, i, c, 1, j + 1);
    DataByte(chs, length, sampleRate, j);
    DataByte(chs, length, sampleRate, j + 1);
  }

  /** A stored sample reads back as the quantised value. */
  lemma StoredSampleReadsBack(bs: seq<byte>, chs: seq<seq<real>>, length: nat, i: nat, c: nat)
    requires WellFormed(chs, length) && i < length && c < |chs|
    requires SampleStored(bs, chs, length, i, c)
    ensures var at := HeaderSize + 2 * (i * |chs| + c);
      at + 2 <= |bs| && ReadI16(bs, at) == Quantize(chs[c][i])
  {
    I16RoundTrip(Quantize(chs[c][i]));
  }

  /** Reading the sample back recovers the quantised value. */
  lemma SampleReadBack(chs: seq<seq<real>>, length: nat, sampleRate: nat, i: nat, c: nat)
    requires WellFormed(chs, length)
    requires i < length && c < |chs|
    ensures var at := HeaderSize + 2 * (i * |chs| + c);
      at + 2 <= |WavBytes(chs, length, sampleRate)|
      && ReadI16(WavBytes(chs, length, sampleRate), at) == Quantize(chs[c][i])
  {
    SampleAt(chs, length, sampleRate, i, c);
    StoredSampleReadsBack(WavBytes(chs, length, sampleRate), chs, length, i, c);
  }

  // ---------------------------------------------------------------------
  // audioBufferToBlob over a byte array
  // ---------------------------------------------------------------------

  /** `DataView.setUint16(offset, v, true)`. */
  method SetUint16(view: array<byte>, offset: nat, v: int)
    requires offset + 2 <= view.Length
    modifies view
    ensures view[offset..offset + 2] == U16LE(v)
    ensures forall k :: 0 <= k < view.Length && (k < offset || offset + 2 <= k) ==> view[k] == old(view[k])
  {
    var b := U16LE(v);
    view[offset] := b[0];
    view[offset + 1] := b[1];
  }

  /** `DataView.setInt16(offset, v, true)`. */
  method SetInt16(view: array<byte>, offset: nat, v: int)
    requires offset + 2 <= view.Length
    modifies view
    ensures view[offset] == I16LE(v)[0] && view[offset + 1] == I16LE(v)[1]
    ensures forall k :: 0 <= k < view.Length && (k < offset || offset + 2 <= k) ==> view[k] == old(view[k])
  {
    var b := I16LE(v);
    view[offset] := b[0];
    view[offset + 1] := b[1];
  }

  /** `DataView.setUint32(offset, v, true)`. */
  method SetUint32(view: array<byte>, offset: nat, v: int)
    requires offset + 4 <= view.Length
    modifies view
    ensures view[offset..offset + 4] == U32LE(v)
    ensures forall k :: 0 <= k < view.Length && (k < offset || offset + 4 <= k) ==> view[k] == old(view[k])
  {
    var b := U32LE(v);
    view[offset] := b[0];
    view[offset + 1] := b[1];
    view[offset + 2] := b[2];
    view[offset + 3] := b[3];
  }

  /** The `writeString` closure: one `setUint8` per character code. */
  method WriteString(view: array<byte>, offset: nat, s: string)
    requires offset + |s| <= view.Length
    modifies view
    ensures view[offset..offset + |s|] == Ascii(s)
    ensures forall k :: 0 <= k < view.Length && (k < offset || offset + |s| <= k) ==> view[k] == old(view[k])
  {
    var i := 0;
    while i < |s|
      invariant 0 <= i <= |s|
      invariant view[offset..offset + i] == Ascii(s)[..i]
      invariant forall k :: 0 <= k < view.Length && (k < offset || offset + i <= k) ==> view[k] == old(view[k])
    {
      view[offset + i] := (s[i] as int) % 256;
      i := i + 1;
    }
  }

  /** The writes at offsets 0 to 11: the RIFF descriptor. */
  method WriteRiffChunk(view: array<byte>, dataSize: nat)
    requires HeaderSize <= view.Length
    modifies view
    ensures view[0..12] == RiffChunk(dataSize)
    ensures forall k :: 12 <= k < view.Length ==> view[k] == old(view[k])
  {
    WriteString(view, 0, "RIFF");
    SetUint32(view, 4, 36 + dataSize);
    assert view[0..8] == Ascii("RIFF") + U32LE(36 + dataSize);
    WriteString(view, 8, "WAVE");
    assert view[0..12] == view[0..8] + view[8..12];
  }

  /** The writes at offsets 12 to 35: the format chunk. */
  method WriteFmtChunk(view: array<byte>, channels: nat, sampleRate: nat)
    requires HeaderSize <= view.Length
    modifies view
    ensures view[12..36] == FmtChunk(channels, sampleRate)
    ensures forall k :: 0 <= k < view.Length && (k < 12 || 36 <= k) ==> view[k] == old(view[k])
  {
    WriteString(view, 12, "fmt ");
    SetUint32(view, 16, 16);
    assert view[12..20] == Ascii("fmt ") + U32LE(16);
    WriteFmtBody(view, channels, sampleRate);
    assert view[12..36] == view[12..20] + view[20..36];
  }

  /** The writes at offsets 20 to 35: format, channels, rates, block size, bit depth. */
  method WriteFmtBody(view: array<byte>, channels: nat, sampleRate: nat)
    requires HeaderSize <= view.Length
    modifies view
    ensures view[20..36] == FmtBody(channels, sampleRate)
    ensures forall k :: 0 <= k < view.Length && (k < 20 || 36 <= k) ==> view[k] == old(view[k])
  {
    SetUint16(view, 20, 1);
    SetUint16(view, 22, channels);
    assert view[20..24] == U16LE(1) + U16LE(channels);
    SetUint32(view, 24, sampleRate);
    SetUint32(view, 28, sampleRate * channels * 2);
    assert view[24..32] == U32LE(sampleRate) + U32LE(sampleRate * channels * 2);
    SetUint16(view, 32, channels * 2);
    SetUint16(view, 34, 16);
    assert view[32..36] == U16LE(channels * 2) + U16LE(16);
    assert view[20..36] == view[20..24] + view[24..32] + view[32..36];
  }

  /** The writes at offsets 36 to 43: the data chunk header. */
  method WriteDataChunkHeader(view: array<byte>, dataSize: nat)
    requires HeaderSize <= view.Length
    modifies view
    ensures view[36..44] == DataChunkHeader(dataSize)
    ensures forall k :: 0 <= k < view.Length && (k < 36 || 44 <= k) ==> view[k] == old(view[k])
  {
    WriteString(view, 36, "data");
    SetUint32(view, 40, dataSize);
    assert view[36..44] == view[36..40] + view[40..44];
  }

  /** The header writes of `audioBufferToBlob`, in the order of the source. */
  method WriteHeader(view: array<byte>, channels: nat, length: nat, sampleRate: nat)
    requires HeaderSize <= view.Length
    modifies view
    ensures view[..HeaderSize] == Header(channels, length, sampleRate)
    ensures forall k :: HeaderSize <= k < view.Length ==> view[k] == old(view[k])
  {
    var size := DataSize(channels, length);
    WriteRiffChunk(view, size);
    WriteFmtChunk(view, channels, sampleRate);
    WriteDataChunkHeader(view, size);
    assert view[..HeaderSize] == view[0..12] + view[12..36] + view[36..44];
  }

  /** The first `upTo` bytes of `view` are those of `wav`. */
  ghost predicate Agrees(view: array<byte>, wav: seq<byte>, upTo: nat)
    reads view
  {
    upTo <= view.Length && upTo <= |wav| && forall j :: 0 <= j < upTo ==> view[j] == wav[j]
  }

  /** `bs` is a file of the right length holding every sample of every frame. */
  ghost predicate Interleaved(bs: seq<byte>, chs: seq<seq<real>>, length: nat)
    requires WellFormed(chs, length)
  {
    && |bs| == HeaderSize + DataSize(|chs|, length)
    && forall i, c :: 0 <= i < length && 0 <= c < |chs| ==> SampleStored(bs, chs, length, i, c)
  }

  lemma WavInterleaved(chs: seq<seq<real>>, length: nat, sampleRate: nat)
    requires WellFormed(chs, length)
    ensures Interleaved(WavBytes(chs, length, sampleRate), chs, length)
  {
    forall i, c | 0 <= i < length && 0 <= c < |chs|
      ensures SampleStored(WavBytes(chs, length, sampleRate), chs, length, i, c)
    {
      SampleAt(chs, length, sampleRate, i, c);
    }
  }

  /** One `setInt16` of the inner loop: the sample of channel `c` in frame `i`. */
  method WriteSample(view: array<byte>, ghost wav: seq<byte>, chs: seq<seq<real>>, length: nat, i: nat, c: nat, at: nat)
    requires WellFormed(chs, length) && Interleaved(wav, chs, length) && view.Length == |wav|
    requires i < length && c < |chs| && at == HeaderSize + 2 * (i * |chs| + c)
    requires Agrees(view, wav, at)
    modifies view
    ensures Agrees(view, wav, at + 2)
  {
    assert SampleStored(wav, chs, length, i, c);
    SetInt16(view, at, Quantize(chs[c][i]));
  }

  /** The inner loop of `audioBufferToBlob`: one sample per channel for frame `i`. */
  method WriteFrame(view: array<byte>, ghost wav: seq<byte>, chs: seq<seq<real>>, length: nat, i: nat, offset: nat)
      returns (next: nat)
    requires WellFormed(chs, length) && Interleaved(wav, chs, length) && view.Length == |wav|
    requires i < length && offset == HeaderSize + 2 * (i * |chs|)
    requires Agrees(view, wav, offset)
    modifies view
    ensures next == offset + 2 * |chs|
    ensures Agrees(view, wav, next)
  {
    next := offset;
    var c := 0;
    while c < |chs|
      invariant 0 <= c <= |chs|
      invariant next == HeaderSize + 2 * (i * |chs| + c)
      invariant Agrees(view, wav, next)
    {
      WriteSample(view, wav, chs, length, i, c, next);
      next := next + 2;
      c := c + 1;
    }
  }

  /** The outer loop of `audioBufferToBlob`: every frame, after the header. */
  method WriteFrames(view: array<byte>, ghost wav: seq<byte>, chs: seq<seq<real>>, length: nat)
    requires WellFormed(chs, length) && Interleaved(wav, chs, length) && view.Length == |wav|
    requires Agrees(view, wav, HeaderSize)
    modifies view
    ensures Agrees(view, wav, view.Length)
  {
    var n := |chs|;
    var offset := HeaderSize;
    var i := 0;
    while i < length
      invariant 0 <= i <= length
      invariant offset == HeaderSize + 2 * (i * n)
      invariant Agrees(view, wav, offset)
    {
      offset := WriteFrame(view, wav, chs, length, i, offset);
      assert i * n + n == (i + 1) * n;
      i := i + 1;
    }
    assert offset == view.Length;
  }

  /**
   * `AudioProcessor.audioBufferToBlob`: a zeroed buffer of
   * `44 + length * numberOfChannels * 2` bytes, the header, then one
   * 16-bit sample per channel per frame, frame by frame.  The Blob wrapper
   * is the returned array.
   */
  method AudioBufferToBlob(chs: seq<seq<real>>, length: nat, sampleRate: nat) returns (view: array<byte>)
    requires WellFormed(chs, length)
    ensures view.Length == HeaderSize + length * |chs| * 2
    ensures view[..] == WavBytes(chs, length, sampleRate)
  {
    var n := |chs|;
    view := new byte[HeaderSize + length * n * 2](_ => 0);
    ghost var wav := WavBytes(chs, length, sampleRate);
    WavInterleaved(chs, length, sampleRate);
    WriteHeader(view, n, length, sampleRate);
    assert view[..HeaderSize] == wav[..HeaderSize];
    assert Agrees(view, wav, HeaderSize);
    WriteFrames(view, wav, chs, length);
    assert view[..] == wav;
  }

  // ---------------------------------------------------------------------
  // DemucsSeparator.loadModel
  // ---------------------------------------------------------------------

  /**
   * The two flags of `DemucsSeparator`.  `loadModel` is asynchronous: its
   * synchronous part up to the first `await` is `BeginLoad`, the rest
   * (`modelLoaded` on success, `isLoading` cleared in `finally`) is
   * `FinishLoad`.
   */
  class DemucsSeparator {
    var modelLoaded: bool
    var isLoading: bool

    /** A loaded model is never still loading. */
    predicate Valid()
      reads this
    {
      !(modelLoaded && isLoading)
    }

    constructor()
      ensures Valid() && !modelLoaded && !isLoading
    {
      modelLoaded := false;
      isLoading := false;
    }

    /** Returns whether a load started; a second call while loading, or once loaded, does nothing. */
    method BeginLoad() returns (started: bool)
      requires Valid()
      modifies this
      ensures Valid()
      ensures started <==> !old(modelLoaded) && !old(isLoading)
      ensures started ==> isLoading && !modelLoaded
      ensures !started ==> unchanged(this)
    {
      if modelLoaded || isLoading {
        return false;
      }
      isLoading := true;
      started := true;
    }

    /** The awaited initialisation finished, successfully or by throwing (the error is rethrown). */
    method FinishLoad(succeeded: bool)
      requires Valid() && isLoading
      modifies this
      ensures Valid()
      ensures modelLoaded == succeeded && !isLoading
    {
      if succeeded {
        modelLoaded := true;
      }
      isLoading := false;
    }
  }

  /**
   * A failed load can be retried; a concurrent call while loading is
   * ignored; once loaded, further calls start nothing.
   */
  method LoadingSession() returns (firstStarted: bool, concurrentStarted: bool, retryStarted: bool, afterLoadStarted: bool, loaded: bool)
    ensures firstStarted && !concurrentStarted && retryStarted && !afterLoadStarted && loaded
  {
    var d := new DemucsSeparator();
    firstStarted := d.BeginLoad();
    concurrentStarted := d.BeginLoad();
    d.FinishLoad(false);
    retryStarted := d.BeginLoad();
    d.FinishLoad(true);
    afterLoadStarted := d.BeginLoad();
    loaded := d.modelLoaded;
  }
}
