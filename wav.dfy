/**
 * The PCM to WAV converter (`pcmToWav`, components/ChatInterface.tsx, with a
 * copy in components/HelpAssistant.tsx that is the same line for line).
 *
 * The converter takes the binary string `atob` decoded from the model's
 * base64 audio (16-bit mono PCM), copies its character codes into a byte
 * buffer, writes the canonical 44-byte RIFF/WAVE header into a second
 * buffer through `DataView` setters with little-endian fields, and hands the
 * header followed by the samples to a `Blob`. The model returns those bytes;
 * the `Blob` and its object URL are not part of it.
 */
module Wav {

  newtype byte = x: int | 0 <= x < 256

  /** The sample rate used when the caller gives none. */
  const DefaultSampleRate: nat := 24000

  /** The size of the header, in bytes. */
  const HeaderSize: nat := 44

  // ---------------------------------------------------------------------------
  // Little-endian fields

  function Pow256(n: nat): (r: nat)
    ensures r > 0
  {
    if n == 0 then 1 else 256 * Pow256(n - 1)
  }

  /** The `n` bytes a `DataView` setter writes for `v` with `littleEndian`
      set: the value is first reduced modulo 256^n (ToUint16, ToUint32),
      then written least significant byte first. */
  function LittleEndian(v: nat, n: nat): (r: seq<byte>)
    ensures |r| == n
  {
    if n == 0 then [] else [(v % 256) as byte] + LittleEndian(v / 256, n - 1)
  }

  /** The unsigned value of little-endian bytes, as a `DataView` getter with
      `littleEndian` set reads it. */
  function ReadLittleEndian(bytes: seq<byte>): nat {
    if bytes == [] then 0 else bytes[0] as nat + 256 * ReadLittleEndian(bytes[1..])
  }

  /** Reducing modulo 256·m keeps the low byte and reduces the rest modulo m. */
  lemma ModSplit(v: nat, m: nat)
    requires m > 0
    ensures v % (256 * m) == v % 256 + 256 * ((v / 256) % m)
  {
    var q, r := v / 256, v % 256;
    var hi, lo := q / m, q % m;
    assert v == 256 * m * hi + (256 * lo + r) by {
      assert v == 256 * q + r;
      assert q == m * hi + lo;
    }
    assert 0 <= 256 * lo + r < 256 * m;
    assert v % (256 * m) == 256 * lo + r by {
      DivModUnique(v, 256 * m, hi, 256 * lo + r);
    }
  }

  lemma DivModUnique(v: int, d: int, q: int, r: int)
    requires d > 0 && 0 <= r < d && v == d * q + r
    ensures v % d == r && v / d == q
  {
    var q', r' := v / d, v % d;
    assert v == d * q' + r';
    if q' > q {
      assert d * q' >= d * (q + 1) by {
        MulMonotone(d, q + 1, q');
      }
    } else if q' < q {
      assert d * q >= d * (q' + 1) by {
        MulMonotone(d, q' + 1, q);
      }
    }
  }

  lemma MulMonotone(d: int, a: int, b: int)
    requires d > 0 && a <= b
    ensures d * a <= d * b
  {
  }

  /** Reading the bytes written for `v` gives back `v` modulo 256^n: the
      encoding is exact for every value that fits the field. */
  lemma {:induction false} ReadWritten(v: nat, n: nat)
    ensures ReadLittleEndian(LittleEndian(v, n)) == v % Pow256(n)
  {
    if n > 0 {
      var bytes := LittleEndian(v, n);
      assert bytes[1..] == LittleEndian(v / 256, n - 1);
      ReadWritten(v / 256, n - 1);
      ModSplit(v, Pow256(n - 1));
    }
  }

  /** A field that holds its value unchanged. */
  lemma ReadWrittenSmall(v: nat, n: nat)
    requires v < Pow256(n)
    ensures ReadLittleEndian(LittleEndian(v, n)) == v
  {
    ReadWritten(v, n);
  }

  /** The bytes of a string's character codes, each reduced to a byte as a
      `Uint8Array` element assignment and `setUint8` do. */
  function CharCodes(s: string): (r: seq<byte>)
    ensures |r| == |s|
  {
    seq(|s|, i requires 0 <= i < |s| => (s[i] as int % 256) as byte)
  }

  /** The bytes of an `atob` result are its character codes. */
  lemma CharCodesOfBinary(s: string, i: nat)
    requires i < |s| && s[i] as int < 256
    ensures CharCodes(s)[i] as int == s[i] as int
  {
  }

  // ---------------------------------------------------------------------------
  // The header

  /** The four chunk tags, as the bytes of their ASCII characters. */
  const RiffTag: seq<byte> := [0x52, 0x49, 0x46, 0x46]
  const WaveTag: seq<byte> := [0x57, 0x41, 0x56, 0x45]
  const FmtTag: seq<byte> := [0x66, 0x6D, 0x74, 0x20]
  const DataTag: seq<byte> := [0x64, 0x61, 0x74, 0x61]

  /** Writing a tag's characters writes the tag's bytes. */
  lemma TagBytes()
    ensures CharCodes("RIFF") == RiffTag && CharCodes("WAVE") == WaveTag
    ensures CharCodes("fmt ") == FmtTag && CharCodes("data") == DataTag
  {
  }

  /** The RIFF chunk header: the tag, the size of what follows it, and the
      WAVE form type (offsets 0 to 11). */
  function RiffPart(len: nat): seq<byte> {
    RiffTag + LittleEndian(36 + len, 4) + WaveTag
  }

  /** The start of the "fmt " chunk: its tag, its size 16, format 1 (PCM)
      and one channel (offsets 12 to 23). */
  function FormatHead(): seq<byte> {
    FmtTag + LittleEndian(16, 4) + LittleEndian(1, 2) + LittleEndian(1, 2)
  }

  /** The rest of the "fmt " chunk: the sample rate, the byte rate, block
      alignment 2 and 16 bits per sample (offsets 24 to 35). */
  function FormatRates(sampleRate: nat): seq<byte> {
    LittleEndian(sampleRate, 4) + LittleEndian(sampleRate * 2, 4) + LittleEndian(2, 2) + LittleEndian(16, 2)
  }

  /** The data chunk header: the tag and the number of sample bytes (offsets 36 to 43). */
  function DataPart(len: nat): seq<byte> {
    DataTag + LittleEndian(len, 4)
  }

  /** The header for `len` bytes of samples at `sampleRate`, in the order the
      setters write it. */
  function WavHeader(len: nat, sampleRate: nat): seq<byte> {
    RiffPart(len) + FormatHead() + FormatRates(sampleRate) + DataPart(len)
  }

  /** The file `pcmToWav` produces from a binary string. */
  function WavFile(binary: string, sampleRate: nat): seq<byte> {
    WavHeader(|binary|, sampleRate) + CharCodes(binary)
  }

  /** The field of `n` bytes at `offset`, read little-endian. */
  function Field(file: seq<byte>, offset: nat, n: nat): nat
    requires offset + n <= |file|
  {
    ReadLittleEndian(file[offset..offset + n])
  }

  const TwoTo32: nat := 0x1_0000_0000

  lemma Pow256Values()
    ensures Pow256(2) == 0x1_0000 && Pow256(4) == TwoTo32
  {
    assert Pow256(1) == 256;
    assert Pow256(3) == 0x100_0000;
  }

  /** Where the parts of the header sit in the file. */
  lemma WavParts(binary: string, sampleRate: nat)
    ensures var file := WavFile(binary, sampleRate);
      && |file| == HeaderSize + |binary|
      && file[0..12] == RiffPart(|binary|)
      && file[12..24] == FormatHead()
      && file[24..36] == FormatRates(sampleRate)
      && file[36..44] == DataPart(|binary|)
      && file[HeaderSize..] == CharCodes(binary)
  {
    var len := |binary|;
    var file := WavFile(binary, sampleRate);
    var header := WavHeader(len, sampleRate);
    HeaderParts(len, sampleRate);
    assert file[..HeaderSize] == header;
    assert file[0..12] == header[0..12];
    assert file[12..24] == header[12..24];
    assert file[24..36] == header[24..36];
    assert file[36..44] == header[36..44];
  }

  /** Where the parts sit in the header. */
  lemma HeaderParts(len: nat, sampleRate: nat)
    ensures var header := WavHeader(len, sampleRate);
      && |header| == HeaderSize
      && header[0..12] == RiffPart(len)
      && header[12..24] == FormatHead()
      && header[24..36] == FormatRates(sampleRate)
      && header[36..44] == DataPart(len)
  {
    var riff, head, rates, data := RiffPart(len), FormatHead(), FormatRates(sampleRate), DataPart(len);
    var front := riff + head;
    var fmt := front + rates;
    assert WavHeader(len, sampleRate) == fmt + data;
    assert (fmt + data)[..36] == fmt && (fmt + data)[36..44] == data;
    assert fmt[..24] == front && fmt[24..36] == rates;
    assert front[..12] == riff && front[12..24] == head;
  }

  /** A field inside a part reads what the part holds at that position. */
  lemma FieldInPart(file: seq<byte>, start: nat, part: seq<byte>, offset: nat, n: nat)
    requires start + |part| <= |file| && file[start..start + |part|] == part
    requires offset + n <= |part|
    ensures Field(file, start + offset, n) == ReadLittleEndian(part[offset..offset + n])
  {
    forall j | 0 <= j < |part|
      ensures file[start + j] == part[j]
    {
      assert file[start..start + |part|][j] == file[start + j];
    }
    assert file[start + offset..start + offset + n] == part[offset..offset + n];
  }

  /** The header is 44 bytes and the samples follow it one for one. */
  lemma WavFileLayout(binary: string, sampleRate: nat)
    ensures var file := WavFile(binary, sampleRate);
      && |file| == HeaderSize + |binary|
      && file[HeaderSize..] == CharCodes(binary)
  {
    WavParts(binary, sampleRate);
  }

  /** The four ASCII tags sit at offsets 0, 8, 12 and 36. */
  lemma WavTags(binary: string, sampleRate: nat)
    ensures var file := WavFile(binary, sampleRate);
      && |file| >= HeaderSize
      && file[0..4] == RiffTag && file[8..12] == WaveTag
      && file[12..16] == FmtTag && file[36..40] == DataTag
  {
    var file := WavFile(binary, sampleRate);
    var len := |binary|;
    WavParts(binary, sampleRate);
    assert file[0..4] == file[0..12][0..4] == RiffPart(len)[0..4];
    assert file[8..12] == file[0..12][8..12] == RiffPart(len)[8..12];
    assert file[12..16] == file[12..24][0..4] == FormatHead()[0..4];
    assert file[36..40] == file[36..44][0..4] == DataPart(len)[0..4];
  }

  /** The size fields of the RIFF and data parts. */
  lemma SizeFieldsInParts(len: nat)
    ensures |RiffPart(len)| == 12 && |DataPart(len)| == 8
    ensures ReadLittleEndian(RiffPart(len)[4..8]) == (36 + len) % TwoTo32
    ensures ReadLittleEndian(DataPart(len)[4..8]) == len % TwoTo32
  {
    assert RiffPart(len)[4..8] == LittleEndian(36 + len, 4);
    assert DataPart(len)[4..8] == LittleEndian(len, 4);
    Pow256Values();
    ReadWritten(36 + len, 4);
    ReadWritten(len, 4);
  }

  /** The fixed fields of the fmt part: size 16, format 1, one channel. */
  lemma FixedFieldsInFormatHead()
    ensures |FormatHead()| == 12
    ensures ReadLittleEndian(FormatHead()[4..8]) == 16
    ensures ReadLittleEndian(FormatHead()[8..10]) == 1
    ensures ReadLittleEndian(FormatHead()[10..12]) == 1
  {
    var head := FormatHead();
    assert head[4..8] == LittleEndian(16, 4);
    assert head[8..10] == LittleEndian(1, 2);
    assert head[10..12] == LittleEndian(1, 2);
    Pow256Values();
    ReadWrittenSmall(16, 4);
    ReadWrittenSmall(1, 2);
  }

  /** The rate fields of the fmt part. */
  lemma RateFieldsInFormatRates(sampleRate: nat)
    ensures |FormatRates(sampleRate)| == 12
    ensures ReadLittleEndian(FormatRates(sampleRate)[0..4]) == sampleRate % TwoTo32
    ensures ReadLittleEndian(FormatRates(sampleRate)[4..8]) == (2 * sampleRate) % TwoTo32
    ensures ReadLittleEndian(FormatRates(sampleRate)[8..10]) == 2
    ensures ReadLittleEndian(FormatRates(sampleRate)[10..12]) == 16
  {
    var rates := FormatRates(sampleRate);
    assert rates[0..4] == LittleEndian(sampleRate, 4);
    assert rates[4..8] == LittleEndian(sampleRate * 2, 4);
    assert rates[8..10] == LittleEndian(2, 2);
    assert rates[10..12] == LittleEndian(16, 2);
    Pow256Values();
    ReadWrittenSmall(2, 2);
    ReadWrittenSmall(16, 2);
    ReadWritten(sampleRate, 4);
    ReadWritten(sampleRate * 2, 4);
  }

  /** The RIFF chunk size at offset 4 is 36 + len and the data chunk size at
      offset 40 is len, both as unsigned 32-bit little-endian values. */
  lemma WavSizes(binary: string, sampleRate: nat)
    ensures var file := WavFile(binary, sampleRate);
      && |file| >= HeaderSize
      && Field(file, 4, 4) == (36 + |binary|) % TwoTo32
      && Field(file, 40, 4) == |binary| % TwoTo32
  {
    var len := |binary|;
    var file := WavFile(binary, sampleRate);
    WavParts(binary, sampleRate);
    SizeFieldsInParts(len);
    FieldInPart(file, 0, RiffPart(len), 4, 4);
    FieldInPart(file, 36, DataPart(len), 4, 4);
  }

  /** The start of the fmt chunk: size 16, format 1 (PCM), one channel. */
  lemma WavFormatHead(binary: string, sampleRate: nat)
    ensures var file := WavFile(binary, sampleRate);
      && |file| >= HeaderSize
      && Field(file, 16, 4) == 16 && Field(file, 20, 2) == 1 && Field(file, 22, 2) == 1
  {
    var file := WavFile(binary, sampleRate);
    var head := FormatHead();
    WavParts(binary, sampleRate);
    FixedFieldsInFormatHead();
    FieldInPart(file, 12, head, 4, 4);
    FieldInPart(file, 12, head, 8, 2);
    FieldInPart(file, 12, head, 10, 2);
  }

  /** The rest of the fmt chunk: the sample rate, a byte rate of twice the
      sample rate (both as unsigned 32-bit values), block alignment 2 and 16
      bits per sample. */
  lemma WavFormatRates(binary: string, sampleRate: nat)
    ensures var file := WavFile(binary, sampleRate);
      && |file| >= HeaderSize
      && Field(file, 24, 4) == sampleRate % TwoTo32
      && Field(file, 28, 4) == (2 * sampleRate) % TwoTo32
      && Field(file, 32, 2) == 2 && Field(file, 34, 2) == 16
  {
    var file := WavFile(binary, sampleRate);
    var rates := FormatRates(sampleRate);
    WavParts(binary, sampleRate);
    RateFieldsInFormatRates(sampleRate);
    FieldInPart(file, 24, rates, 0, 4);
    FieldInPart(file, 24, rates, 4, 4);
    FieldInPart(file, 24, rates, 8, 2);
    FieldInPart(file, 24, rates, 10, 2);
  }

  /** The fmt fields agree with each other: block alignment is channels times
      bytes per sample, and the byte rate is the sample rate times the block
      alignment (modulo 2^32, like the fields themselves). */
  lemma WavFormatConsistent(binary: string, sampleRate: nat)
    ensures var file := WavFile(binary, sampleRate);
      && |file| >= HeaderSize
      && Field(file, 32, 2) == Field(file, 22, 2) * (Field(file, 34, 2) / 8)
      && Field(file, 28, 4) == (Field(file, 24, 4) * Field(file, 32, 2)) % TwoTo32
  {
    WavFormatHead(binary, sampleRate);
    WavFormatRates(binary, sampleRate);
    var r := sampleRate % TwoTo32;
    var k := sampleRate / TwoTo32;
    assert 2 * sampleRate == TwoTo32 * (2 * k) + r * 2;
    DivModUnique(2 * sampleRate, TwoTo32, 2 * k + (r * 2) / TwoTo32, (r * 2) % TwoTo32);
  }

  /** At the default 24000 Hz, as both players call the converter, the file
      says 24000 samples and 48000 bytes per second. */
  lemma WavDefaultRate(binary: string)
    ensures var file := WavFile(binary, DefaultSampleRate);
      && |file| >= HeaderSize
      && Field(file, 24, 4) == 24000 && Field(file, 28, 4) == 48000
  {
    WavFormatRates(binary, DefaultSampleRate);
  }

  // ---------------------------------------------------------------------------
  // The converter

  /** `view[offset..]` overwritten with `bytes`, everything before kept. */
  method Put(view: array<byte>, offset: nat, bytes: seq<byte>)
    requires offset + |bytes| <= view.Length
    modifies view
    ensures view[..offset + |bytes|] == old(view[..offset]) + bytes
  {
    var i := 0;
    while i < |bytes|
      invariant 0 <= i <= |bytes|
      invariant view[..offset + i] == old(view[..offset]) + bytes[..i]
    {
      view[offset + i] := bytes[i];
      assert view[..offset + i + 1] == view[..offset + i] + [bytes[i]];
      assert bytes[..i + 1] == bytes[..i] + [bytes[i]];
      i := i + 1;
    }
    assert bytes[..i] == bytes;
  }

  /** `writeString`: one `setUint8` per character code. */
  method WriteString(view: array<byte>, offset: nat, s: string)
    requires offset + |s| <= view.Length
    modifies view
    ensures view[..offset + |s|] == old(view[..offset]) + CharCodes(s)
  {
    var i := 0;
    while i < |s|
      invariant 0 <= i <= |s|
      invariant view[..offset + i] == old(view[..offset]) + CharCodes(s)[..i]
    {
      view[offset + i] := (s[i] as int % 256) as byte;
      assert CharCodes(s)[..i + 1] == CharCodes(s)[..i] + [CharCodes(s)[i]];
      assert view[..offset + i + 1] == view[..offset + i] + [view[offset + i]];
      i := i + 1;
    }
    assert CharCodes(s)[..i] == CharCodes(s);
  }

  /** `DataView.setUint32(offset, v, true)`. */
  method SetUint32(view: array<byte>, offset: nat, v: nat)
    requires offset + 4 <= view.Length
    modifies view
    ensures view[..offset + 4] == old(view[..offset]) + LittleEndian(v, 4)
  {
    Put(view, offset, LittleEndian(v, 4));
  }

  /** `DataView.setUint16(offset, v, true)`. */
  method SetUint16(view: array<byte>, offset: nat, v: nat)
    requires offset + 2 <= view.Length
    modifies view
    ensures view[..offset + 2] == old(view[..offset]) + LittleEndian(v, 2)
  {
    Put(view, offset, LittleEndian(v, 2));
  }

  /** The setters for the RIFF chunk header, at offsets 0 to 11. */
  method WriteRiffPart(header: array<byte>, len: nat)
    requires header.Length >= 12
    modifies header
    ensures header[..12] == RiffPart(len)
  {
    TagBytes();
    WriteString(header, 0, "RIFF");
    assert header[..4] == RiffTag;
    SetUint32(header, 4, 36 + len);
    assert header[..8] == RiffTag + LittleEndian(36 + len, 4);
    WriteString(header, 8, "WAVE");
  }

  /** The setters for the start of the fmt chunk, at offsets 12 to 23. */
  method WriteFormatHead(header: array<byte>)
    requires header.Length >= 24
    modifies header
    ensures header[..24] == old(header[..12]) + FormatHead()
  {
    ghost var front := header[..12];
    TagBytes();
    WriteString(header, 12, "fmt ");
    assert header[..16] == front + FmtTag;
    SetUint32(header, 16, 16);
    assert header[..20] == front + FmtTag + LittleEndian(16, 4);
    SetUint16(header, 20, 1);
    assert header[..22] == front + FmtTag + LittleEndian(16, 4) + LittleEndian(1, 2);
    SetUint16(header, 22, 1);
  }

  /** The setters for the rest of the fmt chunk, at offsets 24 to 35. */
  method WriteFormatRates(header: array<byte>, sampleRate: nat)
    requires header.Length >= 36
    modifies header
    ensures header[..36] == old(header[..24]) + FormatRates(sampleRate)
  {
    ghost var front := header[..24];
    var rate, byteRate := LittleEndian(sampleRate, 4), LittleEndian(sampleRate * 2, 4);
    SetUint32(header, 24, sampleRate);
    assert header[..28] == front + rate;
    SetUint32(header, 28, sampleRate * 2);
    assert header[..32] == front + rate + byteRate;
    SetUint16(header, 32, 2);
    assert header[..34] == front + rate + byteRate + LittleEndian(2, 2);
    SetUint16(header, 34, 16);
  }

  /** The setters for the data chunk header, at offsets 36 to 43. */
  method WriteDataPart(header: array<byte>, len: nat)
    requires header.Length >= 44
    modifies header
    ensures header[..44] == old(header[..36]) + DataPart(len)
  {
    ghost var front := header[..36];
    TagBytes();
    WriteString(header, 36, "data");
    assert header[..40] == front + DataTag;
    SetUint32(header, 40, len);
  }

  /** The header buffer, written setter by setter. */
  method WriteHeader(len: nat, sampleRate: nat) returns (header: array<byte>)
    ensures fresh(header) && header[..] == WavHeader(len, sampleRate)
  {
    header := new byte[HeaderSize];
    WriteRiffPart(header, len);
    WriteFormatHead(header);
    WriteFormatRates(header, sampleRate);
    WriteDataPart(header, len);
    assert header[..] == header[..HeaderSize];
  }

  /** The sample buffer: one byte per character of the binary string. */
  method CopySamples(binary: string) returns (view: array<byte>)
    ensures fresh(view) && view[..] == CharCodes(binary)
  {
    view := new byte[|binary|];
    var i := 0;
    while i < |binary|
      invariant 0 <= i <= |binary|
      invariant view[..i] == CharCodes(binary)[..i]
    {
      view[i] := (binary[i] as int % 256) as byte;
      assert view[..i + 1] == view[..i] + [view[i]];
      assert CharCodes(binary)[..i + 1] == CharCodes(binary)[..i] + [CharCodes(binary)[i]];
      i := i + 1;
    }
    assert view[..] == view[..i];
  }

  /** `pcmToWav`: the bytes of the WAV file for a decoded binary string. */
  method PcmToWav(binary: string, sampleRate: nat) returns (file: seq<byte>)
    ensures file == WavFile(binary, sampleRate)
  {
    var view := CopySamples(binary);
    var header := WriteHeader(|binary|, sampleRate);
    file := header[..] + view[..];
  }
}
