/** The mono 16-bit PCM WAV encoder: a decoded audio buffer becomes a
    44-byte canonical RIFF/WAVE header (a `fmt ` chunk with format tag 1,
    WAVE_FORMAT_PCM) followed by channel 0's samples as little-endian int16. */
module WavEncoder {
  import opened Bytes

  /** A decoded Web Audio AudioBuffer: its sample rate, its length in
      sample-frames and one sequence of samples per channel. */
  datatype AudioBuffer = AudioBuffer(sampleRate: nat, length: nat, channels: seq<seq<real>>)
  {
    /** What the Web Audio API guarantees of every buffer it hands out:
        at least one channel, and every channel `length` samples long. */
    predicate Valid()
    {
      |channels| >= 1 && forall c :: 0 <= c < |channels| ==> |channels[c]| == length
    }
  }

  const HEADER_SIZE: nat := 44

  /** The bytes `writeString` stores for `s`: each character's code through ToUint8. */
  function Ascii(s: string): (r: seq<Byte>)
    ensures |r| == |s|
  {
    seq(|s|, i requires 0 <= i < |s| => ((s[i] as int) % 256) as Byte)
  }

  /** Math.max(-1, Math.min(1, x)). */
  function Clamp(x: real): (c: real)
    ensures -1.0 <= c <= 1.0
    ensures -1.0 <= x <= 1.0 ==> c == x
    ensures x > 1.0 ==> c == 1.0
    ensures x < -1.0 ==> c == -1.0
  {
    var m := if 1.0 < x then 1.0 else x;
    if -1.0 > m then -1.0 else m
  }

  /** The asymmetric scaling: negatives by 0x8000, the rest by 0x7fff. */
  function Scale(c: real): (s: real)
    ensures -1.0 <= c <= 1.0 ==> -32768.0 <= s <= 32767.0
    ensures c < 0.0 ==> s < 0.0
    ensures c >= 0.0 ==> s >= 0.0
    ensures c == -1.0 ==> s == -32768.0
    ensures c == 1.0 ==> s == 32767.0
  {
    if c < 0.0 then c * 0x8000 as real else c * 0x7fff as real
  }

  /** The integer ToInt16 takes from a sample before wrapping. */
  function SampleValue(x: real): (v: int)
    ensures -0x8000 <= v <= 0x7fff
  {
    Trunc(Scale(Clamp(x)))
  }

  /** The two bytes setInt16(offset, scaled sample, true) stores for one sample. */
  function SampleBytes(x: real): (r: seq<Byte>)
    ensures |r| == 2
  {
    LittleEndian(ToUint16(Trunc(Scale(Clamp(x)))), 2)
  }

  /** The data chunk's contents for a channel. */
  function Payload(samples: seq<real>): (p: seq<Byte>)
    ensures |p| == 2 * |samples|
  {
    if samples == [] then [] else Payload(samples[..|samples| - 1]) + SampleBytes(samples[|samples| - 1])
  }

  /** Appending a sample appends its two bytes to the payload. */
  lemma PayloadSnoc(samples: seq<real>, x: real)
    ensures Payload(samples + [x]) == Payload(samples) + SampleBytes(x)
  {
    assert (samples + [x])[..|samples|] == samples;
  }

  /** The RIFF chunk descriptor: tag, size of everything after this field, form type. */
  function RiffDescriptor(length: nat): (d: seq<Byte>)
    ensures |d| == 12
  {
    Ascii("RIFF") + LittleEndian(ToUint32(36 + length * 2), 4) + Ascii("WAVE")
  }

  /** The `fmt ` sub-chunk: 16 bytes of WAVE_FORMAT_PCM, mono, 16 bits per sample. */
  function FmtChunk(sampleRate: nat): (f: seq<Byte>)
    ensures |f| == 24
  {
    Ascii("fmt ") + LittleEndian(ToUint32(16), 4)
    + LittleEndian(ToUint16(1), 2) + LittleEndian(ToUint16(1), 2)
    + LittleEndian(ToUint32(sampleRate), 4) + LittleEndian(ToUint32(sampleRate * 2), 4)
    + LittleEndian(ToUint16(2), 2) + LittleEndian(ToUint16(16), 2)
  }

  /** The `data` sub-chunk's tag and size; the samples follow it. */
  function DataChunkHeader(length: nat): (d: seq<Byte>)
    ensures |d| == 8
  {
    Ascii("data") + LittleEndian(ToUint32(length * 2), 4)
  }

  /** The 44-byte header. */
  function Header(length: nat, sampleRate: nat): (h: seq<Byte>)
    ensures |h| == HEADER_SIZE
  {
    RiffDescriptor(length) + FmtChunk(sampleRate) + DataChunkHeader(length)
  }

  /** The whole file the encoder produces for `buffer`. */
  function WavFile(buffer: AudioBuffer): (w: seq<Byte>)
    requires buffer.Valid()
    ensures |w| == HEADER_SIZE + 2 * buffer.length
  {
    Header(buffer.length, buffer.sampleRate) + Payload(buffer.channels[0])
  }

  /** writeString: stores each character's code through ToUint8 at `offset`, one setUint8 per character. */
  method WriteString(view: array<Byte>, offset: nat, s: string)
    requires offset + |s| <= view.Length
    modifies view
    ensures Stored(view[..], old(view[..]), offset, Ascii(s))
  {
    for i := 0 to |s|
      invariant view[..offset] == old(view[..offset])
      invariant view[offset..offset + i] == Ascii(s)[..i]
      invariant view[offset + |s|..] == old(view[offset + |s|..])
      invariant forall k :: offset + i <= k < offset + |s| ==> view[k] == old(view[k])
    {
      view[offset + i] := ((s[i] as int) % 256) as Byte;
      assert view[offset..offset + i + 1] == view[offset..offset + i] + [view[offset + i]];
      assert Ascii(s)[..i + 1] == Ascii(s)[..i] + [Ascii(s)[i]];
    }
  }

  /** Header bytes 0-11: writeString(0, "RIFF"), setUint32(4, 36 + length * 2, true), writeString(8, "WAVE"). */
  method WriteRiffDescriptor(view: array<Byte>, length: nat)
    requires 12 <= view.Length
    modifies view
    ensures Stored(view[..], old(view[..]), 0, RiffDescriptor(length))
  {
    WriteString(view, 0, "RIFF");
    label size:
    SetUint32(view, 4, 36 + length * 2);
    StoredConcat(view[..], old@size(view[..]), old(view[..]), 0, Ascii("RIFF"), LittleEndian(ToUint32(36 + length * 2), 4));
    label form:
    WriteString(view, 8, "WAVE");
    StoredConcat(view[..], old@form(view[..]), old(view[..]), 0,
                 Ascii("RIFF") + LittleEndian(ToUint32(36 + length * 2), 4), Ascii("WAVE"));
  }

  /** Header bytes 12-35: the `fmt ` sub-chunk, written field by field. */
  method WriteFmtChunk(view: array<Byte>, sampleRate: nat)
    requires 36 <= view.Length
    modifies view
    ensures Stored(view[..], old(view[..]), 12, FmtChunk(sampleRate))
  {
    ghost var done: seq<Byte> := Ascii("fmt ");
    WriteString(view, 12, "fmt ");
    label w16:
    SetUint32(view, 16, 16);
    StoredConcat(view[..], old@w16(view[..]), old(view[..]), 12, done, LittleEndian(ToUint32(16), 4));
    done := done + LittleEndian(ToUint32(16), 4);
    label w20:
    SetUint16(view, 20, 1);
    StoredConcat(view[..], old@w20(view[..]), old(view[..]), 12, done, LittleEndian(ToUint16(1), 2));
    done := done + LittleEndian(ToUint16(1), 2);
    label w22:
    SetUint16(view, 22, 1); // mono
    StoredConcat(view[..], old@w22(view[..]), old(view[..]), 12, done, LittleEndian(ToUint16(1), 2));
    done := done + LittleEndian(ToUint16(1), 2);
    label w24:
    SetUint32(view, 24, sampleRate);
    StoredConcat(view[..], old@w24(view[..]), old(view[..]), 12, done, LittleEndian(ToUint32(sampleRate), 4));
    done := done + LittleEndian(ToUint32(sampleRate), 4);
    label w28:
    SetUint32(view, 28, sampleRate * 2);
    StoredConcat(view[..], old@w28(view[..]), old(view[..]), 12, done, LittleEndian(ToUint32(sampleRate * 2), 4));
    done := done + LittleEndian(ToUint32(sampleRate * 2), 4);
    label w32:
    SetUint16(view, 32, 2);
    StoredConcat(view[..], old@w32(view[..]), old(view[..]), 12, done, LittleEndian(ToUint16(2), 2));
    done := done + LittleEndian(ToUint16(2), 2);
    label w34:
    SetUint16(view, 34, 16);
    StoredConcat(view[..], old@w34(view[..]), old(view[..]), 12, done, LittleEndian(ToUint16(16), 2));
    done := done + LittleEndian(ToUint16(16), 2);
    assert done == FmtChunk(sampleRate);
  }

  /** Header bytes 36-43: writeString(36, "data"), setUint32(40, length * 2, true). */
  method WriteDataChunkHeader(view: array<Byte>, length: nat)
    requires 44 <= view.Length
    modifies view
    ensures Stored(view[..], old(view[..]), 36, DataChunkHeader(length))
  {
    WriteString(view, 36, "data");
    label size:
    SetUint32(view, 40, length * 2);
    StoredConcat(view[..], old@size(view[..]), old(view[..]), 36, Ascii("data"), LittleEndian(ToUint32(length * 2), 4));
  }

  /** The WAV header block: the three header parts in file order. */
  method WriteHeader(view: array<Byte>, length: nat, sampleRate: nat)
    requires HEADER_SIZE <= view.Length
    modifies view
    ensures Stored(view[..], old(view[..]), 0, Header(length, sampleRate))
  {
    WriteRiffDescriptor(view, length);
    label fmt:
    WriteFmtChunk(view, sampleRate);
    StoredConcat(view[..], old@fmt(view[..]), old(view[..]), 0, RiffDescriptor(length), FmtChunk(sampleRate));
    label data:
    WriteDataChunkHeader(view, length);
    StoredConcat(view[..], old@data(view[..]), old(view[..]), 0, RiffDescriptor(length) + FmtChunk(sampleRate), DataChunkHeader(length));
  }

  /** One iteration of the sample loop: storing sample i's scaled value right
      after the first i samples' payload extends it by that sample's bytes. */
  lemma SampleStored(view: seq<Byte>, mid: seq<Byte>, was: seq<Byte>, channelData: seq<real>, i: nat, scaled: real)
    requires i < |channelData| && scaled == Scale(Clamp(channelData[i]))
    requires Stored(mid, was, HEADER_SIZE, Payload(channelData[..i]))
    requires Stored(view, mid, HEADER_SIZE + 2 * i, LittleEndian(ToUint16(Trunc(scaled)), 2))
    ensures Stored(view, was, HEADER_SIZE, Payload(channelData[..i + 1]))
  {
    StoredConcat(view, mid, was, HEADER_SIZE, Payload(channelData[..i]), SampleBytes(channelData[i]));
    assert channelData[..i + 1] == channelData[..i] + [channelData[i]];
    PayloadSnoc(channelData[..i], channelData[i]);
  }

  /** The sample loop: channel 0's samples, clamped, scaled and stored as int16
      from offset 44 on, the offset advancing by two per sample. */
  method WriteSamples(view: array<Byte>, channelData: seq<real>)
    requires view.Length == HEADER_SIZE + 2 * |channelData|
    modifies view
    ensures Stored(view[..], old(view[..]), HEADER_SIZE, Payload(channelData))
  {
    var offset := 44;
    for i := 0 to |channelData|
      invariant offset == HEADER_SIZE + 2 * i
      invariant Stored(view[..], old(view[..]), HEADER_SIZE, Payload(channelData[..i]))
    {
      var sample := Clamp(channelData[i]);
      var scaled := if sample < 0.0 then sample * 0x8000 as real else sample * 0x7fff as real;
      assert scaled == Scale(Clamp(channelData[i]));
      label store:
      SetInt16(view, offset, scaled);
      SampleStored(view[..], old@store(view[..]), old(view[..]), channelData, i, scaled);
      offset := offset + 2;
    }
    assert channelData[..|channelData|] == channelData;
  }

  /** audioBufferToWav: allocates a zero-filled buffer of 44 + 2 * length bytes,
      writes the header, then channel 0's samples. */
  method AudioBufferToWav(buffer: AudioBuffer) returns (view: array<Byte>)
    requires buffer.Valid()
    ensures fresh(view)
    ensures view.Length == HEADER_SIZE + 2 * buffer.length
    ensures view[..] == WavFile(buffer)
  {
    var length := buffer.length;
    var sampleRate := buffer.sampleRate;
    view := new Byte[44 + length * 2](_ => 0);
    ghost var zeroed := view[..];
    WriteHeader(view, length, sampleRate);
    ghost var headed := view[..];
    var channelData := buffer.channels[0];
    WriteSamples(view, channelData);
    StoredConcat(view[..], headed, zeroed, 0, Header(length, sampleRate), Payload(channelData));
    assert view[..] == view[..view.Length];
  }
}

/** What the encoder's output promises to a reader of the RIFF/WAVE format. */
module WavProperties {
  import opened Bytes
  import opened WavEncoder

  /** The unsigned little-endian field of `n` bytes at `off`. */
  function FieldAt(w: seq<Byte>, off: nat, n: nat): nat
    requires off + n <= |w|
  {
    FromLittleEndian(w[off..off + n])
  }

  /** The signed 16-bit sample stored at `off`. */
  function Int16At(w: seq<Byte>, off: nat): int
    requires off + 2 <= |w|
  {
    FromInt16LE(w[off..off + 2])
  }

  /** The four tags, as the bytes the RIFF/WAVE format expects. */
  lemma TagBytes()
    ensures Ascii("RIFF") == [0x52, 0x49, 0x46, 0x46]
    ensures Ascii("WAVE") == [0x57, 0x41, 0x56, 0x45]
    ensures Ascii("fmt ") == [0x66, 0x6d, 0x74, 0x20]
    ensures Ascii("data") == [0x64, 0x61, 0x74, 0x61]
  {
  }

  /** The file is the RIFF descriptor, the `fmt ` chunk, the `data` chunk header and the payload, in that order. */
  lemma Layout(buffer: AudioBuffer)
    requires buffer.Valid()
    ensures var w := WavFile(buffer);
      && w[0..12] == RiffDescriptor(buffer.length)
      && w[12..36] == FmtChunk(buffer.sampleRate)
      && w[36..44] == DataChunkHeader(buffer.length)
      && w[44..] == Payload(buffer.channels[0])
  {
    var w := WavFile(buffer);
    assert w[0..12] == RiffDescriptor(buffer.length) by { SliceIs(w, 0, RiffDescriptor(buffer.length)); }
    assert w[12..36] == FmtChunk(buffer.sampleRate) by { SliceIs(w, 12, FmtChunk(buffer.sampleRate)); }
    assert w[36..44] == DataChunkHeader(buffer.length) by { SliceIs(w, 36, DataChunkHeader(buffer.length)); }
    assert w[44..] == Payload(buffer.channels[0]) by { SliceIs(w, 44, Payload(buffer.channels[0])); }
  }

  /** The payload follows the 44-byte header. */
  lemma PayloadRegion(buffer: AudioBuffer)
    requires buffer.Valid()
    ensures WavFile(buffer)[HEADER_SIZE..HEADER_SIZE + 2 * buffer.length] == Payload(buffer.channels[0])
  {
    SliceIs(WavFile(buffer), HEADER_SIZE, Payload(buffer.channels[0]));
  }

  /** A field inside a chunk is the same field of the file, shifted by the chunk's offset. */
  lemma SubSlice(w: seq<Byte>, off: nat, chunk: seq<Byte>, k: nat, n: nat)
    requires off + |chunk| <= |w| && w[off..off + |chunk|] == chunk && k + n <= |chunk|
    ensures w[off + k..off + k + n] == chunk[k..k + n]
  {
    var field := chunk[k..k + n];
    forall i | 0 <= i < n ensures w[off + k + i] == field[i] {
      assert w[off + k + i] == w[off..off + |chunk|][k + i];
    }
    SliceIs(w, off + k, field);
  }

  /** Bytes 0-11: "RIFF", the u32 chunk size 36 + 2 * length (modulo 2^32), "WAVE". */
  lemma RiffChunkFields(buffer: AudioBuffer)
    requires buffer.Valid()
    ensures var w := WavFile(buffer);
      && w[0..4] == Ascii("RIFF")
      && FieldAt(w, 4, 4) == ToUint32(36 + 2 * buffer.length)
      && w[8..12] == Ascii("WAVE")
  {
    var w := WavFile(buffer);
    var d := RiffDescriptor(buffer.length);
    Layout(buffer);
    RiffDescriptorValues(buffer.length);
    SubSlice(w, 0, d, 0, 4);
    SubSlice(w, 0, d, 4, 4);
    SubSlice(w, 0, d, 8, 4);
  }

  lemma RiffDescriptorValues(length: nat)
    ensures var d := RiffDescriptor(length);
      && d[0..4] == Ascii("RIFF")
      && FromLittleEndian(d[4..8]) == ToUint32(36 + 2 * length)
      && d[8..12] == Ascii("WAVE")
  {
    var d := RiffDescriptor(length);
    var size := ToUint32(36 + length * 2);
    SliceIs(d, 0, Ascii("RIFF"));
    SliceIs(d, 4, LittleEndian(size, 4));
    SliceIs(d, 8, Ascii("WAVE"));
    DecodeEncode(size, 4);
  }

  /** Bytes 12-23: "fmt ", the chunk size 16, format tag 1 (WAVE_FORMAT_PCM) and one channel. */
  lemma FmtFormatFields(buffer: AudioBuffer)
    requires buffer.Valid()
    ensures var w := WavFile(buffer);
      && w[12..16] == Ascii("fmt ")
      && FieldAt(w, 16, 4) == 16
      && FieldAt(w, 20, 2) == 1
      && FieldAt(w, 22, 2) == 1
  {
    var w := WavFile(buffer);
    var f := FmtChunk(buffer.sampleRate);
    Layout(buffer);
    FmtFormatValues(buffer.sampleRate);
    SubSlice(w, 12, f, 0, 4);
    SubSlice(w, 12, f, 4, 4);
    SubSlice(w, 12, f, 8, 2);
    SubSlice(w, 12, f, 10, 2);
  }

  /** Bytes 24-35: the sample rate, twice the sample rate as byte rate (both
      modulo 2^32), block align 2 and 16 bits per sample. */
  lemma FmtRateFields(buffer: AudioBuffer)
    requires buffer.Valid()
    ensures var w := WavFile(buffer);
      && FieldAt(w, 24, 4) == ToUint32(buffer.sampleRate)
      && FieldAt(w, 28, 4) == ToUint32(2 * buffer.sampleRate)
      && FieldAt(w, 32, 2) == 2
      && FieldAt(w, 34, 2) == 16
  {
    var w := WavFile(buffer);
    var f := FmtChunk(buffer.sampleRate);
    Layout(buffer);
    FmtRateValues(buffer.sampleRate);
    SubSlice(w, 12, f, 12, 4);
    SubSlice(w, 12, f, 16, 4);
    SubSlice(w, 12, f, 20, 2);
    SubSlice(w, 12, f, 22, 2);
  }

  lemma FmtFormatValues(sampleRate: nat)
    ensures var f := FmtChunk(sampleRate);
      && f[0..4] == Ascii("fmt ")
      && FromLittleEndian(f[4..8]) == 16
      && FromLittleEndian(f[8..10]) == 1
      && FromLittleEndian(f[10..12]) == 1
  {
    var f := FmtChunk(sampleRate);
    assert f[0..4] == Ascii("fmt ") by { SliceIs(f, 0, Ascii("fmt ")); }
    assert FromLittleEndian(f[4..8]) == 16 by {
      SliceIs(f, 4, LittleEndian(16, 4));
      DecodeEncode(16, 4);
    }
    assert FromLittleEndian(f[8..10]) == 1 by {
      SliceIs(f, 8, LittleEndian(1, 2));
      DecodeEncode(1, 2);
    }
    assert FromLittleEndian(f[10..12]) == 1 by {
      SliceIs(f, 10, LittleEndian(1, 2));
      DecodeEncode(1, 2);
    }
  }

  lemma FmtRateValues(sampleRate: nat)
    ensures var f := FmtChunk(sampleRate);
      && FromLittleEndian(f[12..16]) == ToUint32(sampleRate)
      && FromLittleEndian(f[16..20]) == ToUint32(sampleRate * 2)
      && FromLittleEndian(f[20..22]) == 2
      && FromLittleEndian(f[22..24]) == 16
  {
    FmtRatePair(sampleRate);
    FmtBlockValues(sampleRate);
  }

  lemma FmtRatePair(sampleRate: nat)
    ensures var f := FmtChunk(sampleRate);
      && FromLittleEndian(f[12..16]) == ToUint32(sampleRate)
      && FromLittleEndian(f[16..20]) == ToUint32(sampleRate * 2)
  {
    var f := FmtChunk(sampleRate);
    var rate, byteRate := ToUint32(sampleRate), ToUint32(sampleRate * 2);
    assert FromLittleEndian(f[12..16]) == rate by {
      SliceIs(f, 12, LittleEndian(rate, 4));
      DecodeEncode(rate, 4);
    }
    assert FromLittleEndian(f[16..20]) == byteRate by {
      SliceIs(f, 16, LittleEndian(byteRate, 4));
      DecodeEncode(byteRate, 4);
    }
  }

  lemma FmtBlockValues(sampleRate: nat)
    ensures var f := FmtChunk(sampleRate);
      && FromLittleEndian(f[20..22]) == 2
      && FromLittleEndian(f[22..24]) == 16
  {
    var f := FmtChunk(sampleRate);
    assert FromLittleEndian(f[20..22]) == 2 by {
      SliceIs(f, 20, LittleEndian(2, 2));
      DecodeEncode(2, 2);
    }
    assert FromLittleEndian(f[22..24]) == 16 by {
      SliceIs(f, 22, LittleEndian(16, 2));
      DecodeEncode(16, 2);
    }
  }

  /** Bytes 36-43: "data" and the u32 data size 2 * length (modulo 2^32). */
  lemma DataChunkFields(buffer: AudioBuffer)
    requires buffer.Valid()
    ensures var w := WavFile(buffer);
      && w[36..40] == Ascii("data")
      && FieldAt(w, 40, 4) == ToUint32(2 * buffer.length)
  {
    var w := WavFile(buffer);
    var t := DataChunkHeader(buffer.length);
    DataHeaderValues(buffer.length);
    assert w[36..44] == t by { Layout(buffer); }
    SubSlice(w, 36, t, 0, 4);
    SubSlice(w, 36, t, 4, 4);
  }

  lemma DataHeaderValues(length: nat)
    ensures var d := DataChunkHeader(length);
      && d[0..4] == Ascii("data")
      && FromLittleEndian(d[4..8]) == ToUint32(length * 2)
  {
    var d := DataChunkHeader(length);
    var size := ToUint32(length * 2);
    SliceIs(d, 0, Ascii("data"));
    SliceIs(d, 4, LittleEndian(size, 4));
    DecodeEncode(size, 4);
  }
}

/** Per-sample guarantees of the encoder. */
module SampleProperties {
  import opened Bytes
  import opened WavEncoder

  /** The stored int16 is exactly the truncated, scaled sample: ToInt16 never wraps here. */
  lemma StoredExactly(x: real)
    ensures FromInt16LE(SampleBytes(x)) == SampleValue(x)
  {
    Int16RoundTrip(SampleValue(x));
  }

  /** Full scale and silence: at or above 1 gives 32767, at or below -1 gives -32768, 0 gives 0. */
  lemma FullScale(x: real)
    ensures x >= 1.0 ==> SampleValue(x) == 0x7fff
    ensures x <= -1.0 ==> SampleValue(x) == -0x8000
    ensures x == 0.0 ==> SampleValue(x) == 0
  {
    if x >= 1.0 {
      assert Scale(Clamp(x)) == 32767.0;
    } else if x <= -1.0 {
      assert Scale(Clamp(x)) == -32768.0;
    } else if x == 0.0 {
      assert Scale(Clamp(x)) == 0.0;
    }
  }

  /** Out-of-range samples are stored exactly like the nearest end of the range. */
  lemma ClampedAlike(x: real)
    ensures x >= 1.0 ==> SampleBytes(x) == SampleBytes(1.0)
    ensures x <= -1.0 ==> SampleBytes(x) == SampleBytes(-1.0)
  {
  }

  /** A louder sample never encodes to a smaller integer. */
  lemma SampleMonotone(x: real, y: real)
    requires x <= y
    ensures SampleValue(x) <= SampleValue(y)
  {
    var cx, cy := Clamp(x), Clamp(y);
    assert cx <= cy;
    assert Scale(cx) <= Scale(cy) by {
      if cx < 0.0 && cy >= 0.0 {
        assert Scale(cx) < 0.0 <= Scale(cy);
      }
    }
    TruncMonotone(Scale(cx), Scale(cy));
  }

  /** The encoded integer keeps the sample's sign (or is zero): negative
      samples above -1/32768 scale to above -1 and truncate to 0, and -1/32768
      itself is the first to store -1. */
  lemma SampleSign(x: real)
    ensures x >= 0.0 ==> SampleValue(x) >= 0
    ensures x < 0.0 ==> SampleValue(x) <= 0
    ensures -1.0 / 32768.0 < x < 0.0 ==> SampleValue(x) == 0
    ensures x == -1.0 / 32768.0 ==> SampleValue(x) == -1
  {
  }
}
