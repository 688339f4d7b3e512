/** The encoder's output read back: the samples it holds, and a reader of the
    canonical PCM WAV layout that recovers the sample rate and every sample. */
module WavReader {
  import opened Bytes
  import opened WavEncoder
  import opened SampleProperties
  import opened WavProperties

  datatype Option<T> = None | Some(value: T)

  /** What a reader recovers from a PCM WAV file: its rate and its int16 samples. */
  datatype PcmStream = PcmStream(sampleRate: nat, samples: seq<int>)

  /** The integers a channel encodes to, sample by sample. */
  function SampleValues(samples: seq<real>): (vs: seq<int>)
    ensures |vs| == |samples|
  {
    seq(|samples|, i requires 0 <= i < |samples| => SampleValue(samples[i]))
  }

  /** The payload read back two bytes at a time as signed little-endian integers. */
  function Int16Samples(data: seq<Byte>): (vs: seq<int>)
    requires |data| % 2 == 0
    ensures |vs| == |data| / 2
  {
    if data == [] then [] else Int16Samples(data[..|data| - 2]) + [FromInt16LE(data[|data| - 2..])]
  }

  /** Sample i of a channel occupies payload bytes 2i and 2i + 1. */
  lemma {:induction false} PayloadAt(samples: seq<real>, i: nat)
    requires i < |samples|
    ensures Payload(samples)[2 * i..2 * i + 2] == SampleBytes(samples[i])
  {
    var n := |samples|;
    var init := samples[..n - 1];
    assert Payload(samples) == Payload(init) + SampleBytes(samples[n - 1]);
    if i < n - 1 {
      PayloadAt(init, i);
      assert Payload(samples)[2 * i..2 * i + 2] == Payload(init)[2 * i..2 * i + 2];
    } else {
      assert Payload(samples)[2 * i..] == SampleBytes(samples[n - 1]);
    }
  }

  /** Reading the payload back gives every sample's encoded integer, in order. */
  lemma {:induction false} DecodePayload(samples: seq<real>)
    ensures Int16Samples(Payload(samples)) == SampleValues(samples)
  {
    if samples != [] {
      var n := |samples|;
      var init := samples[..n - 1];
      var p := Payload(samples);
      DecodePayload(init);
      assert p == Payload(init) + SampleBytes(samples[n - 1]);
      assert p[..|p| - 2] == Payload(init);
      assert p[|p| - 2..] == SampleBytes(samples[n - 1]);
      StoredExactly(samples[n - 1]);
      assert Int16Samples(p) == Int16Samples(Payload(init)) + [FromInt16LE(SampleBytes(samples[n - 1]))];
      assert SampleValues(samples) == SampleValues(init) + [SampleValue(samples[n - 1])];
    }
  }

  /** The int16 at offset 44 + 2i of the file is channel 0's sample i, clamped, scaled and truncated. */
  lemma SampleAt(buffer: AudioBuffer, i: nat)
    requires buffer.Valid() && i < buffer.length
    ensures Int16At(WavFile(buffer), HEADER_SIZE + 2 * i) == SampleValue(buffer.channels[0][i])
  {
    var w := WavFile(buffer);
    var p := Payload(buffer.channels[0]);
    PayloadRegion(buffer);
    PayloadAt(buffer.channels[0], i);
    SubSlice(w, HEADER_SIZE, p, 2 * i, 2);
    StoredExactly(buffer.channels[0][i]);
  }

  /** A silent channel gives a payload of zero bytes only. */
  lemma {:induction false} SilentPayload(samples: seq<real>)
    requires forall i :: 0 <= i < |samples| ==> samples[i] == 0.0
    ensures forall k :: 0 <= k < |Payload(samples)| ==> Payload(samples)[k] == 0
  {
    if samples != [] {
      var n := |samples|;
      SilentPayload(samples[..n - 1]);
      FullScale(samples[n - 1]);
      assert SampleBytes(samples[n - 1]) == [0, 0];
    }
  }

  /** Only channel 0 matters: buffers that agree on it, on the length and on the rate encode alike. */
  lemma OnlyChannelZero(a: AudioBuffer, b: AudioBuffer)
    requires a.Valid() && b.Valid()
    requires a.sampleRate == b.sampleRate && a.length == b.length && a.channels[0] == b.channels[0]
    ensures WavFile(a) == WavFile(b)
  {
  }

  /** When the sizes fit in 32 bits, the RIFF size is the file size less 8 and
      the data size is the file size less the header: ChunkSize = 36 + Subchunk2Size. */
  lemma ChunkSizesAgree(buffer: AudioBuffer)
    requires buffer.Valid() && 36 + 2 * buffer.length < TWO_32
    ensures var w := WavFile(buffer);
      && FieldAt(w, 4, 4) == |w| - 8
      && FieldAt(w, 40, 4) == |w| - HEADER_SIZE
      && FieldAt(w, 4, 4) == 36 + FieldAt(w, 40, 4)
  {
    RiffChunkFields(buffer);
    DataChunkFields(buffer);
  }

  /** When twice the rate fits in 32 bits, the byte rate is the sample rate times the block align. */
  lemma RatesAgree(buffer: AudioBuffer)
    requires buffer.Valid() && 2 * buffer.sampleRate < TWO_32
    ensures var w := WavFile(buffer);
      && FieldAt(w, 24, 4) == buffer.sampleRate
      && FieldAt(w, 28, 4) == FieldAt(w, 24, 4) * FieldAt(w, 32, 2)
  {
    FmtRateFields(buffer);
  }

  /** The four tags are in place. */
  predicate TagsOk(w: seq<Byte>)
    requires |w| >= HEADER_SIZE
  {
    w[0..4] == Ascii("RIFF") && w[8..12] == Ascii("WAVE") && w[12..16] == Ascii("fmt ") && w[36..40] == Ascii("data")
  }

  /** The RIFF size and the data size agree with the file's length. */
  predicate SizesOk(w: seq<Byte>)
    requires |w| >= HEADER_SIZE
  {
    FieldAt(w, 4, 4) == |w| - 8 && FieldAt(w, 40, 4) == |w| - HEADER_SIZE
  }

  /** The `fmt ` fields say: 16-byte chunk, PCM, mono, block align 2, 16 bits,
      byte rate twice the sample rate. */
  predicate FormatOk(w: seq<Byte>)
    requires |w| >= HEADER_SIZE
  {
    FieldAt(w, 16, 4) == 16 && FieldAt(w, 20, 2) == 1 && FieldAt(w, 22, 2) == 1
    && FieldAt(w, 32, 2) == 2 && FieldAt(w, 34, 2) == 16
    && FieldAt(w, 28, 4) == FieldAt(w, 24, 4) * 2
  }

  /** A reader of the canonical PCM WAV layout with a 44-byte header
      followed by whole 16-bit samples. */
  function ParseWav(w: seq<Byte>): (r: Option<PcmStream>)
    ensures r.Some? <==> |w| >= HEADER_SIZE && (|w| - HEADER_SIZE) % 2 == 0 && TagsOk(w) && SizesOk(w) && FormatOk(w)
    ensures r.Some? ==> |r.value.samples| == (|w| - HEADER_SIZE) / 2
  {
    if |w| < HEADER_SIZE then None
    else
      var data := w[HEADER_SIZE..];
      if |data| % 2 != 0 || !TagsOk(w) || !SizesOk(w) || !FormatOk(w) then None
      else Some(PcmStream(FieldAt(w, 24, 4), Int16Samples(data)))
  }

  lemma EncodedTagsOk(buffer: AudioBuffer)
    requires buffer.Valid()
    ensures TagsOk(WavFile(buffer))
  {
    RiffChunkFields(buffer);
    FmtFormatFields(buffer);
    DataChunkFields(buffer);
  }

  lemma EncodedFormatOk(buffer: AudioBuffer)
    requires buffer.Valid() && 2 * buffer.sampleRate < TWO_32
    ensures FormatOk(WavFile(buffer))
  {
    FmtFormatFields(buffer);
    FmtRateFields(buffer);
  }

  /** Round trip: when its sizes and its byte rate fit in 32 bits, the file reads
      back as mono PCM at the buffer's own rate holding channel 0's encoded samples. */
  lemma ReadEncoded(buffer: AudioBuffer)
    requires buffer.Valid()
    requires 36 + 2 * buffer.length < TWO_32 && 2 * buffer.sampleRate < TWO_32
    ensures ParseWav(WavFile(buffer)) == Some(PcmStream(buffer.sampleRate, SampleValues(buffer.channels[0])))
  {
    var w := WavFile(buffer);
    EncodedTagsOk(buffer);
    EncodedFormatOk(buffer);
    ChunkSizesAgree(buffer);
    RatesAgree(buffer);
    Layout(buffer);
    DecodePayload(buffer.channels[0]);
    assert |w[HEADER_SIZE..]| % 2 == (2 * buffer.length) % 2 == 0;
    assert Int16Samples(w[HEADER_SIZE..]) == SampleValues(buffer.channels[0]);
    assert ParseWav(w) == Some(PcmStream(FieldAt(w, 24, 4), Int16Samples(w[HEADER_SIZE..])));
  }

  /** Once twice the rate no longer fits in 32 bits (and the rate itself still
      does), the wrapped byte rate disagrees with the rate and the file no longer
      reads as WAV. */
  lemma ByteRateWrapUnreadable(buffer: AudioBuffer)
    requires buffer.Valid() && TWO_32 <= 2 * buffer.sampleRate < 2 * TWO_32
    ensures ParseWav(WavFile(buffer)) == None
  {
    var w := WavFile(buffer);
    assert !FormatOk(w) by {
      FmtRateFields(buffer);
      assert ToUint32(2 * buffer.sampleRate) == 2 * buffer.sampleRate - TWO_32;
    }
  }

  /** Whatever the rate, when the sizes fit in 32 bits the file reads exactly when
      the wrapped byte rate is twice the wrapped rate, and then it reads as the
      wrapped rate: rates of 2^32 or more can read back as a different rate. */
  lemma WrappedRateReads(buffer: AudioBuffer)
    requires buffer.Valid() && 36 + 2 * buffer.length < TWO_32
    ensures var r := ParseWav(WavFile(buffer));
      && (r.Some? <==> ToUint32(2 * buffer.sampleRate) == 2 * ToUint32(buffer.sampleRate))
      && (r.Some? ==> r.value.sampleRate == ToUint32(buffer.sampleRate))
  {
    var w := WavFile(buffer);
    EncodedTagsOk(buffer);
    ChunkSizesAgree(buffer);
    WrappedFormat(buffer);
    TwiceIsEven(buffer.length);
    FormatDecides(w);
  }

  /** Whatever the rate, the `fmt ` fields pass exactly when the wrapped byte
      rate is twice the wrapped rate, and the rate field holds the wrapped rate. */
  lemma WrappedFormat(buffer: AudioBuffer)
    requires buffer.Valid()
    ensures var w := WavFile(buffer);
      && (FormatOk(w) <==> ToUint32(2 * buffer.sampleRate) == 2 * ToUint32(buffer.sampleRate))
      && FieldAt(w, 24, 4) == ToUint32(buffer.sampleRate)
  {
    FmtFormatFields(buffer);
    FmtRateFields(buffer);
  }

  /** With whole samples, tags and sizes in place, the `fmt ` fields alone decide
      whether a file reads, and it reads with the rate field's value. */
  lemma FormatDecides(w: seq<Byte>)
    requires |w| >= HEADER_SIZE && (|w| - HEADER_SIZE) % 2 == 0 && TagsOk(w) && SizesOk(w)
    ensures ParseWav(w).Some? <==> FormatOk(w)
    ensures ParseWav(w).Some? ==> ParseWav(w).value.sampleRate == FieldAt(w, 24, 4)
  {
  }

  lemma TwiceIsEven(n: nat)
    ensures (2 * n) % 2 == 0
  {
  }

  /** Past 2^32 - 37 samples the size fields wrap, and the file no longer reads as WAV. */
  lemma OversizeUnreadable(buffer: AudioBuffer)
    requires buffer.Valid() && 36 + 2 * buffer.length >= TWO_32
    ensures ParseWav(WavFile(buffer)) == None
  {
    var w := WavFile(buffer);
    assert FieldAt(w, 4, 4) < Pow256(4) == TWO_32;
  }

  // ---------------------------------------------------------------------------
  // Only the canonical layout reads

  /** The bytes a sequence of int16 values occupies: each one's 16-bit pattern, little-endian. */
  function Int16Payload(vs: seq<int>): (data: seq<Byte>)
    ensures |data| == 2 * |vs|
  {
    if vs == [] then [] else Int16Payload(vs[..|vs| - 1]) + LittleEndian(ToUint16(vs[|vs| - 1]), 2)
  }

  /** A signed 16-bit field is the bit pattern of the value it denotes. */
  lemma Int16Reencode(bs: seq<Byte>)
    requires |bs| == 2
    ensures LittleEndian(ToUint16(FromInt16LE(bs)), 2) == bs
  {
    var u := FromLittleEndian(bs);
    assert Pow256(2) == TWO_16;
    if u >= 0x8000 {
      assert ToUint16(u - TWO_16) == u;
    }
    EncodeDecode(bs);
  }

  /** Writing back the int16 values read from a payload gives the same bytes. */
  lemma {:induction false} ReencodeInt16Samples(data: seq<Byte>)
    requires |data| % 2 == 0
    ensures Int16Payload(Int16Samples(data)) == data
  {
    if data != [] {
      var n := |data|;
      var init, last := data[..n - 2], data[n - 2..];
      var v := FromInt16LE(last);
      assert Int16Samples(data) == Int16Samples(init) + [v];
      calc {
        Int16Payload(Int16Samples(init) + [v]);
        == { Int16PayloadSnoc(Int16Samples(init), v); }
        Int16Payload(Int16Samples(init)) + LittleEndian(ToUint16(v), 2);
        == { ReencodeInt16Samples(init); Int16Reencode(last); }
        init + last;
        == 
        data;
      }
    }
  }

  /** Appending a value appends its two bytes. */
  lemma Int16PayloadSnoc(vs: seq<int>, v: int)
    ensures Int16Payload(vs + [v]) == Int16Payload(vs) + LittleEndian(ToUint16(v), 2)
  {
    assert (vs + [v])[..|vs|] == vs;
  }

  /** An unsigned field holding `v` is the little-endian encoding of `v`. */
  lemma FieldIs(w: seq<Byte>, off: nat, n: nat, v: nat)
    requires off + n <= |w| && FieldAt(w, off, n) == v
    ensures w[off..off + n] == LittleEndian(v, n)
  {
    EncodeDecode(w[off..off + n]);
  }

  /** Two adjacent slices make up the slice that spans them. */
  lemma Cat(w: seq<Byte>, off: nat, xs: seq<Byte>, ys: seq<Byte>)
    requires off + |xs| + |ys| <= |w|
    requires w[off..off + |xs|] == xs && w[off + |xs|..off + |xs| + |ys|] == ys
    ensures w[off..off + |xs| + |ys|] == xs + ys
  {
    assert w[off..off + |xs| + |ys|] == w[off..off + |xs|] + w[off + |xs|..off + |xs| + |ys|];
  }

  /** Bytes 0-11 of a file that passes the tag and size checks are the RIFF descriptor for its sample count. */
  lemma RiffCanonical(w: seq<Byte>)
    requires |w| >= HEADER_SIZE && (|w| - HEADER_SIZE) % 2 == 0 && TagsOk(w) && SizesOk(w)
    ensures w[0..12] == RiffDescriptor((|w| - HEADER_SIZE) / 2)
  {
    var n := (|w| - HEADER_SIZE) / 2;
    var size := LittleEndian(ToUint32(36 + n * 2), 4);
    assert Pow256(4) == TWO_32;
    FieldIs(w, 4, 4, 36 + n * 2);
    Cat(w, 0, Ascii("RIFF"), size);
    Cat(w, 0, Ascii("RIFF") + size, Ascii("WAVE"));
  }

  /** Bytes 12-35 of a file that passes the tag and format checks are the `fmt ` sub-chunk for its rate. */
  lemma FmtCanonical(w: seq<Byte>)
    requires |w| >= HEADER_SIZE && TagsOk(w) && FormatOk(w)
    ensures w[12..36] == FmtChunk(FieldAt(w, 24, 4))
  {
    var rate := FieldAt(w, 24, 4);
    assert Pow256(4) == TWO_32;
    var f0, f1, f2, f3 := Ascii("fmt "), LittleEndian(ToUint32(16), 4), LittleEndian(ToUint16(1), 2), LittleEndian(ToUint16(1), 2);
    var f4, f5 := LittleEndian(ToUint32(rate), 4), LittleEndian(ToUint32(rate * 2), 4);
    var f6, f7 := LittleEndian(ToUint16(2), 2), LittleEndian(ToUint16(16), 2);
    FieldIs(w, 16, 4, 16);
    FieldIs(w, 20, 2, 1);
    FieldIs(w, 22, 2, 1);
    FieldIs(w, 24, 4, rate);
    FieldIs(w, 28, 4, rate * 2);
    FieldIs(w, 32, 2, 2);
    FieldIs(w, 34, 2, 16);
    Cat(w, 12, f0, f1);
    Cat(w, 12, f0 + f1, f2);
    Cat(w, 12, f0 + f1 + f2, f3);
    Cat(w, 12, f0 + f1 + f2 + f3, f4);
    Cat(w, 12, f0 + f1 + f2 + f3 + f4, f5);
    Cat(w, 12, f0 + f1 + f2 + f3 + f4 + f5, f6);
    Cat(w, 12, f0 + f1 + f2 + f3 + f4 + f5 + f6, f7);
  }

  /** Bytes 36-43 of a file that passes the tag and size checks are the data chunk header for its sample count. */
  lemma DataCanonical(w: seq<Byte>)
    requires |w| >= HEADER_SIZE && (|w| - HEADER_SIZE) % 2 == 0 && TagsOk(w) && SizesOk(w)
    ensures w[36..44] == DataChunkHeader((|w| - HEADER_SIZE) / 2)
  {
    var n := (|w| - HEADER_SIZE) / 2;
    assert Pow256(4) == TWO_32;
    FieldIs(w, 40, 4, n * 2);
    Cat(w, 36, Ascii("data"), LittleEndian(ToUint32(n * 2), 4));
  }

  /** The first 44 bytes of a file that passes the header checks are the header for its rate and sample count. */
  lemma HeaderCanonical(w: seq<Byte>)
    requires |w| >= HEADER_SIZE && (|w| - HEADER_SIZE) % 2 == 0 && TagsOk(w) && SizesOk(w) && FormatOk(w)
    ensures w[..HEADER_SIZE] == Header((|w| - HEADER_SIZE) / 2, FieldAt(w, 24, 4))
  {
    var n, rate := (|w| - HEADER_SIZE) / 2, FieldAt(w, 24, 4);
    var riff, fmt, data := RiffDescriptor(n), FmtChunk(rate), DataChunkHeader(n);
    RiffCanonical(w);
    FmtCanonical(w);
    DataCanonical(w);
    Cat(w, 0, riff, fmt);
    Cat(w, 0, riff + fmt, data);
  }

  /** Only the canonical layout reads: a file the reader accepts is exactly the
      44-byte header for the rate and sample count it reads, followed by the
      16-bit patterns of the samples it reads. */
  lemma ParseOnlyCanonical(w: seq<Byte>)
    requires ParseWav(w).Some?
    ensures var p := ParseWav(w).value;
      w == Header(|p.samples|, p.sampleRate) + Int16Payload(p.samples)
  {
    var p := ParseWav(w).value;
    var data := w[HEADER_SIZE..];
    assert p.samples == Int16Samples(data) && p.sampleRate == FieldAt(w, 24, 4);
    HeaderCanonical(w);
    ReencodeInt16Samples(data);
    assert w == w[..HEADER_SIZE] + data;
  }

  /** Three samples at 16 kHz: silence, full positive and full negative scale
      read back as 16000 Hz and the int16 values 0, 32767 and -32768, whatever
      the other channels hold. */
  lemma ThreeSampleScenario(buffer: AudioBuffer)
    requires buffer.Valid() && buffer.sampleRate == 16000 && buffer.channels[0] == [0.0, 1.0, -1.0]
    ensures |WavFile(buffer)| == 50
    ensures FieldAt(WavFile(buffer), 24, 4) == 16000
    ensures ParseWav(WavFile(buffer)) == Some(PcmStream(16000, [0, 32767, -32768]))
  {
    var ch := buffer.channels[0];
    ReadEncoded(buffer);
    RatesAgree(buffer);
    FullScale(ch[0]);
    FullScale(ch[1]);
    FullScale(ch[2]);
    assert SampleValues(ch) == [0, 32767, -32768];
  }
}
