# Pronunciation practice page: WAV encoder and display helpers

The pronunciation practice page records speech in the browser. It repackages
the decoded audio as a canonical mono 16-bit PCM WAV file, then sends the file
to a pronunciation-assessment service. The file is built by `audioBufferToWav`.
That function allocates an `ArrayBuffer` of `44 + 2 × length` bytes and writes
a 44-byte RIFF/WAVE header through a `DataView`, little-endian. It then stores
each sample of channel 0 as a signed 16-bit integer: the sample is clamped to
[-1, 1] and scaled asymmetrically, by 0x8000 below zero and by 0x7fff
otherwise. The page also holds small pure helpers that turn scores into text
and colours:

- `generateFeedback`: the per-word feedback message.
- `formatTime`: the recording timer's `m:ss` text.
- `getScoreColor` and `getScoreBgColor`: the Tailwind colour classes.

The model consists of these modules:

- `Bytes` (`bytes.dfy`) holds the byte, little-endian and ECMAScript integer
  conversions used by `DataView.setUint8/16/32` and `setInt16`. These are
  ToUint16 and ToUint32 as reduction modulo 2^16 and 2^32, and ToInt16 as
  truncation toward zero followed by that reduction. It also has the setters,
  written as methods that store into an `array<Byte>`. The `Stored` predicate
  says what each write leaves in the buffer.
- `WavEncoder` (`wav.dfy`) is the encoder. `AudioBufferToWav` is imperative
  over an array: a header writer for each chunk, then the sample loop. It is
  proved against the specification function `WavFile`, which is the header
  followed by the payload.
- `WavProperties` (`wav.dfy`) shows where every header field sits and what it
  decodes to.
- `SampleProperties` (`wav.dfy`) covers what happens to one sample: clamping,
  full scale, monotonicity, and that the stored int16 never wraps.
- `WavReader` (`wav_reader.dfy`) reads the encoder's output back. It defines
  `ParseWav`, a reference reader of the canonical PCM layout, which is not part
  of the page itself. `ParseWav` accepts a file only when the file has four
  things: a 44-byte header followed by whole 16-bit samples, the four tags, size
  fields that match the file's length, and the mono 16-bit PCM format fields.
  It then returns the rate field and the samples.
  - The encoder's output reads back as the buffer's sample rate and channel 0's
    encoded samples. This holds when the sizes and the byte rate fit in 32 bits.
  - When the size fields wrap, the file is rejected. The same holds when the
    byte rate wraps while the rate itself fits in 32 bits.
  - When the sizes fit in 32 bits, the file is read, for any rate, exactly when
    the wrapped byte rate is twice the wrapped rate, and it then reads as the
    wrapped rate. A rate of 2^32, for instance, reads back as 0.
  - Any file the reader accepts is exactly the canonical encoding of what it
    reads.
- `Display` (`display.dfy`) holds the feedback, timer and colour helpers. Each
  is related to a reference definition: threshold counting that indexes a
  message table, and a decimal parser as the inverse of the number printing.

## Model

| member | source | states |
|---|---|---|
| Bytes.LittleEndian | app/page.tsx:197 | a `width`-byte little-endian field has exactly `width` bytes |
| Bytes.FromLittleEndian | app/page.tsx:197 | an n-byte little-endian field denotes a value below 256^n |
| Bytes.DecodeEncode | app/page.tsx:197 | reading back a little-endian field gives the stored value whenever it fits in the field |
| Bytes.EncodeDecode | app/page.tsx:197 | a byte sequence is the little-endian encoding of the value it denotes |
| Bytes.ToUint16 | app/page.tsx:202 | setUint16's conversion lands in [0, 2^16) and leaves in-range values unchanged |
| Bytes.ToUint32 | app/page.tsx:197 | setUint32's conversion lands in [0, 2^32) and leaves in-range values unchanged |
| Bytes.Trunc | app/page.tsx:215-219 | ToInt16's first step rounds toward zero: the result is the integer part, no further from zero than the number |
| Bytes.TruncMonotone | app/page.tsx:215-219 | rounding toward zero preserves order |
| Bytes.FromInt16LE | app/page.tsx:215-219 | a two-byte two's-complement field denotes an integer in [-32768, 32768) |
| Bytes.Int16RoundTrip | app/page.tsx:215-219 | every int16 written by setInt16 reads back signed as itself |
| Bytes.StoredConcat | app/page.tsx:196-208 | two adjacent writes leave the buffer as one write of both byte strings would |
| Bytes.WriteBytes | app/page.tsx:197-219 | storing bytes one by one puts them at the offset and leaves every other byte unchanged |
| Bytes.SetUint16 | app/page.tsx:202 | setUint16(off, v, true) stores ToUint16(v) little-endian at off and changes nothing else |
| Bytes.SetUint32 | app/page.tsx:197 | setUint32(off, v, true) stores ToUint32(v) little-endian at off and changes nothing else |
| Bytes.SetInt16 | app/page.tsx:215-219 | setInt16(off, x, true) stores the 16-bit pattern of x truncated toward zero and changes nothing else |
| WavEncoder.Ascii | app/page.tsx:190-194 | writeString stores one byte per character |
| WavEncoder.Clamp | app/page.tsx:214 | the clamped sample lies in [-1, 1], equals the sample inside that range and the nearer bound outside it |
| WavEncoder.Scale | app/page.tsx:217 | the scaled sample of a clamped value stays within [-32768, 32767], keeps its sign, and maps -1 to -32768 and 1 to 32767 |
| WavEncoder.SampleValue | app/page.tsx:214-219 | the integer stored for a sample lies in [-32768, 32767] |
| WavEncoder.SampleBytes | app/page.tsx:215-219 | each sample occupies exactly two bytes |
| WavEncoder.Payload | app/page.tsx:211-221 | the data chunk holds two bytes per sample |
| WavEncoder.PayloadSnoc | app/page.tsx:211-221 | one more loop iteration appends that sample's two bytes to the data written so far |
| WavEncoder.SampleStored | app/page.tsx:213-221 | after one more sample is stored at 44 + 2i, the buffer from byte 44 holds the payload of the first i + 1 samples |
| WavEncoder.RiffDescriptor | app/page.tsx:196-198 | the RIFF descriptor is 12 bytes |
| WavEncoder.FmtChunk | app/page.tsx:199-206 | the `fmt ` sub-chunk with its header is 24 bytes |
| WavEncoder.DataChunkHeader | app/page.tsx:207-208 | the `data` tag and size are 8 bytes |
| WavEncoder.Header | app/page.tsx:196-208 | the header is 44 bytes |
| WavEncoder.WavFile | app/page.tsx:186 | the file is 44 + 2 × length bytes long |
| WavEncoder.WriteString | app/page.tsx:190-194 | writeString stores the character codes modulo 256 at the offset and changes nothing else |
| WavEncoder.WriteRiffDescriptor | app/page.tsx:196-198 | bytes 0-11 become "RIFF", ToUint32(36 + 2 × length) and "WAVE"; the rest is unchanged |
| WavEncoder.WriteFmtChunk | app/page.tsx:199-206 | bytes 12-35 become the `fmt ` sub-chunk (PCM, mono, the rate, byte rate, block align 2, 16 bits); the rest is unchanged |
| WavEncoder.WriteDataChunkHeader | app/page.tsx:207-208 | bytes 36-43 become "data" and ToUint32(2 × length); the rest is unchanged |
| WavEncoder.WriteHeader | app/page.tsx:196-208 | the header writes together leave exactly the 44-byte header in bytes 0-43 |
| WavEncoder.WriteSamples | app/page.tsx:210-221 | the sample loop leaves channel 0's payload from byte 44 onward and the header untouched |
| WavEncoder.AudioBufferToWav | app/page.tsx:183-224 | the returned fresh buffer of 44 + 2 × length bytes holds exactly the header followed by channel 0's payload |
| WavProperties.TagBytes | app/page.tsx:196-207 | the four tags are the bytes of "RIFF", "WAVE", "fmt " and "data" |
| WavProperties.Layout | app/page.tsx:183-224 | bytes 0-11, 12-35, 36-43 and 44 onward are the RIFF descriptor, `fmt ` sub-chunk, data header and payload |
| WavProperties.PayloadRegion | app/page.tsx:211-221 | bytes 44 to 44 + 2 × length of the file are channel 0's payload |
| WavProperties.RiffChunkFields | app/page.tsx:196-198 | the file starts with "RIFF", the RIFF size reads ToUint32(36 + 2 × length), and "WAVE" follows |
| WavProperties.RiffDescriptorValues | app/page.tsx:196-198 | the RIFF descriptor reads "RIFF", size ToUint32(36 + 2 × length), "WAVE" |
| WavProperties.FmtFormatValues | app/page.tsx:199-202 | the `fmt ` sub-chunk reads size 16, format 1 (PCM) and 1 channel |
| WavProperties.FmtRateValues | app/page.tsx:203-206 | the `fmt ` sub-chunk reads the rate, twice the rate, block align 2 and 16 bits per sample (rates wrap modulo 2^32) |
| WavProperties.FmtFormatFields | app/page.tsx:199-202 | in the file, "fmt " sits at byte 12 with size 16, format 1 and 1 channel at bytes 16, 20 and 22 |
| WavProperties.FmtRateFields | app/page.tsx:203-206 | in the file, bytes 24, 28, 32 and 34 read the rate, twice the rate, 2 and 16 |
| WavProperties.DataChunkFields | app/page.tsx:207-208 | "data" sits at byte 36 and its size field reads ToUint32(2 × length) |
| WavProperties.DataHeaderValues | app/page.tsx:207-208 | the data chunk header reads "data" and the size ToUint32(2 × length) |
| SampleProperties.StoredExactly | app/page.tsx:214-219 | the stored int16 reads back as exactly the clamped, scaled, truncated sample: ToInt16 never wraps |
| SampleProperties.FullScale | app/page.tsx:214-219 | samples at or above 1 store 32767, at or below -1 store -32768, and silence stores 0 |
| SampleProperties.ClampedAlike | app/page.tsx:214 | out-of-range samples are stored exactly like 1.0 or -1.0 |
| SampleProperties.SampleMonotone | app/page.tsx:214-219 | a larger sample never encodes to a smaller integer |
| SampleProperties.SampleSign | app/page.tsx:214-219 | the encoded integer never has the opposite sign to the sample; negative samples above -1/32768 truncate to 0, and -1/32768 itself stores -1 |
| WavReader.SampleValues | app/page.tsx:211-221 | one encoded integer per sample |
| WavReader.Int16Samples | app/page.tsx:211-221 | reading the payload gives one int16 per two bytes |
| WavReader.PayloadAt | app/page.tsx:211-221 | sample i occupies payload bytes 2i and 2i + 1 (the offset advances by 2) |
| WavReader.DecodePayload | app/page.tsx:211-221 | reading the payload back gives every sample's encoded integer, in order |
| WavReader.SampleAt | app/page.tsx:211-221 | the int16 at byte 44 + 2i is channel 0's sample i, clamped, scaled and truncated |
| WavReader.SilentPayload | app/page.tsx:211-221 | a silent channel yields an all-zero payload |
| WavReader.OnlyChannelZero | app/page.tsx:211 | buffers agreeing on rate, length and channel 0 give the same file, whatever their other channels hold |
| WavReader.ChunkSizesAgree | app/page.tsx:197-208 | without wrap, the RIFF size is the file size less 8, the data size is the file size less 44, and they differ by 36 |
| WavReader.RatesAgree | app/page.tsx:203-205 | without wrap, the rate field is the sample rate and the byte rate is rate × block align |
| WavReader.EncodedTagsOk | app/page.tsx:196-207 | the encoder's file carries all four tags |
| WavReader.EncodedFormatOk | app/page.tsx:199-206 | the encoder's file carries the canonical mono 16-bit PCM format fields when twice the rate fits in 32 bits |
| WavReader.ReadEncoded | app/page.tsx:183-224 | round trip: if the sizes and the byte rate fit in 32 bits, the file reads back as the buffer's rate and channel 0's encoded samples |
| WavReader.WrappedRateReads | app/page.tsx:203-204 | with sizes that fit, the file reads exactly when ToUint32(2 × rate) equals 2 × ToUint32(rate), and it then reads as ToUint32(rate) |
| WavReader.WrappedFormat | app/page.tsx:199-206 | for any rate, the format fields pass exactly when ToUint32(2 × rate) equals 2 × ToUint32(rate), and the rate field holds ToUint32(rate) |
| WavReader.OversizeUnreadable | app/page.tsx:197 | once 36 + 2 × length reaches 2^32, the wrapped RIFF size makes the file unreadable |
| WavReader.ByteRateWrapUnreadable | app/page.tsx:203-204 | for a rate in [2^31, 2^32), the byte rate wraps modulo 2^32 and no longer equals twice the rate, so the file is unreadable |
| WavReader.Int16Payload | app/page.tsx:211-221 | int16 values occupy two bytes each |
| WavReader.Int16PayloadSnoc | app/page.tsx:211-221 | writing one more int16 appends its two-byte pattern |
| WavReader.Int16Reencode | app/page.tsx:215-219 | a signed 16-bit field is the setInt16 bit pattern of the value it denotes |
| WavReader.ReencodeInt16Samples | app/page.tsx:211-221 | writing back the int16 values read from a payload gives the same bytes |
| WavReader.RiffCanonical | app/page.tsx:196-198 | in any file that passes the tag and size checks, bytes 0-11 are the RIFF descriptor the encoder writes for its sample count |
| WavReader.FmtCanonical | app/page.tsx:199-206 | in any file that passes the tag and format checks, bytes 12-35 are the `fmt ` sub-chunk the encoder writes for its rate |
| WavReader.DataCanonical | app/page.tsx:207-208 | in any file that passes the tag and size checks, bytes 36-43 are the data header the encoder writes for its sample count |
| WavReader.HeaderCanonical | app/page.tsx:196-208 | in any file that passes the header checks, bytes 0-43 are the encoder's header for its rate and sample count |
| WavReader.ParseOnlyCanonical | app/page.tsx:183-224 | any file the reader accepts is exactly the encoder's header for the rate and sample count it reads, followed by the 16-bit patterns of the samples it reads |
| WavReader.ThreeSampleScenario | app/page.tsx:183-224 | samples 0.0, 1.0 and -1.0 at 16000 Hz give a 50-byte file reading back 16000 Hz and 0, 32767, -32768 |
| Display.ReachedMonotone | app/page.tsx:468-472 | a higher score reaches at least as many thresholds |
| Display.GenerateFeedback | app/page.tsx:462-473 | Omission, Insertion and Mispronunciation get their fixed message whatever the score; any other error type gets the table entry for the number of the 60/70/80/90 thresholds the score reaches |
| Display.FeedbackMonotone | app/page.tsx:468-472 | a higher score never gets a message from a lower band |
| Display.DecimalString | app/page.tsx:478 | a number prints as a non-empty string of digits with no leading zero unless it is 0 |
| Display.ParseDecimalString | app/page.tsx:478 | reading the printed digits gives the number back |
| Display.LeadingZeros | app/page.tsx:478 | zeros added by padStart do not change the number |
| Display.PaddedValue | app/page.tsx:478 | padding the seconds to two digits with zeros keeps their value |
| Display.PaddedDigits | app/page.tsx:478 | seconds below 100 pad to exactly two digits |
| Display.PadStart | app/page.tsx:478 | padStart reaches the target length, keeps the string at the end and fills the front with the pad character |
| Display.FormatTime | app/page.tsx:475-479 | the timer text is digits, a colon third from the end, and two digits |
| Display.FormatTimeParts | app/page.tsx:475-479 | the minutes have no leading zeros, the two seconds digits read below 60, and minutes × 60 + seconds is the input |
| Display.ScoreColor | app/page.tsx:481-485 | the text class shows the hue for the number of the 70 and 90 thresholds reached: red, yellow or green |
| Display.ScoreBgColor | app/page.tsx:487-491 | the background class shows the hue from the same table and thresholds, so it always matches the text colour |
| Display.ColorMonotone | app/page.tsx:481-485 | a higher score never shows a hue further down red, yellow, green |

## Left out

- Everything else on the page is not part of this model:
  - the React state, rendering and event handlers;
  - microphone capture and MediaRecorder;
  - `convertToWav`'s decoding through an AudioContext;
  - the assessment request and the mock result;
  - the API route to the language model, and the Next.js and Tailwind configuration.
- `buffer.getChannelData(0)` and the AudioBuffer's fields are taken as values. The `AudioBuffer` datatype carries the rate, the length and the channels' samples.
- Samples and scores are modelled as exact reals rather than IEEE doubles. NaN, infinities and rounding in `sample * 0x8000` are not modelled.
- WavEncoder.AudioBuffer: the sample rate is modelled as a natural number. Fractional rates, which setUint32 would truncate, are not modelled.
- WavEncoder.Ascii: characters are Unicode scalar values rather than UTF-16 code units. Tags are ASCII, so the stored bytes are the same.
- WavEncoder.WriteRiffDescriptor, WavEncoder.WriteFmtChunk, WavEncoder.WriteDataChunkHeader, WavEncoder.WriteHeader, WavEncoder.WriteSamples: the straight-line body of `audioBufferToWav` is split into these helper methods. They perform the same writes in the same order.
- Display.FormatTime: `formatTime` is modelled on natural numbers, because its one caller passes `Math.floor(recordingTime / 10)`. Negative and fractional inputs are not modelled.
- Display.DecimalString: always prints plain digits. JavaScript's `Number.prototype.toString` switches to exponent form at 10^21 and above. The timer never reaches such values.
- Display.GenerateFeedback, Display.ScoreColor, Display.ScoreBgColor: scores are reals, so NaN, for which every comparison is false, is not modelled. The same goes for `undefined`. app/page.tsx:373 passes `word.PronunciationAssessment?.AccuracyScore`, which is `undefined` when the field is missing. `undefined` compares like NaN, so in the source such a word gets "Significant improvement needed".
