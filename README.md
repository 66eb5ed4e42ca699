# Wave: a RIFF/WAVE PCM encoder, modelled in Dafny

The `Wave` object of Synzer turns a list of samples into a playable
`data:audio/wav;base64,…` URI (RFC 2397, section 3). It is constructed with an
`options` object (`channels`, `sampleRate`, `bitsPerSample`). `setData`
replaces its sample list. `getDataURI` writes a 44-byte little-endian WAVE
header followed by the packed samples, base64-encodes that file image and
puts the URI prefix in front. The header is the canonical one of the WAVE
form in the Multimedia Programming Interface and Data Specifications 1.0:
a "RIFF" chunk of form "WAVE", a 16-byte "fmt " chunk with format tag 1 (PCM),
and a "data" chunk.

The behaviour modelled is the one the test suite `spec/WaveSpec.js` pins
down. The implementation file `js/Wave.js` is not part of this model.

Files:

- `bytes.dfy`, module `Bytes`: bytes, little-endian fields and their
  readers (`DataView.getUint16/getUint32(pos, true)`), binary strings, and
  loop-based writers into an `array<byte>`. The writers are proved against
  `Splice`, and reading back what was written is proved to give the value
  modulo the field's range.
- `wave.dfy`, module `WaveEncoder`: `Options`, the header as a function of
  the configuration and the sample count, the class `Wave` (a constant
  `options` and a mutable `data: Option<seq<int>>`), and the header
  properties.
- `wave_spec.dfy`, module `WaveSpec`: what the tests do with a URI
  (`indexOf`, `replace`, `atob`, the `Uint8Array` fill loop, the `str`
  helper) and what they expect: the prefix, the missing-data error, the
  effect of `setData`, and every header value for the two configurations
  the tests use.

Modelling decisions:

- **Data size.** The tests expect Subchunk2Size `10 * 8 * 8` = 640 and
  ChunkSize `36 + 640` for ten samples, 2 channels and 8 bits
  (`spec/WaveSpec.js:74`, `:119`). The usual WAVE convention,
  `sampleCount * bitsPerSample / 8` bytes, would give 10 here, with
  ChunkSize 46. The model follows the tests. The tests fix only this one
  non-empty instance and the empty case. Many formulas agree on both (for
  example `n * bits * 8`, `n * bits * bits`, `n * channels * bits * 4` or
  `64 * n`), and the tests cannot tell them apart. The model picks one of
  them, `DataSize = sampleCount * bitsPerSample * 8`. `StereoEightBitTenSamples`
  proves the 640/676 values and also that the bytes-per-sample reading
  (10) is not what the header holds.
- **Field widths.** A `DataView` store keeps only the low 16 or 32 bits of a
  value, and it truncates a non-negative fraction toward zero. So every
  field is written as `value % 2^16` or `value % 2^32`. `ByteRate` and
  `BlockAlign` use integer `/ 8`. The general lemmas state the fields
  modulo their width. `ExactHeaderFields` drops the modulus when
  `FitsHeader` holds.
- **Missing data.** The test at `spec/WaveSpec.js:25-27` passes the unbound
  method `wave.getDataURI` after `beforeEach` has already called `setData`.
  The model follows the test's stated intent. Encoding fails with
  `MissingData` exactly when `setData` was never called. An empty list is
  valid data.
- **Foreign functions.** `btoa`/`atob` and the packing of samples after
  byte 44 are parameters (`btoa`, `atob`, `pack`). Wherever a property needs
  base64 to be invertible, it assumes `Base64RoundTrip` (`atob(btoa(s)) == s`
  on binary strings) as a precondition.

## Model

| member | source | states |
|---|---|---|
| Bytes.LittleEndian | spec/WaveSpec.js:82-90 | the typed little-endian store that `getUint16/32(pos, true)` reads: exactly `width` bytes (what they decode to is `ReadWritten`) |
| Bytes.FromLittleEndian | spec/WaveSpec.js:72-120 | the value of n little-endian bytes is below 256^n |
| Bytes.ReadUint16 | spec/WaveSpec.js:87-90 | `getUint16(pos, true)` reads two bytes at `pos`; the result is below 2^16 |
| Bytes.ReadUint32 | spec/WaveSpec.js:82-85 | `getUint32(pos, true)` reads four bytes at `pos`; the result is below 2^32 |
| Bytes.ReadWritten | spec/WaveSpec.js:72-120 | reading back a width-byte little-endian field gives the written value modulo 256^width (wrap-around of typed stores) |
| Bytes.ReadWrittenInRange | spec/WaveSpec.js:92-100 | a value that fits its field reads back unchanged |
| Bytes.WriteRead | spec/WaveSpec.js:72-120 | every byte sequence is the little-endian encoding of the value it decodes to (the other half of the round trip) |
| Bytes.Chars | spec/WaveSpec.js:57-63 | `String.fromCharCode` of each byte: same length, each character's code is the byte |
| Bytes.CharCodes | spec/WaveSpec.js:49-52 | storing character codes into a `Uint8Array` keeps each code modulo 256 |
| Bytes.Latin1 | spec/WaveSpec.js:65-70 | the bytes of a chunk tag such as "RIFF" read back as the same string through `Chars` |
| Bytes.WriteLittleEndian | spec/WaveSpec.js:72-120 | the loop writes exactly the little-endian bytes of the value at `pos` and leaves all other bytes unchanged |
| Bytes.WriteBytes | spec/WaveSpec.js:77-80 | the loop copies the given bytes to `pos` and leaves all other bytes unchanged |
| WaveEncoder.DataSize | spec/WaveSpec.js:117-120 | Subchunk2Size (also inside ChunkSize at line 74): zero exactly when there are no samples or the sample width is 0, and always a multiple of 8; `sampleCount * bitsPerSample * 8` is one formula among several that give 640 for the ten 8-bit samples |
| WaveEncoder.ByteRate | spec/WaveSpec.js:102-105 | `sampleRate * bitsPerSample * channels / 8`, truncated: never less than `BlockAlign * sampleRate`, and equal to it when a frame is a whole number of bytes |
| WaveEncoder.BlockAlign | spec/WaveSpec.js:107-110 | `bitsPerSample * channels / 8`, truncated: the largest whole number of bytes not above the frame's bit count over 8 |
| WaveEncoder.Header | spec/WaveSpec.js:36-121 | the header is exactly 44 bytes for every configuration and sample count |
| WaveEncoder.WriteRiffDescriptor | spec/WaveSpec.js:65-75 | writes "RIFF", ChunkSize and "WAVE" at `pos`; nothing else changes |
| WaveEncoder.WriteFormatChunk | spec/WaveSpec.js:77-115 | writes the 24-byte "fmt " chunk at `pos`; nothing else changes |
| WaveEncoder.WriteDataChunkHead | spec/WaveSpec.js:117-120 | writes "data" and Subchunk2Size at `pos`; nothing else changes |
| WaveEncoder.HeaderLayout | spec/WaveSpec.js:36-121 | the offset and width of every header field, with the packed samples from byte 44 on |
| WaveEncoder.RiffWaveTags | spec/WaveSpec.js:65-70 | bytes 0-3 spell "RIFF" and bytes 8-11 spell "WAVE" for every configuration |
| WaveEncoder.FormatChunkFixedFields | spec/WaveSpec.js:77-90 | bytes 12-14 spell "fmt", Subchunk1Size at 16 is 16, AudioFormat at 20 is 1 (PCM) |
| WaveEncoder.ConfiguredFields | spec/WaveSpec.js:92-100 | NumChannels at 22, SampleRate at 24 and BitsPerSample at 34 (lines 112-115) are the configured values, reduced to their field width |
| WaveEncoder.DerivedRateFields | spec/WaveSpec.js:102-110 | ByteRate at 28 is `sampleRate * bitsPerSample * channels / 8` and BlockAlign at 32 is `bitsPerSample * channels / 8`, truncated and reduced to the field width |
| WaveEncoder.SizeFields | spec/WaveSpec.js:72-75 | Subchunk2Size at 40 is the data size, and ChunkSize at 4 equals `36 + Subchunk2Size` (modulo 2^32) for every configuration (Subchunk2Size check at lines 117-120) |
| WaveEncoder.ExactHeaderFields | spec/WaveSpec.js:92-120 | when no value overflows its field, every numeric field reads back exactly |
| WaveEncoder.WaveFile | spec/WaveSpec.js:46-53 | the file image the tests decode: the 44-byte header, then the packed samples from byte 44 on |
| WaveEncoder.Encoded | spec/WaveSpec.js:21-33 | encoding fails exactly when no data was set, with `MissingData`; otherwise the result starts with the header for the number of samples set |
| WaveEncoder.DataUri | spec/WaveSpec.js:21-27 | what `getDataURI` yields: an error exactly when no data was set, with `MissingData`; otherwise a string that starts with `data:audio/wav;base64,` |
| WaveEncoder.Wave.constructor | spec/WaveSpec.js:39-42 | the instance keeps the given `options` and starts with no data |
| WaveEncoder.Wave.SetData | spec/WaveSpec.js:43-44 | the sample list is replaced wholesale |
| WaveEncoder.Wave.Encode | spec/WaveSpec.js:46-53 | fills a buffer field by field; the result is `MissingData` without data, otherwise the header followed by the packed samples; it changes no state |
| WaveEncoder.Wave.GetDataUri | spec/WaveSpec.js:21-27 | the prefix followed by the base64 text of the encoding; it fails exactly when encoding fails |
| WaveSpec.IndexOf | spec/WaveSpec.js:22 | `indexOf` gives the first index where the pattern occurs, or -1 when it does not occur |
| WaveSpec.RemoveFirst | spec/WaveSpec.js:47 | `replace(pat, '')` with a string pattern: a leading occurrence is stripped, any first occurrence shortens the string by the pattern's length, and without an occurrence the string is unchanged |
| WaveSpec.HarnessView | spec/WaveSpec.js:47-52 | the bytes a test's view holds: for a URI that starts with the prefix, the character codes, modulo 256, of `atob` of the rest; without the prefix, of `atob` of the whole URI |
| WaveSpec.ToUint8Array | spec/WaveSpec.js:48-52 | the loop fills a fresh array with the character codes modulo 256 |
| WaveSpec.Str | spec/WaveSpec.js:57-63 | the accumulating loop yields the characters of the `length` bytes from `pos` |
| WaveSpec.UriPrefix | spec/WaveSpec.js:21-27 | the URI is an error iff no data was set, and that error is `MissingData`; otherwise `indexOf(prefix)` is 0 |
| WaveSpec.HarnessRecoversFile | spec/WaveSpec.js:46-54 | stripping the prefix, `atob` and the byte loop give back the file image |
| WaveSpec.UriDeterminesFile | spec/WaveSpec.js:29-33 | equal URIs come from equal file images |
| WaveSpec.DataSizeInjective | spec/WaveSpec.js:117-120 | with a non-zero sample width, different sample counts give different data sizes |
| WaveSpec.SetDataChangesUri | spec/WaveSpec.js:29-33 | replacing the samples by a list of another length changes the URI (no stale output) |
| WaveSpec.MonoSixteenBitEmpty | spec/WaveSpec.js:65-120 | 1 channel, 8000 Hz, 16 bits, no samples: tags, ChunkSize 36, 16, 1, 1, 8000, 16000, 2, 16, Subchunk2Size 0, 44 header bytes |
| WaveSpec.StereoEightBitTenSamples | spec/WaveSpec.js:65-120 | 2 channels, 44100 Hz, 8 bits, ten samples: tags, ChunkSize 676, 16, 1, 2, 44100, 88200, 2, 8, Subchunk2Size 640, which differs from the bytes-per-sample value 10 |
| WaveSpec.ThrowsWithoutData | spec/WaveSpec.js:25-27 | a new `Wave` given no data yields `MissingData` from `GetDataUri` |
| WaveSpec.PrefixAtStart | spec/WaveSpec.js:21-23 | after `setData([91])` the prefix is found at index 0 |
| WaveSpec.SetDataInfluencesUri | spec/WaveSpec.js:29-33 | the URIs before and after `setData([1..10])` both exist and differ |
| WaveSpec.HeaderViews | spec/WaveSpec.js:38-55 | the views the header tests decode are the two file images, with ChunkSize/Subchunk2Size 36/0 and 676/640 |

## Left out

- js/Wave.js is not part of this model. The encoder is modelled from what the tests assert about it.
- The default option values of `new Wave()` with no argument are left out because no test asserts them. The constructor always takes `Options`.
- The packing of samples after byte 44 is a caller-supplied function `pack`, because no test asserts it. So the model does not relate Subchunk2Size to the payload's real length.
- Base64 (`btoa`, `atob`) is foreign code, so it is a parameter. Properties that decode the URI assume `atob(btoa(s)) == s` on binary strings as a precondition.
- JavaScript exceptions are modelled as the `Result` value `Err(MissingData)`. Malformed options (negative, fractional or non-numeric values) are outside the model, whose options are natural numbers.
- `Str`, `ReadUint16`, `ReadUint32`: a `DataView` read past the end throws `RangeError`. These three members require the read to lie inside the view instead, as every read in the tests does.
- SetDataChangesUri: proved only for sample lists of different lengths, whose data sizes both fit 32 bits, with a non-zero sample width. The tests' lists have lengths 1 and 10. Two equal-length lists differ only in the payload, and the payload's packing is not modelled.
- The test at `spec/WaveSpec.js:26` calls `getDataURI` without its receiver, so its outcome does not reflect the data set in `beforeEach`, and what it does depends on how the encoder reads `this`. The model follows the test's name instead (see above).
- The tests with empty bodies (`spec/WaveSpec.js:123-138`) assert nothing, so they are not modelled.
- `spec/SynthSpec.js` is left out: it tests Web Audio wiring through mocks and floating-point pitch arithmetic, and none of it is part of the encoder.
