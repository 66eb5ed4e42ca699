/** The `Wave` encoder: a RIFF/WAVE linear-PCM file image built from a fixed
    configuration and a replaceable list of samples, and rendered as a
    `data:audio/wav;base64,` URI (RFC 2397, section 3).

    The header is the 44-byte canonical WAVE header of the Multimedia
    Programming Interface and Data Specifications 1.0: a "RIFF" chunk of form
    "WAVE" holding a 16-byte "fmt " chunk (format tag 1, PCM) and a "data"
    chunk. Every multi-byte field is an unsigned little-endian integer. */
module WaveEncoder {
  import opened Bytes

  /** The `options` object a `Wave` is constructed with. */
  datatype Options = Options(channels: nat, sampleRate: nat, bitsPerSample: nat)

  datatype Option<T> = None | Some(value: T)

  /** The one failure of the encoder: no sample list was ever set. */
  datatype Error = MissingData

  datatype Result<T> = Ok(value: T) | Err(error: Error)

  const HEADER_SIZE: nat := 44

  /** The MIME type and encoding that open every URI the encoder produces. */
  const URI_PREFIX: string := "data:audio/wav;base64,"

  /** Subchunk2Size, the byte count announced by the "data" chunk, as the
      encoder's behaviour fixes it: `sampleCount * bitsPerSample * 8`. */
  function DataSize(o: Options, sampleCount: nat): (d: nat)
    ensures d == 0 <==> sampleCount == 0 || o.bitsPerSample == 0
    ensures d % 8 == 0
  {
    sampleCount * o.bitsPerSample * 8
  }

  /** Bytes per second of audio. Integer division truncates as the
      conversion of a `DataView` store does for a non-negative value. */
  function ByteRate(o: Options): (r: nat)
    ensures r >= BlockAlign(o) * o.sampleRate
    ensures (o.bitsPerSample * o.channels) % 8 == 0 ==> r == BlockAlign(o) * o.sampleRate
  {
    TruncatedScale(o.bitsPerSample * o.channels, o.sampleRate);
    o.sampleRate * o.bitsPerSample * o.channels / 8
  }

  /** Bytes per frame (one sample of every channel). */
  function BlockAlign(o: Options): (a: nat)
    ensures 8 * a <= o.bitsPerSample * o.channels < 8 * a + 8
  {
    o.bitsPerSample * o.channels / 8
  }

  /** Scaling before truncating division by 8 never gives less than scaling
      after it, and gives the same when nothing is truncated. */
  lemma TruncatedScale(x: nat, m: nat)
    ensures (x / 8) * m <= m * x / 8
    ensures x % 8 == 0 ==> m * x / 8 == (x / 8) * m
  {
  }

  /** The "RIFF" chunk descriptor: tag, ChunkSize, form type "WAVE". */
  function RiffDescriptor(o: Options, sampleCount: nat): (h: seq<byte>)
    ensures |h| == 12
  {
    Latin1("RIFF") + LittleEndian(36 + DataSize(o, sampleCount), 4) + Latin1("WAVE")
  }

  /** The whole "fmt " chunk: tag, Subchunk1Size 16, AudioFormat 1 (PCM),
      NumChannels, SampleRate, ByteRate, BlockAlign, BitsPerSample. */
  function FormatChunk(o: Options): (h: seq<byte>)
    ensures |h| == 24
  {
    Latin1("fmt ")
    + LittleEndian(16, 4)
    + LittleEndian(1, 2)
    + LittleEndian(o.channels, 2)
    + LittleEndian(o.sampleRate, 4)
    + LittleEndian(ByteRate(o), 4)
    + LittleEndian(BlockAlign(o), 2)
    + LittleEndian(o.bitsPerSample, 2)
  }

  /** The head of the "data" chunk: tag and Subchunk2Size. */
  function DataChunkHead(o: Options, sampleCount: nat): (h: seq<byte>)
    ensures |h| == 8
  {
    Latin1("data") + LittleEndian(DataSize(o, sampleCount), 4)
  }

  /** The 44-byte header. */
  function Header(o: Options, sampleCount: nat): (h: seq<byte>)
    ensures |h| == HEADER_SIZE
  {
    RiffDescriptor(o, sampleCount) + FormatChunk(o) + DataChunkHead(o, sampleCount)
  }

  /** Writes the "RIFF" chunk descriptor at `pos`. */
  method WriteRiffDescriptor(buf: array<byte>, pos: nat, o: Options, sampleCount: nat)
    requires pos + 12 <= buf.Length
    modifies buf
    ensures buf[..] == Splice(old(buf[..]), pos, RiffDescriptor(o, sampleCount))
  {
    ghost var s := buf[..];
    var size := LittleEndian(36 + DataSize(o, sampleCount), 4);
    WriteBytes(buf, pos, Latin1("RIFF"));
    WriteLittleEndian(buf, pos + 4, 36 + DataSize(o, sampleCount), 4);
    SpliceAdjacent(s, pos, Latin1("RIFF"), size);
    WriteBytes(buf, pos + 8, Latin1("WAVE"));
    SpliceAdjacent(s, pos, Latin1("RIFF") + size, Latin1("WAVE"));
  }

  /** Writes the "fmt " chunk at `pos`. */
  method WriteFormatChunk(buf: array<byte>, pos: nat, o: Options)
    requires pos + 24 <= buf.Length
    modifies buf
    ensures buf[..] == Splice(old(buf[..]), pos, FormatChunk(o))
  {
    ghost var s := buf[..];
    ghost var done: seq<byte> := Latin1("fmt ");
    WriteBytes(buf, pos, Latin1("fmt "));
    WriteLittleEndian(buf, pos + 4, 16, 4);
    SpliceAdjacent(s, pos, done, LittleEndian(16, 4));
    done := done + LittleEndian(16, 4);
    WriteLittleEndian(buf, pos + 8, 1, 2);
    SpliceAdjacent(s, pos, done, LittleEndian(1, 2));
    done := done + LittleEndian(1, 2);
    WriteLittleEndian(buf, pos + 10, o.channels, 2);
    SpliceAdjacent(s, pos, done, LittleEndian(o.channels, 2));
    done := done + LittleEndian(o.channels, 2);
    WriteLittleEndian(buf, pos + 12, o.sampleRate, 4);
    SpliceAdjacent(s, pos, done, LittleEndian(o.sampleRate, 4));
    done := done + LittleEndian(o.sampleRate, 4);
    WriteLittleEndian(buf, pos + 16, ByteRate(o), 4);
    SpliceAdjacent(s, pos, done, LittleEndian(ByteRate(o), 4));
    done := done + LittleEndian(ByteRate(o), 4);
    WriteLittleEndian(buf, pos + 20, BlockAlign(o), 2);
    SpliceAdjacent(s, pos, done, LittleEndian(BlockAlign(o), 2));
    done := done + LittleEndian(BlockAlign(o), 2);
    WriteLittleEndian(buf, pos + 22, o.bitsPerSample, 2);
    SpliceAdjacent(s, pos, done, LittleEndian(o.bitsPerSample, 2));
  }

  /** Writes the head of the "data" chunk at `pos`. */
  method WriteDataChunkHead(buf: array<byte>, pos: nat, o: Options, sampleCount: nat)
    requires pos + 8 <= buf.Length
    modifies buf
    ensures buf[..] == Splice(old(buf[..]), pos, DataChunkHead(o, sampleCount))
  {
    ghost var s := buf[..];
    WriteBytes(buf, pos, Latin1("data"));
    WriteLittleEndian(buf, pos + 4, DataSize(o, sampleCount), 4);
    SpliceAdjacent(s, pos, Latin1("data"), LittleEndian(DataSize(o, sampleCount), 4));
  }

  /** The whole file image: the header followed by the packed samples.
      How samples are packed is supplied by the caller as `pack`. */
  function WaveFile(o: Options, samples: seq<int>, pack: seq<int> -> seq<byte>): (f: seq<byte>)
    ensures |f| == HEADER_SIZE + |pack(samples)|
    ensures f[..HEADER_SIZE] == Header(o, |samples|) && f[HEADER_SIZE..] == pack(samples)
  {
    Header(o, |samples|) + pack(samples)
  }

  /** What encoding yields in a given state: absent data is an error. */
  function Encoded(o: Options, data: Option<seq<int>>, pack: seq<int> -> seq<byte>): (r: Result<seq<byte>>)
    ensures r.Err? <==> data.None?
    ensures r.Err? ==> r.error == MissingData
    ensures r.Ok? ==> |r.value| >= HEADER_SIZE && r.value[..HEADER_SIZE] == Header(o, |data.value|)
  {
    match data
    case None => Err(MissingData)
    case Some(samples) => Ok(WaveFile(o, samples, pack))
  }

  /** What `getDataURI` yields in a given state: the URI prefix followed by
      the base64 text, computed by `btoa`, of the file image's binary string. */
  function DataUri(o: Options, data: Option<seq<int>>, pack: seq<int> -> seq<byte>,
                   btoa: string -> string): (r: Result<string>)
    ensures r.Err? <==> data.None?
    ensures r.Err? ==> r.error == MissingData
    ensures r.Ok? ==> |r.value| >= |URI_PREFIX| && r.value[..|URI_PREFIX|] == URI_PREFIX
  {
    match Encoded(o, data, pack)
    case Err(e) => Err(e)
    case Ok(bytes) => Ok(URI_PREFIX + btoa(Chars(bytes)))
  }

  // ---------------------------------------------------------------------------
  // The header as a reader sees it

  /** Where each header field of a file image lies. */
  lemma HeaderLayout(o: Options, samples: seq<int>, pack: seq<int> -> seq<byte>)
    ensures |WaveFile(o, samples, pack)| == HEADER_SIZE + |pack(samples)|
    ensures var b, n := WaveFile(o, samples, pack), |samples|;
      && b[0..4] == Latin1("RIFF")
      && b[4..8] == LittleEndian(36 + DataSize(o, n), 4)
      && b[8..12] == Latin1("WAVE")
      && b[12..16] == Latin1("fmt ")
      && b[16..20] == LittleEndian(16, 4)
      && b[20..22] == LittleEndian(1, 2)
      && b[22..24] == LittleEndian(o.channels, 2)
      && b[24..28] == LittleEndian(o.sampleRate, 4)
      && b[28..32] == LittleEndian(ByteRate(o), 4)
      && b[32..34] == LittleEndian(BlockAlign(o), 2)
      && b[34..36] == LittleEndian(o.bitsPerSample, 2)
      && b[36..40] == Latin1("data")
      && b[40..44] == LittleEndian(DataSize(o, n), 4)
      && b[44..] == pack(samples)
  {
  }

  /** Bytes 0-3 spell "RIFF" and bytes 8-11 spell "WAVE", whatever the
      configuration and the samples. */
  lemma RiffWaveTags(o: Options, samples: seq<int>, pack: seq<int> -> seq<byte>)
    ensures var b := WaveFile(o, samples, pack);
      Chars(b[0..4]) == "RIFF" && Chars(b[8..12]) == "WAVE"
  {
  }

  /** Bytes 12-14 spell "fmt", Subchunk1Size (u32 at 16) is 16 and
      AudioFormat (u16 at 20) is 1, meaning PCM. */
  lemma FormatChunkFixedFields(o: Options, samples: seq<int>, pack: seq<int> -> seq<byte>)
    ensures var b := WaveFile(o, samples, pack);
      && Chars(b[12..15]) == "fmt"
      && ReadUint32(b, 16) == 16
      && ReadUint16(b, 20) == 1
  {
    var b := WaveFile(o, samples, pack);
    HeaderLayout(o, samples, pack);
    assert b[12..15] == b[12..16][..3];
    ReadWrittenInRange(16, 4);
    ReadWrittenInRange(1, 2);
  }

  /** NumChannels (u16 at 22), SampleRate (u32 at 24) and BitsPerSample
      (u16 at 34) read back as configured, reduced to the field's width. */
  lemma ConfiguredFields(o: Options, samples: seq<int>, pack: seq<int> -> seq<byte>)
    ensures var b := WaveFile(o, samples, pack);
      && ReadUint16(b, 22) == o.channels % 0x1_0000
      && ReadUint32(b, 24) == o.sampleRate % 0x1_0000_0000
      && ReadUint16(b, 34) == o.bitsPerSample % 0x1_0000
  {
    HeaderLayout(o, samples, pack);
    Pow256Values();
    ReadWritten(o.channels, 2);
    ReadWritten(o.sampleRate, 4);
    ReadWritten(o.bitsPerSample, 2);
  }

  /** ByteRate (u32 at 28) is `sampleRate * bitsPerSample * channels / 8`
      and BlockAlign (u16 at 32) is `bitsPerSample * channels / 8`, each
      truncated and reduced to the field's width. */
  lemma DerivedRateFields(o: Options, samples: seq<int>, pack: seq<int> -> seq<byte>)
    ensures var b := WaveFile(o, samples, pack);
      && ReadUint32(b, 28) == (o.sampleRate * o.bitsPerSample * o.channels / 8) % 0x1_0000_0000
      && ReadUint16(b, 32) == (o.bitsPerSample * o.channels / 8) % 0x1_0000
  {
    HeaderLayout(o, samples, pack);
    Pow256Values();
    ReadWritten(ByteRate(o), 4);
    ReadWritten(BlockAlign(o), 2);
  }

  lemma ModAddMod(a: nat, d: nat, m: nat)
    requires m > 0
    ensures (a + d % m) % m == (a + d) % m
  {
    DivModUnique(d, m, d / m, d % m);
    var q, r := (a + d % m) / m, (a + d % m) % m;
    assert a + d % m == m * q + r;
    assert a + d == m * (q + d / m) + r by {
      assert m * (q + d / m) == m * q + m * (d / m);
    }
    DivModUnique(a + d, m, q + d / m, r);
  }

  /** Subchunk2Size (u32 at 40) is the data size and ChunkSize (u32 at 4)
      is 36 more, both as 32-bit fields. */
  lemma SizeFields(o: Options, samples: seq<int>, pack: seq<int> -> seq<byte>)
    ensures var b := WaveFile(o, samples, pack);
      && ReadUint32(b, 40) == DataSize(o, |samples|) % 0x1_0000_0000
      && ReadUint32(b, 4) == (36 + ReadUint32(b, 40)) % 0x1_0000_0000
  {
    var d := DataSize(o, |samples|);
    HeaderLayout(o, samples, pack);
    Pow256Values();
    ReadWritten(d, 4);
    ReadWritten(36 + d, 4);
    ModAddMod(36, d, 0x1_0000_0000);
  }

  /** Every value fits its field: no header field wraps around. */
  predicate FitsHeader(o: Options, sampleCount: nat) {
    && o.channels < 0x1_0000
    && o.sampleRate < 0x1_0000_0000
    && ByteRate(o) < 0x1_0000_0000
    && BlockAlign(o) < 0x1_0000
    && o.bitsPerSample < 0x1_0000
    && 36 + DataSize(o, sampleCount) < 0x1_0000_0000
  }

  /** When every value fits its field, each numeric header field reads back
      exactly as configured or computed. */
  lemma ExactHeaderFields(o: Options, samples: seq<int>, pack: seq<int> -> seq<byte>)
    requires FitsHeader(o, |samples|)
    ensures var b := WaveFile(o, samples, pack);
      && ReadUint32(b, 4) == 36 + DataSize(o, |samples|)
      && ReadUint16(b, 22) == o.channels
      && ReadUint32(b, 24) == o.sampleRate
      && ReadUint32(b, 28) == ByteRate(o)
      && ReadUint16(b, 32) == BlockAlign(o)
      && ReadUint16(b, 34) == o.bitsPerSample
      && ReadUint32(b, 40) == DataSize(o, |samples|)
  {
    HeaderLayout(o, samples, pack);
    Pow256Values();
    ReadWrittenInRange(36 + DataSize(o, |samples|), 4);
    ReadWrittenInRange(o.channels, 2);
    ReadWrittenInRange(o.sampleRate, 4);
    ReadWrittenInRange(ByteRate(o), 4);
    ReadWrittenInRange(BlockAlign(o), 2);
    ReadWrittenInRange(o.bitsPerSample, 2);
    ReadWrittenInRange(DataSize(o, |samples|), 4);
  }

  /** An encoder instance: its configuration is fixed at construction, its
      sample list is absent until `SetData` supplies one. */
  class Wave {
    const options: Options
    var data: Option<seq<int>>

    constructor (options: Options)
      ensures this.options == options
      ensures data == None
    {
      this.options := options;
      data := None;
    }

    /** Replaces the sample list wholesale. */
    method SetData(samples: seq<int>)
      modifies this
      ensures data == Some(samples)
    {
      data := Some(samples);
    }

    /** Fills a fresh buffer with the header fields at their offsets and the
        packed samples after them; fails when no data was ever set. */
    method Encode(pack: seq<int> -> seq<byte>) returns (r: Result<seq<byte>>)
      ensures r == Encoded(options, data, pack)
    {
      if data.None? {
        return Err(MissingData);
      }
      var samples := data.value;
      var payload := pack(samples);
      var n := |samples|;
      var buf := new byte[HEADER_SIZE + |payload|];
      ghost var s := buf[..];
      WriteRiffDescriptor(buf, 0, options, n);
      WriteFormatChunk(buf, 12, options);
      SpliceAdjacent(s, 0, RiffDescriptor(options, n), FormatChunk(options));
      WriteDataChunkHead(buf, 36, options, n);
      SpliceAdjacent(s, 0, RiffDescriptor(options, n) + FormatChunk(options), DataChunkHead(options, n));
      WriteBytes(buf, 44, payload);
      SpliceAdjacent(s, 0, Header(options, n), payload);
      assert buf[..] == Header(options, n) + payload;
      r := Ok(buf[..]);
    }

    /** The data URI of the current state; fails exactly when `Encode` does. */
    method GetDataUri(pack: seq<int> -> seq<byte>, btoa: string -> string) returns (r: Result<string>)
      ensures r == DataUri(options, data, pack, btoa)
    {
      var bytes := Encode(pack);
      if bytes.Err? {
        return Err(bytes.error);
      }
      r := Ok(URI_PREFIX + btoa(Chars(bytes.value)));
    }
  }
}
