/** The checks the `Wave` test suite makes, stated over the model: how a test
    turns a data URI back into bytes (`String.prototype.indexOf`, `replace`,
    `atob`, a `Uint8Array` filled from character codes, a `DataView`), and
    what it expects to find there. `btoa` and `atob` are parameters; where a
    property needs them to be inverse on binary strings, it says so. */
module WaveSpec {
  import opened Bytes
  import opened WaveEncoder

  // ---------------------------------------------------------------------------
  // String searching, as `indexOf` and `replace` with a string pattern do it

  /** `pat` occurs in `s` starting at index `k`. */
  predicate OccursAt(s: string, pat: string, k: nat) {
    k + |pat| <= |s| && s[k..k + |pat|] == pat
  }

  lemma OccursShift(s: string, pat: string)
    requires |s| > 0
    ensures forall k: nat :: k >= 1 ==> (OccursAt(s, pat, k) <==> OccursAt(s[1..], pat, k - 1))
  {
  }

  /** `s.indexOf(pat)`: the first index at which `pat` occurs, or -1. */
  function IndexOf(s: string, pat: string): (r: int)
    ensures r == -1 || (0 <= r && OccursAt(s, pat, r))
    ensures forall k: nat :: (r == -1 || k < r) ==> !OccursAt(s, pat, k)
    decreases |s|
  {
    if OccursAt(s, pat, 0) then 0
    else if |s| == 0 then -1
    else
      OccursShift(s, pat);
      var k := IndexOf(s[1..], pat);
      if k == -1 then -1 else k + 1
  }

  /** `s.replace(pat, '')` for a string pattern: the first occurrence of
      `pat` is removed; without one, `s` is returned as it is. With the empty
      replacement no `$` pattern of `replace` can be expanded. */
  function RemoveFirst(s: string, pat: string): (r: string)
    ensures IndexOf(s, pat) == -1 ==> r == s
    ensures IndexOf(s, pat) != -1 ==> |r| == |s| - |pat|
    ensures OccursAt(s, pat, 0) ==> r == s[|pat|..]
  {
    var k := IndexOf(s, pat);
    if k == -1 then s else s[..k] + s[k + |pat|..]
  }

  /** `btoa` and `atob` are inverse on binary strings, the only strings
      `btoa` accepts. */
  ghost predicate Base64RoundTrip(btoa: string -> string, atob: string -> string) {
    forall s :: IsBinary(s) ==> atob(btoa(s)) == s
  }

  /** The bytes a test's `DataView` sees: the URI with its prefix replaced
      by nothing, decoded by `atob`, stored code by code into a `Uint8Array`. */
  function HarnessView(uri: string, atob: string -> string): (view: seq<byte>)
    ensures OccursAt(uri, URI_PREFIX, 0) ==> view == CharCodes(atob(uri[|URI_PREFIX|..]))
    ensures IndexOf(uri, URI_PREFIX) == -1 ==> view == CharCodes(atob(uri))
  {
    CharCodes(atob(RemoveFirst(uri, URI_PREFIX)))
  }

  /** Fills a fresh `Uint8Array` from the character codes of `bin`. */
  method ToUint8Array(bin: string) returns (bytes: array<byte>)
    ensures fresh(bytes)
    ensures bytes[..] == CharCodes(bin)
  {
    bytes := new byte[|bin|];
    var j := 0;
    while j < |bin|
      invariant 0 <= j <= |bin|
      invariant forall i :: 0 <= i < j ==> bytes[i] == bin[i] as int % 256
    {
      bytes[j] := bin[j] as int % 256;
      j := j + 1;
    }
  }

  /** The test helper `str(view, pos, length)`: the characters whose codes
      are the `length` bytes of `view` from `pos`, appended one at a time. */
  method Str(view: seq<byte>, pos: nat, length: nat) returns (r: string)
    requires pos + length <= |view|
    ensures r == Chars(view[pos..pos + length])
  {
    r := "";
    var i := pos;
    while i < pos + length
      invariant pos <= i <= pos + length
      invariant r == Chars(view[pos..i])
    {
      r := r + [view[i] as char];
      i := i + 1;
    }
  }

  // ---------------------------------------------------------------------------
  // Properties of the data URI

  /** Encoding fails exactly when no data was set, and fails with
      `MissingData`; otherwise `indexOf` finds the prefix at index 0. */
  lemma UriPrefix(o: Options, data: Option<seq<int>>, pack: seq<int> -> seq<byte>,
                                     btoa: string -> string)
    ensures DataUri(o, data, pack, btoa).Err? <==> data.None?
    ensures data.None? ==> DataUri(o, data, pack, btoa) == Err(MissingData)
    ensures data.Some? ==> IndexOf(DataUri(o, data, pack, btoa).value, URI_PREFIX) == 0
  {
  }

  /** What a test decodes from the URI is the encoded file image. */
  lemma HarnessRecoversFile(o: Options, samples: seq<int>, pack: seq<int> -> seq<byte>,
                            btoa: string -> string, atob: string -> string)
    requires Base64RoundTrip(btoa, atob)
    ensures DataUri(o, Some(samples), pack, btoa).Ok?
    ensures HarnessView(DataUri(o, Some(samples), pack, btoa).value, atob) == WaveFile(o, samples, pack)
  {
    var b := WaveFile(o, samples, pack);
    var payload := btoa(Chars(b));
    var uri := URI_PREFIX + payload;
    assert OccursAt(uri, URI_PREFIX, 0);
    assert RemoveFirst(uri, URI_PREFIX) == payload;
    assert IsBinary(Chars(b));
    CharCodesOfChars(b);
  }

  /** Different files give different URIs when `atob` undoes `btoa`. */
  lemma UriDeterminesFile(o: Options, before: seq<int>, after: seq<int>, pack: seq<int> -> seq<byte>,
                          btoa: string -> string, atob: string -> string)
    requires Base64RoundTrip(btoa, atob)
    requires DataUri(o, Some(before), pack, btoa) == DataUri(o, Some(after), pack, btoa)
    ensures WaveFile(o, before, pack) == WaveFile(o, after, pack)
  {
    var f1, f2 := WaveFile(o, before, pack), WaveFile(o, after, pack);
    var u1, u2 := URI_PREFIX + btoa(Chars(f1)), URI_PREFIX + btoa(Chars(f2));
    assert u1[|URI_PREFIX|..] == btoa(Chars(f1));
    assert u2[|URI_PREFIX|..] == btoa(Chars(f2));
    assert IsBinary(Chars(f1)) && IsBinary(Chars(f2));
    assert Chars(f1) == atob(btoa(Chars(f1))) == atob(btoa(Chars(f2))) == Chars(f2);
    CharCodesOfChars(f1);
    CharCodesOfChars(f2);
  }

  /** With a non-zero sample width, the data size tells sample counts apart. */
  lemma DataSizeInjective(o: Options, n1: nat, n2: nat)
    requires o.bitsPerSample > 0 && n1 != n2
    ensures DataSize(o, n1) != DataSize(o, n2)
  {
  }

  /** Replacing the samples by a list of another length changes the URI:
      nothing is cached. Needs a non-zero sample width and data sizes that
      fit the 32-bit Subchunk2Size field. */
  lemma SetDataChangesUri(o: Options, before: seq<int>, after: seq<int>, pack: seq<int> -> seq<byte>,
                          btoa: string -> string, atob: string -> string)
    requires Base64RoundTrip(btoa, atob)
    requires o.bitsPerSample > 0 && |before| != |after|
    requires DataSize(o, |before|) < 0x1_0000_0000 && DataSize(o, |after|) < 0x1_0000_0000
    ensures DataUri(o, Some(before), pack, btoa) != DataUri(o, Some(after), pack, btoa)
  {
    var d1, d2 := DataSize(o, |before|), DataSize(o, |after|);
    DataSizeInjective(o, |before|, |after|);
    if DataUri(o, Some(before), pack, btoa) == DataUri(o, Some(after), pack, btoa) {
      UriDeterminesFile(o, before, after, pack, btoa, atob);
      SizeFields(o, before, pack);
      SizeFields(o, after, pack);
      DivModUnique(d1, 0x1_0000_0000, 0, d1);
      DivModUnique(d2, 0x1_0000_0000, 0, d2);
    }
  }

  // ---------------------------------------------------------------------------
  // The two configurations the header tests use

  /** One channel at 8000 Hz, 16 bits, empty data: a 44-byte header with
      ChunkSize 36 and Subchunk2Size 0. */
  lemma MonoSixteenBitEmpty(pack: seq<int> -> seq<byte>)
    ensures var b := WaveFile(Options(1, 8000, 16), [], pack);
      && |b| == 44 + |pack([])|
      && Chars(b[0..4]) == "RIFF" && Chars(b[8..12]) == "WAVE"
      && ReadUint32(b, 4) == 36
      && Chars(b[12..15]) == "fmt" && ReadUint32(b, 16) == 16
      && ReadUint16(b, 20) == 1
      && ReadUint16(b, 22) == 1
      && ReadUint32(b, 24) == 8000
      && ReadUint32(b, 28) == 8000 * 16 * 1 / 8
      && ReadUint16(b, 32) == 16 * 1 / 8
      && ReadUint16(b, 34) == 16
      && ReadUint32(b, 40) == 0
  {
    var o := Options(1, 8000, 16);
    HeaderLayout(o, [], pack);
    RiffWaveTags(o, [], pack);
    FormatChunkFixedFields(o, [], pack);
    ExactHeaderFields(o, [], pack);
  }

  /** Two channels at 44100 Hz, 8 bits, ten samples: Subchunk2Size is
      `10 * 8 * 8` = 640 and ChunkSize 676 -- not the 10 that
      `sampleCount * (bitsPerSample / 8)` would give. */
  lemma StereoEightBitTenSamples(samples: seq<int>, pack: seq<int> -> seq<byte>)
    requires |samples| == 10
    ensures var b := WaveFile(Options(2, 44100, 8), samples, pack);
      && Chars(b[0..4]) == "RIFF" && Chars(b[8..12]) == "WAVE"
      && ReadUint32(b, 4) == 36 + 10 * 8 * 8
      && Chars(b[12..15]) == "fmt" && ReadUint32(b, 16) == 16
      && ReadUint16(b, 20) == 1
      && ReadUint16(b, 22) == 2
      && ReadUint32(b, 24) == 44100
      && ReadUint32(b, 28) == 44100 * 8 * 2 / 8
      && ReadUint16(b, 32) == 8 * 2 / 8
      && ReadUint16(b, 34) == 8
      && ReadUint32(b, 40) == 10 * 8 * 8
      && ReadUint32(b, 40) != 10 * (8 / 8)
  {
    var o := Options(2, 44100, 8);
    assert DataSize(o, |samples|) == 640;
    RiffWaveTags(o, samples, pack);
    FormatChunkFixedFields(o, samples, pack);
    ExactHeaderFields(o, samples, pack);
  }

  // ---------------------------------------------------------------------------
  // The tests of the encoder object, as client code of the class

  /** A fresh encoder refuses to produce a URI before `SetData`. */
  method ThrowsWithoutData(o: Options, pack: seq<int> -> seq<byte>, btoa: string -> string)
    returns (r: Result<string>)
    ensures r == Err(MissingData)
  {
    var wave := new Wave(o);
    r := wave.GetDataUri(pack, btoa);
  }

  /** Once data is set, `indexOf` finds the URI prefix at index 0. */
  method PrefixAtStart(o: Options, pack: seq<int> -> seq<byte>, btoa: string -> string)
    returns (index: int)
    ensures index == 0
  {
    var wave := new Wave(o);
    wave.SetData([91]);
    var uri := wave.GetDataUri(pack, btoa);
    UriPrefix(o, Some([91]), pack, btoa);
    index := IndexOf(uri.value, URI_PREFIX);
  }

  /** Replacing the one-sample list by a ten-sample list changes the URI. */
  method SetDataInfluencesUri(o: Options, pack: seq<int> -> seq<byte>,
                              btoa: string -> string, atob: string -> string)
    returns (oldUri: Result<string>, newUri: Result<string>)
    requires Base64RoundTrip(btoa, atob)
    requires 0 < o.bitsPerSample < 0x1_0000
    ensures oldUri.Ok? && newUri.Ok? && oldUri != newUri
  {
    var wave := new Wave(o);
    wave.SetData([91]);
    oldUri := wave.GetDataUri(pack, btoa);
    wave.SetData([1, 2, 3, 4, 5, 6, 7, 8, 9, 10]);
    newUri := wave.GetDataUri(pack, btoa);
    UriPrefix(o, Some([91]), pack, btoa);
    UriPrefix(o, Some([1, 2, 3, 4, 5, 6, 7, 8, 9, 10]), pack, btoa);
    SetDataChangesUri(o, [91], [1, 2, 3, 4, 5, 6, 7, 8, 9, 10], pack, btoa, atob);
  }

  /** The header tests' set-up: two encoders, their URIs decoded back into
      byte views, and the header values every test then reads. */
  method HeaderViews(pack: seq<int> -> seq<byte>, btoa: string -> string, atob: string -> string)
    returns (views: seq<seq<byte>>)
    requires Base64RoundTrip(btoa, atob)
    ensures |views| == 2
    ensures views[0] == WaveFile(Options(1, 8000, 16), [], pack)
    ensures views[1] == WaveFile(Options(2, 44100, 8), [1, 2, 3, 4, 5, 6, 7, 8, 9, 10], pack)
    ensures ReadUint32(views[0], 4) == 36 && ReadUint32(views[0], 40) == 0
    ensures ReadUint32(views[1], 4) == 676 && ReadUint32(views[1], 40) == 640
  {
    var mono := new Wave(Options(1, 8000, 16));
    var stereo := new Wave(Options(2, 44100, 8));
    var waves := [mono, stereo];
    var samples: seq<seq<int>> := [[], [1, 2, 3, 4, 5, 6, 7, 8, 9, 10]];
    mono.SetData(samples[0]);
    stereo.SetData(samples[1]);
    HarnessRecoversFile(mono.options, samples[0], pack, btoa, atob);
    HarnessRecoversFile(stereo.options, samples[1], pack, btoa, atob);
    views := [];
    for i := 0 to 2
      invariant mono.data == Some(samples[0]) && stereo.data == Some(samples[1])
      invariant |views| == i
      invariant forall k :: 0 <= k < i ==> views[k] == WaveFile(waves[k].options, samples[k], pack)
    {
      var uri := waves[i].GetDataUri(pack, btoa);
      assert uri == DataUri(waves[i].options, Some(samples[i]), pack, btoa);
      var bin := atob(RemoveFirst(uri.value, URI_PREFIX));
      var bytes := ToUint8Array(bin);
      assert bytes[..] == HarnessView(uri.value, atob);
      views := views + [bytes[..]];
    }
    MonoSixteenBitEmpty(pack);
    StereoEightBitTenSamples([1, 2, 3, 4, 5, 6, 7, 8, 9, 10], pack);
  }
}
