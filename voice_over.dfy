/** The voice-over page: turning the speech service's reply into a playable WAV file.

    The service answers with base64 text holding raw 16-bit PCM samples and a MIME
    type such as `audio/L16;codec=pcm;rate=24000`. The page decodes the text into a
    byte buffer, views it as 16-bit samples, and wraps them in a 44-byte RIFF/WAVE
    header (the canonical `fmt ` chunk for WAVE_FORMAT_PCM followed by the `data`
    chunk, as laid down in the Multimedia Programming Interface and Data
    Specifications 1.0). All multi-byte fields are little-endian. */
module VoiceOver {
  import opened Text

  /** One byte of an `ArrayBuffer`. */
  type Byte = b: int | 0 <= b < 0x100

  /** One element of an `Int16Array`. */
  type Int16 = v: int | -0x8000 <= v < 0x8000

  const WavHeaderSize: nat := 44
  const DefaultSampleRate: nat := 24000
  const InvalidAudioMessage := "Invalid audio data received from API."
  const DefaultErrorMessage := "Failed to generate audio."
  /** The message of the `RangeError` that `new Int16Array(buffer)` raises (in V8)
      when the buffer holds an odd number of bytes. */
  const OddLengthMessage := "byte length of Int16Array should be a multiple of 2"
  /** The script the page starts with. */
  const DefaultScript := "Hello, this is a test of the new voiceover studio. I can use this to practice my pacing and fluency."
  /** The instruction wrapped around the script in coaching mode. */
  const CoachingPrefix := "Speak the following text clearly and deliberately, as if coaching someone on pronunciation and pacing. Add distinct pauses at commas and full stops. Put emphasis on key verbs and nouns: \n\n\""

  // ---------------------------------------------------------------------------
  // Byte encodings

  /** The bytes `DataView.setUint16(_, v, true)` stores: `v` reduced modulo 2^16,
      least significant byte first. `setInt16` stores the same two bytes. */
  function LE16(v: int): (bs: seq<Byte>)
    ensures |bs| == 2
  {
    var w := v % 0x1_0000;
    [w % 0x100, w / 0x100]
  }

  /** The bytes `DataView.setUint32(_, v, true)` stores: `v` reduced modulo 2^32,
      least significant byte first. */
  function LE32(v: int): (bs: seq<Byte>)
    ensures |bs| == 4
  {
    var w := v % 0x1_0000_0000;
    [w % 0x100, (w / 0x100) % 0x100, (w / 0x1_0000) % 0x100, w / 0x100_0000]
  }

  /** Reading two bytes as an unsigned little-endian number. */
  function U16(bs: seq<Byte>): nat
    requires |bs| == 2
  {
    bs[0] as int + 0x100 * (bs[1] as int)
  }

  /** Reading four bytes as an unsigned little-endian number. */
  function U32(bs: seq<Byte>): nat
    requires |bs| == 4
  {
    bs[0] as int + 0x100 * (bs[1] as int) + 0x1_0000 * (bs[2] as int) + 0x100_0000 * (bs[3] as int)
  }

  /** Reading two bytes as a signed (two's complement) little-endian number. */
  function S16(bs: seq<Byte>): Int16
    requires |bs| == 2
  {
    var u := U16(bs);
    if u >= 0x8000 then u - 0x1_0000 else u
  }

  lemma U16OfLE16(v: int)
    ensures U16(LE16(v)) == v % 0x1_0000
  {
  }

  lemma U32OfLE32(v: int)
    ensures U32(LE32(v)) == v % 0x1_0000_0000
  {
    var w := v % 0x1_0000_0000;
    var b := LE32(v);
    var q1, q2, q3 := w / 0x100, w / 0x1_0000, w / 0x100_0000;
    DivStep(w, 0x100);
    DivStep(w, 0x1_0000);
    DivStep(w, 0x100_0000);
    assert w == 0x100 * q1 + b[0];
    assert q1 == 0x100 * q2 + b[1];
    assert q2 == 0x100 * q3 + b[2];
  }

  /** Dividing by `d` and then by 256 is dividing by 256 d. */
  lemma DivStep(w: nat, d: nat)
    requires d == 0x100 || d == 0x1_0000 || d == 0x100_0000
    ensures w / d == 0x100 * (w / (d * 0x100)) + (w / d) % 0x100
    ensures w == d * (w / d) + w % d
  {
  }

  /** A 16-bit sample written little-endian reads back as the same sample. */
  lemma S16RoundTrip(v: Int16)
    ensures S16(LE16(v)) == v
  {
    U16OfLE16(v);
  }

  /** The byte each character of `s` leaves in a `Uint8Array` slot:
      `s.charCodeAt(i)` reduced modulo 2^8. */
  function CharCodes(s: string): (bs: seq<Byte>)
    ensures |bs| == |s|
  {
    seq(|s|, i requires 0 <= i < |s| => (s[i] as int) % 0x100)
  }

  /** Every character of `s` has a code below 256, as in what `atob` returns. */
  predicate Latin1(s: string)
  {
    forall i :: 0 <= i < |s| ==> (s[i] as int) < 0x100
  }

  /** The PCM samples as little-endian bytes, one pair per sample. */
  function SampleBytes(pcm: seq<Int16>): (bs: seq<Byte>)
    ensures |bs| == 2 * |pcm|
  {
    if pcm == [] then [] else SampleBytes(pcm[..|pcm| - 1]) + LE16(pcm[|pcm| - 1])
  }

  lemma SampleBytesSnoc(pcm: seq<Int16>, i: nat)
    requires i < |pcm|
    ensures SampleBytes(pcm[..i + 1]) == SampleBytes(pcm[..i]) + LE16(pcm[i])
  {
    assert pcm[..i + 1][..i] == pcm[..i];
  }

  lemma {:induction false} SampleBytesAt(pcm: seq<Int16>, i: nat)
    requires i < |pcm|
    ensures |SampleBytes(pcm)| == 2 * |pcm|
    ensures SampleBytes(pcm)[2 * i..2 * i + 2] == LE16(pcm[i])
  {
    var init := pcm[..|pcm| - 1];
    assert SampleBytes(pcm) == SampleBytes(init) + LE16(pcm[|pcm| - 1]);
    if i < |pcm| - 1 {
      SampleBytesAt(init, i);
      assert SampleBytes(pcm)[2 * i..2 * i + 2] == SampleBytes(init)[2 * i..2 * i + 2];
    }
  }

  /** `new Int16Array(buffer)`: the buffer read as consecutive little-endian signed
      16-bit values, or nothing when its length is odd (a `RangeError`). */
  function Int16View(bytes: seq<Byte>): (r: Option<seq<Int16>>)
    ensures r.Some? <==> |bytes| % 2 == 0
    ensures r.Some? ==> |r.value| == |bytes| / 2
  {
    if |bytes| % 2 != 0 then None
    else Some(seq(|bytes| / 2, i requires 0 <= i < |bytes| / 2 => S16(bytes[2 * i..2 * i + 2])))
  }

  /** Viewing the bytes of encoded samples as 16-bit values gives the samples back. */
  lemma Int16ViewOfSampleBytes(pcm: seq<Int16>)
    ensures Int16View(SampleBytes(pcm)) == Some(pcm)
  {
    var bs := SampleBytes(pcm);
    var view := Int16View(bs).value;
    forall i | 0 <= i < |pcm| ensures view[i] == pcm[i] {
      SampleBytesAt(pcm, i);
      S16RoundTrip(pcm[i]);
    }
    assert view == pcm;
  }

  // ---------------------------------------------------------------------------
  // The WAV file

  /** The RIFF chunk descriptor: `RIFF`, the size of the rest of the file, `WAVE`. */
  function RiffDescriptor(n: nat): (h: seq<Byte>)
    ensures |h| == 12
  {
    CharCodes("RIFF") + LE32(36 + 2 * n) + CharCodes("WAVE")
  }

  /** The `fmt ` sub-chunk for 16-bit WAVE_FORMAT_PCM. */
  function FmtChunk(sampleRate: int, numChannels: int): (h: seq<Byte>)
    ensures |h| == 24
  {
    CharCodes("fmt ") + LE32(16) + LE16(1) + LE16(numChannels)
    + LE32(sampleRate) + LE32(sampleRate * numChannels * 2)
    + LE16(numChannels * 2) + LE16(16)
  }

  /** The head of the `data` sub-chunk: `data` and the size of the samples. */
  function DataChunkHeader(n: nat): (h: seq<Byte>)
    ensures |h| == 8
  {
    CharCodes("data") + LE32(2 * n)
  }

  /** The 44-byte header for `n` samples. */
  function WavHeader(n: nat, sampleRate: int, numChannels: int): (h: seq<Byte>)
    ensures |h| == WavHeaderSize
  {
    RiffDescriptor(n) + FmtChunk(sampleRate, numChannels) + DataChunkHeader(n)
  }

  /** The bytes of the file `pcmToWav` produces. */
  function WavFile(pcm: seq<Int16>, sampleRate: int, numChannels: int): (bs: seq<Byte>)
    ensures |bs| == WavHeaderSize + 2 * |pcm|
  {
    WavHeader(|pcm|, sampleRate, numChannels) + SampleBytes(pcm)
  }

  lemma SliceOfSlice(f: seq<Byte>, lo: nat, hi: nat, i: nat, j: nat)
    requires lo <= hi <= |f| && i <= j <= hi - lo
    ensures f[lo..hi][i..j] == f[lo + i..lo + j]
  {
    assert |f[lo..hi][i..j]| == j - i;
    forall k | 0 <= k < j - i ensures f[lo..hi][i..j][k] == f[lo + i..lo + j][k] {
    }
  }

  lemma RiffDescriptorLayout(n: nat)
    ensures var r := RiffDescriptor(n);
      r[0..4] == CharCodes("RIFF") && r[4..8] == LE32(36 + 2 * n) && r[8..12] == CharCodes("WAVE")
  {
  }

  lemma FmtChunkLayout(sampleRate: int, numChannels: int)
    ensures var c := FmtChunk(sampleRate, numChannels);
      && c[0..4] == CharCodes("fmt ")
      && c[4..8] == LE32(16)
      && c[8..10] == LE16(1)
      && c[10..12] == LE16(numChannels)
      && c[12..16] == LE32(sampleRate)
      && c[16..20] == LE32(sampleRate * numChannels * 2)
      && c[20..22] == LE16(numChannels * 2)
      && c[22..24] == LE16(16)
  {
    var a := CharCodes("fmt ") + LE32(16) + LE16(1) + LE16(numChannels);
    var b := LE32(sampleRate) + LE32(sampleRate * numChannels * 2) + LE16(numChannels * 2) + LE16(16);
    assert FmtChunk(sampleRate, numChannels) == a + b;
  }

  lemma DataChunkHeaderLayout(n: nat)
    ensures var d := DataChunkHeader(n);
      d[0..4] == CharCodes("data") && d[4..8] == LE32(2 * n)
  {
  }

  /** The file is the three header blocks followed by the samples. */
  lemma WavChunks(pcm: seq<Int16>, sampleRate: int, numChannels: int)
    ensures var f := WavFile(pcm, sampleRate, numChannels);
      && f[0..12] == RiffDescriptor(|pcm|)
      && f[12..36] == FmtChunk(sampleRate, numChannels)
      && f[36..44] == DataChunkHeader(|pcm|)
      && f[44..] == SampleBytes(pcm)
  {
    var f := WavFile(pcm, sampleRate, numChannels);
    var h := WavHeader(|pcm|, sampleRate, numChannels);
    WavHeaderPart(pcm, sampleRate, numChannels, 0, 12);
    WavHeaderPart(pcm, sampleRate, numChannels, 12, 36);
    WavHeaderPart(pcm, sampleRate, numChannels, 36, 44);
    WavHeaderChunks(|pcm|, sampleRate, numChannels);
    TwoParts(h, SampleBytes(pcm));
  }

  lemma WavHeaderPart(pcm: seq<Int16>, sampleRate: int, numChannels: int, i: nat, j: nat)
    requires i <= j <= WavHeaderSize
    ensures WavFile(pcm, sampleRate, numChannels)[i..j] == WavHeader(|pcm|, sampleRate, numChannels)[i..j]
  {
    var f := WavFile(pcm, sampleRate, numChannels);
    TwoParts(WavHeader(|pcm|, sampleRate, numChannels), SampleBytes(pcm));
    SliceOfSlice(f, 0, WavHeaderSize, i, j);
  }

  lemma WavHeaderChunks(n: nat, sampleRate: int, numChannels: int)
    ensures var h := WavHeader(n, sampleRate, numChannels);
      && h[0..12] == RiffDescriptor(n)
      && h[12..36] == FmtChunk(sampleRate, numChannels)
      && h[36..44] == DataChunkHeader(n)
  {
    ThreeParts(RiffDescriptor(n), FmtChunk(sampleRate, numChannels), DataChunkHeader(n));
  }

  lemma TwoParts(a: seq<Byte>, b: seq<Byte>)
    ensures (a + b)[..|a|] == a && (a + b)[|a|..] == b
  {
  }

  lemma ThreeParts(a: seq<Byte>, b: seq<Byte>, c: seq<Byte>)
    ensures (a + b + c)[0..|a|] == a
    ensures (a + b + c)[|a|..|a| + |b|] == b
    ensures (a + b + c)[|a| + |b|..|a| + |b| + |c|] == c
  {
  }

  /** Bytes 0-3, 8-11, 12-15 and 36-39 hold the chunk identifiers. */
  lemma WavTags(pcm: seq<Int16>, sampleRate: int, numChannels: int)
    ensures var f := WavFile(pcm, sampleRate, numChannels);
      && f[0..4] == CharCodes("RIFF") && f[8..12] == CharCodes("WAVE")
      && f[12..16] == CharCodes("fmt ") && f[36..40] == CharCodes("data")
  {
    var f := WavFile(pcm, sampleRate, numChannels);
    WavChunks(pcm, sampleRate, numChannels);
    RiffDescriptorLayout(|pcm|);
    FmtChunkLayout(sampleRate, numChannels);
    DataChunkHeaderLayout(|pcm|);
    SliceOfSlice(f, 0, 12, 0, 4);
    SliceOfSlice(f, 0, 12, 8, 12);
    SliceOfSlice(f, 12, 36, 0, 4);
    SliceOfSlice(f, 36, 44, 0, 4);
  }

  /** Bytes 4-7 hold 36 + dataSize and bytes 40-43 hold dataSize, little-endian. */
  lemma WavSizes(pcm: seq<Int16>, sampleRate: int, numChannels: int)
    ensures var f := WavFile(pcm, sampleRate, numChannels);
      && U32(f[4..8]) == (36 + 2 * |pcm|) % 0x1_0000_0000
      && U32(f[40..44]) == (2 * |pcm|) % 0x1_0000_0000
  {
    var f := WavFile(pcm, sampleRate, numChannels);
    WavChunks(pcm, sampleRate, numChannels);
    RiffDescriptorLayout(|pcm|);
    DataChunkHeaderLayout(|pcm|);
    SliceOfSlice(f, 0, 12, 4, 8);
    SliceOfSlice(f, 36, 44, 4, 8);
    U32OfLE32(36 + 2 * |pcm|);
    U32OfLE32(2 * |pcm|);
  }

  /** Bytes 16-35 hold the `fmt ` fields: chunk size 16, format tag 1, the channel
      count, the sample rate, the byte rate, the block alignment and 16 bits per
      sample (each reduced to its field width). */
  lemma WavFormatFields(pcm: seq<Int16>, sampleRate: int, numChannels: int)
    ensures var f := WavFile(pcm, sampleRate, numChannels);
      && U32(f[16..20]) == 16
      && U16(f[20..22]) == 1
      && U16(f[22..24]) == numChannels % 0x1_0000
      && U32(f[24..28]) == sampleRate % 0x1_0000_0000
      && U32(f[28..32]) == (sampleRate * numChannels * 2) % 0x1_0000_0000
      && U16(f[32..34]) == (numChannels * 2) % 0x1_0000
      && U16(f[34..36]) == 16
  {
    var f := WavFile(pcm, sampleRate, numChannels);
    var c := FmtChunk(sampleRate, numChannels);
    WavChunks(pcm, sampleRate, numChannels);
    FmtChunkFields(sampleRate, numChannels);
    SliceOfSlice(f, 12, 36, 4, 8);
    SliceOfSlice(f, 12, 36, 8, 10);
    SliceOfSlice(f, 12, 36, 10, 12);
    SliceOfSlice(f, 12, 36, 12, 16);
    SliceOfSlice(f, 12, 36, 16, 20);
    SliceOfSlice(f, 12, 36, 20, 22);
    SliceOfSlice(f, 12, 36, 22, 24);
  }

  /** The `fmt ` chunk's fields, read back. */
  lemma FmtChunkFields(sampleRate: int, numChannels: int)
    ensures var c := FmtChunk(sampleRate, numChannels);
      && U32(c[4..8]) == 16
      && U16(c[8..10]) == 1
      && U16(c[10..12]) == numChannels % 0x1_0000
      && U32(c[12..16]) == sampleRate % 0x1_0000_0000
      && U32(c[16..20]) == (sampleRate * numChannels * 2) % 0x1_0000_0000
      && U16(c[20..22]) == (numChannels * 2) % 0x1_0000
      && U16(c[22..24]) == 16
  {
    FmtChunkLayout(sampleRate, numChannels);
    ReadFmtFields(FmtChunk(sampleRate, numChannels), sampleRate, numChannels,
                  sampleRate * numChannels * 2, numChannels * 2);
  }

  lemma ReadFmtFields(c: seq<Byte>, sampleRate: int, numChannels: int, byteRate: int, blockAlign: int)
    requires |c| == 24
    requires c[4..8] == LE32(16) && c[8..10] == LE16(1) && c[10..12] == LE16(numChannels)
    requires c[12..16] == LE32(sampleRate) && c[16..20] == LE32(byteRate)
    requires c[20..22] == LE16(blockAlign) && c[22..24] == LE16(16)
    ensures U32(c[4..8]) == 16
    ensures U16(c[8..10]) == 1
    ensures U16(c[10..12]) == numChannels % 0x1_0000
    ensures U32(c[12..16]) == sampleRate % 0x1_0000_0000
    ensures U32(c[16..20]) == byteRate % 0x1_0000_0000
    ensures U16(c[20..22]) == blockAlign % 0x1_0000
    ensures U16(c[22..24]) == 16
  {
    ReadLE32(c, 4, 16);
    ReadLE16(c, 8, 1);
    ReadLE16(c, 10, numChannels);
    ReadLE32(c, 12, sampleRate);
    ReadLE32(c, 16, byteRate);
    ReadLE16(c, 20, blockAlign);
    ReadLE16(c, 22, 16);
  }

  lemma ReadLE16(bs: seq<Byte>, k: nat, v: int)
    requires k + 2 <= |bs| && bs[k..k + 2] == LE16(v)
    ensures U16(bs[k..k + 2]) == v % 0x1_0000
  {
    U16OfLE16(v);
  }

  lemma ReadLE32(bs: seq<Byte>, k: nat, v: int)
    requires k + 4 <= |bs| && bs[k..k + 4] == LE32(v)
    ensures U32(bs[k..k + 4]) == v % 0x1_0000_0000
  {
    U32OfLE32(v);
  }

  /** What a reader of canonical PCM WAVE files recovers from a byte buffer. */
  datatype WavInfo = WavInfo(numChannels: nat, sampleRate: nat, samples: seq<Int16>)

  /** Checks the RIFF descriptor and reads the size it declares. */
  function ParseRiffDescriptor(h: seq<Byte>): Option<nat>
    requires |h| == 12
  {
    if h[0..4] == CharCodes("RIFF") && h[8..12] == CharCodes("WAVE") then Some(U32(h[4..8])) else None
  }

  /** Checks the `fmt ` chunk of 16-bit PCM and reads (channels, sample rate). */
  function ParseFmtChunk(c: seq<Byte>): Option<(nat, nat)>
    requires |c| == 24
  {
    var channels := U16(c[10..12]);
    var rate := U32(c[12..16]);
    if c[0..4] == CharCodes("fmt ") && U32(c[4..8]) == 16 && U16(c[8..10]) == 1
       && U32(c[16..20]) == (rate * channels * 2) % 0x1_0000_0000
       && U16(c[20..22]) == (channels * 2) % 0x1_0000 && U16(c[22..24]) == 16
    then Some((channels, rate))
    else None
  }

  /** Checks the head of the `data` chunk and reads the size it declares. */
  function ParseDataChunkHeader(d: seq<Byte>): Option<nat>
    requires |d| == 8
  {
    if d[0..4] == CharCodes("data") then Some(U32(d[4..8])) else None
  }

  /** A reader for the canonical 44-byte-header PCM WAVE layout: it checks the
      chunk identifiers, the two declared sizes against the buffer length, the PCM
      format tag, 16 bits per sample and the derived byte rate and block alignment,
      and reads the samples. */
  function ParseWav(f: seq<Byte>): Option<WavInfo>
  {
    if |f| < WavHeaderSize then None
    else
      var riff, fmt, data := ParseRiffDescriptor(f[0..12]), ParseFmtChunk(f[12..36]), ParseDataChunkHeader(f[36..44]);
      if riff != Some(|f| - 8) || fmt.None? || data != Some(|f| - WavHeaderSize) then None
      else
        match Int16View(f[WavHeaderSize..])
        case None => None
        case Some(samples) => Some(WavInfo(fmt.value.0, fmt.value.1, samples))
  }

  lemma ParseRiffDescriptorOf(n: nat)
    requires 36 + 2 * n < 0x1_0000_0000
    ensures ParseRiffDescriptor(RiffDescriptor(n)) == Some(36 + 2 * n)
  {
    RiffDescriptorLayout(n);
    U32OfLE32(36 + 2 * n);
  }

  lemma ParseFmtChunkOf(sampleRate: nat, numChannels: nat)
    requires sampleRate < 0x1_0000_0000 && numChannels < 0x1_0000
    ensures ParseFmtChunk(FmtChunk(sampleRate, numChannels)) == Some((numChannels, sampleRate))
  {
    var c := FmtChunk(sampleRate, numChannels);
    FmtChunkLayout(sampleRate, numChannels);
    FmtChunkFields(sampleRate, numChannels);
    assert numChannels % 0x1_0000 == numChannels;
    assert sampleRate % 0x1_0000_0000 == sampleRate;
    ParseFmtFields(c, sampleRate, numChannels);
  }

  /** A chunk whose fields read as a consistent 16-bit PCM format is accepted. */
  lemma ParseFmtFields(c: seq<Byte>, rate: nat, channels: nat)
    requires |c| == 24 && c[0..4] == CharCodes("fmt ")
    requires U32(c[4..8]) == 16 && U16(c[8..10]) == 1 && U16(c[22..24]) == 16
    requires U16(c[10..12]) == channels && U32(c[12..16]) == rate
    requires U32(c[16..20]) == (rate * channels * 2) % 0x1_0000_0000
    requires U16(c[20..22]) == (channels * 2) % 0x1_0000
    ensures ParseFmtChunk(c) == Some((channels, rate))
  {
  }

  lemma ParseDataChunkHeaderOf(n: nat)
    requires 2 * n < 0x1_0000_0000
    ensures ParseDataChunkHeader(DataChunkHeader(n)) == Some(2 * n)
  {
    DataChunkHeaderLayout(n);
    U32OfLE32(2 * n);
  }

  lemma ParseWavOf(f: seq<Byte>, numChannels: nat, sampleRate: nat, pcm: seq<Int16>)
    requires |f| >= WavHeaderSize
    requires ParseRiffDescriptor(f[0..12]) == Some(|f| - 8)
    requires ParseFmtChunk(f[12..36]) == Some((numChannels, sampleRate))
    requires ParseDataChunkHeader(f[36..44]) == Some(|f| - WavHeaderSize)
    requires Int16View(f[WavHeaderSize..]) == Some(pcm)
    ensures ParseWav(f) == Some(WavInfo(numChannels, sampleRate, pcm))
  {
  }

  /** Round trip: reading back the file `pcmToWav` writes recovers the channel
      count, the sample rate and every sample, as long as each fits its field. */
  lemma ParseWavFile(pcm: seq<Int16>, sampleRate: nat, numChannels: nat)
    requires sampleRate < 0x1_0000_0000 && numChannels < 0x1_0000
    requires 36 + 2 * |pcm| < 0x1_0000_0000
    ensures ParseWav(WavFile(pcm, sampleRate, numChannels))
            == Some(WavInfo(numChannels, sampleRate, pcm))
  {
    var f := WavFile(pcm, sampleRate, numChannels);
    WavChunks(pcm, sampleRate, numChannels);
    ParseRiffDescriptorOf(|pcm|);
    ParseFmtChunkOf(sampleRate, numChannels);
    ParseDataChunkHeaderOf(|pcm|);
    Int16ViewOfSampleBytes(pcm);
    ParseWavOf(f, numChannels, sampleRate, pcm);
  }

  /** Every sample sits at bytes 44 + 2i and 45 + 2i and reads back as itself. */
  lemma WavSampleAt(pcm: seq<Int16>, sampleRate: int, numChannels: int, i: nat)
    requires i < |pcm|
    ensures var f := WavFile(pcm, sampleRate, numChannels);
      S16(f[WavHeaderSize + 2 * i..WavHeaderSize + 2 * i + 2]) == pcm[i]
  {
    var f := WavFile(pcm, sampleRate, numChannels);
    WavChunks(pcm, sampleRate, numChannels);
    SampleBytesAt(pcm, i);
    assert f[WavHeaderSize + 2 * i..WavHeaderSize + 2 * i + 2] == SampleBytes(pcm)[2 * i..2 * i + 2];
    S16RoundTrip(pcm[i]);
  }

  // ---------------------------------------------------------------------------
  // Writing into a DataView

  /** `view.setUint8(offset + i, s.charCodeAt(i))` for every character of `s`. */
  method WriteString(view: array<Byte>, offset: nat, s: string)
    requires offset + |s| <= view.Length
    modifies view
    ensures view[..offset + |s|] == old(view[..offset]) + CharCodes(s)
    ensures forall k :: offset + |s| <= k < view.Length ==> view[k] == old(view[k])
  {
    var i := 0;
    while i < |s|
      invariant 0 <= i <= |s|
      invariant view[..offset + i] == old(view[..offset]) + CharCodes(s)[..i]
      invariant forall k :: offset + i <= k < view.Length ==> view[k] == old(view[k])
    {
      view[offset + i] := (s[i] as int) % 0x100;
      i := i + 1;
    }
  }

  /** `view.setUint16(offset, v, true)`; `setInt16` writes the same bytes. */
  method SetUint16(view: array<Byte>, offset: nat, v: int)
    requires offset + 2 <= view.Length
    modifies view
    ensures view[..offset + 2] == old(view[..offset]) + LE16(v)
    ensures forall k :: offset + 2 <= k < view.Length ==> view[k] == old(view[k])
  {
    var bs := LE16(v);
    view[offset] := bs[0];
    view[offset + 1] := bs[1];
  }

  /** `view.setUint32(offset, v, true)`. */
  method SetUint32(view: array<Byte>, offset: nat, v: int)
    requires offset + 4 <= view.Length
    modifies view
    ensures view[..offset + 4] == old(view[..offset]) + LE32(v)
    ensures forall k :: offset + 4 <= k < view.Length ==> view[k] == old(view[k])
  {
    var bs := LE32(v);
    view[offset] := bs[0];
    view[offset + 1] := bs[1];
    view[offset + 2] := bs[2];
    view[offset + 3] := bs[3];
  }

  /** The first block of `pcmToWav`: the RIFF chunk descriptor at `offset`. */
  method WriteRiffDescriptor(view: array<Byte>, offset: nat, dataSize: nat) returns (next: nat)
    requires offset + 12 <= view.Length && dataSize % 2 == 0
    modifies view
    ensures next == offset + 12
    ensures view[..next] == old(view[..offset]) + RiffDescriptor(dataSize / 2)
    ensures forall k :: next <= k < view.Length ==> view[k] == old(view[k])
  {
    ghost var written := view[..offset];
    next := offset;
    WriteString(view, next, "RIFF");
    written, next := written + CharCodes("RIFF"), next + 4;
    SetUint32(view, next, 36 + dataSize);
    written, next := written + LE32(36 + dataSize), next + 4;
    WriteString(view, next, "WAVE");
    written, next := written + CharCodes("WAVE"), next + 4;
    assert written == old(view[..offset]) + RiffDescriptor(dataSize / 2);
  }

  /** The second block of `pcmToWav`: the `fmt ` sub-chunk at `offset`. */
  method WriteFmtChunk(view: array<Byte>, offset: nat, sampleRate: int, numChannels: int) returns (next: nat)
    requires offset + 24 <= view.Length
    modifies view
    ensures next == offset + 24
    ensures view[..next] == old(view[..offset]) + FmtChunk(sampleRate, numChannels)
    ensures forall k :: next <= k < view.Length ==> view[k] == old(view[k])
  {
    ghost var written := view[..offset];
    next := offset;
    WriteString(view, next, "fmt ");
    written, next := written + CharCodes("fmt "), next + 4;
    SetUint32(view, next, 16);
    written, next := written + LE32(16), next + 4;
    SetUint16(view, next, 1);
    written, next := written + LE16(1), next + 2;
    SetUint16(view, next, numChannels);
    written, next := written + LE16(numChannels), next + 2;
    SetUint32(view, next, sampleRate);
    written, next := written + LE32(sampleRate), next + 4;
    SetUint32(view, next, sampleRate * numChannels * 2);
    written, next := written + LE32(sampleRate * numChannels * 2), next + 4;
    SetUint16(view, next, numChannels * 2);
    written, next := written + LE16(numChannels * 2), next + 2;
    SetUint16(view, next, 16);
    written, next := written + LE16(16), next + 2;
    assert written == old(view[..offset]) + FmtChunk(sampleRate, numChannels);
  }

  /** The third block of `pcmToWav`: the head of the `data` sub-chunk at `offset`. */
  method WriteDataChunkHeader(view: array<Byte>, offset: nat, dataSize: nat) returns (next: nat)
    requires offset + 8 <= view.Length && dataSize % 2 == 0
    modifies view
    ensures next == offset + 8
    ensures view[..next] == old(view[..offset]) + DataChunkHeader(dataSize / 2)
    ensures forall k :: next <= k < view.Length ==> view[k] == old(view[k])
  {
    ghost var written := view[..offset];
    next := offset;
    WriteString(view, next, "data");
    written, next := written + CharCodes("data"), next + 4;
    SetUint32(view, next, dataSize);
    written, next := written + LE32(dataSize), next + 4;
    assert written == old(view[..offset]) + DataChunkHeader(dataSize / 2);
  }

  /** The header part of `pcmToWav`: the three blocks, one after the other, from
      offset 0. */
  method WriteWavHeader(view: array<Byte>, dataSize: nat, sampleRate: int, numChannels: int) returns (offset: nat)
    requires WavHeaderSize <= view.Length && dataSize % 2 == 0
    modifies view
    ensures offset == WavHeaderSize
    ensures view[..offset] == WavHeader(dataSize / 2, sampleRate, numChannels)
    ensures forall k :: WavHeaderSize <= k < view.Length ==> view[k] == old(view[k])
  {
    offset := 0;
    offset := WriteRiffDescriptor(view, offset, dataSize);
    offset := WriteFmtChunk(view, offset, sampleRate, numChannels);
    offset := WriteDataChunkHeader(view, offset, dataSize);
  }

  /** The sample loop of `pcmToWav`: each sample little-endian at `offset`, which
      advances by two per sample. */
  method WriteSamples(view: array<Byte>, offset: nat, pcm: seq<Int16>) returns (next: nat)
    requires offset + 2 * |pcm| <= view.Length
    modifies view
    ensures next == offset + 2 * |pcm|
    ensures view[..next] == old(view[..offset]) + SampleBytes(pcm)
    ensures forall k :: next <= k < view.Length ==> view[k] == old(view[k])
  {
    next := offset;
    for i := 0 to |pcm|
      invariant next == offset + 2 * i
      invariant view[..next] == old(view[..offset]) + SampleBytes(pcm[..i])
      invariant forall k :: next <= k < view.Length ==> view[k] == old(view[k])
    {
      SetUint16(view, next, pcm[i]);
      SampleBytesSnoc(pcm, i);
      next := next + 2;
    }
    assert pcm[..|pcm|] == pcm;
  }

  /** `pcmToWav`: allocates exactly 44 + 2|pcm| bytes, writes the header field by
      field while advancing `offset`, then the samples; every write lies inside the
      buffer, the offset ends exactly at its end, and the buffer holds the WAV file. */
  method PcmToWav(pcm: seq<Int16>, sampleRate: int, numChannels: int) returns (wav: seq<Byte>)
    ensures |wav| == WavHeaderSize + 2 * |pcm|
    ensures wav == WavFile(pcm, sampleRate, numChannels)
  {
    var dataSize := |pcm| * 2;
    var view := new Byte[WavHeaderSize + dataSize];
    var offset := WriteWavHeader(view, dataSize, sampleRate, numChannels);
    offset := WriteSamples(view, offset, pcm);
    assert view[..] == view[..offset];
    wav := view[..];
  }

  /** The byte-copy loop of `base64ToArrayBuffer`, over the string `window.atob`
      returned: each character code goes into one `Uint8Array` slot. */
  method BinaryStringToBytes(binary: string) returns (bytes: seq<Byte>)
    ensures bytes == CharCodes(binary)
    ensures Latin1(binary) ==> forall i :: 0 <= i < |bytes| ==> bytes[i] == binary[i] as int
  {
    var buffer := new Byte[|binary|];
    for i := 0 to |binary|
      invariant buffer[..i] == CharCodes(binary)[..i]
    {
      buffer[i] := (binary[i] as int) % 0x100;
    }
    assert buffer[..] == buffer[..|binary|];
    bytes := buffer[..];
  }

  // ---------------------------------------------------------------------------
  // Reading the reply

  /** `mime.match(/rate=(\d+)/)` matches at position `i`. */
  predicate RateAt(mime: string, i: nat)
  {
    OccursAt(mime, "rate=", i) && i + 5 < |mime| && IsDigit(mime[i + 5])
  }

  /** The position of the first match of `/rate=(\d+)/`, if any. */
  function FirstRate(mime: string): (r: Option<nat>)
    ensures r.Some? ==> RateAt(mime, r.value)
    ensures r.Some? ==> forall j: nat :: j < r.value ==> !RateAt(mime, j)
    ensures r.None? ==> forall j: nat :: !RateAt(mime, j)
  {
    RateFrom(mime, 0)
  }

  /** The regular-expression scan, from position `k` on. */
  function RateFrom(mime: string, k: nat): (r: Option<nat>)
    ensures r.Some? ==> k <= r.value && RateAt(mime, r.value)
    ensures r.Some? ==> forall j: nat :: k <= j < r.value ==> !RateAt(mime, j)
    ensures r.None? ==> forall j: nat :: k <= j ==> !RateAt(mime, j)
    decreases |mime| - k
  {
    if k + 5 >= |mime| then None
    else if RateAt(mime, k) then Some(k)
    else RateFrom(mime, k + 1)
  }

  /** The sample rate `handleSubmit` reads from the MIME type: the decimal number
      captured by the first match of `/rate=(\d+)/`, or 24000 without a match. */
  function SampleRate(mime: string): nat
  {
    match FirstRate(mime)
    case None => DefaultSampleRate
    case Some(i) => DigitsValue(LeadingDigits(mime[i + 5..]))
  }

  /** A MIME type carrying `rate=<n>` (and no earlier `rate=`) yields the rate `n`. */
  lemma SampleRateOf(prefix: string, n: nat, rest: string)
    requires !Contains(prefix, "rate=")
    requires rest == "" || !IsDigit(rest[0])
    ensures SampleRate(prefix + "rate=" + DecimalString(n) + rest) == n
  {
    var ds := DecimalString(n);
    var mime := prefix + "rate=" + ds + rest;
    RateMatch(prefix, ds, rest);
    FirstRateIs(mime, |prefix|);
    LeadingDigitsOf(ds, rest);
    DecimalRoundTrip(n);
  }

  /** `rate=` followed by a digit right after `prefix` is a match, and no match
      starts inside a prefix free of `rate=`. */
  lemma RateMatch(prefix: string, ds: string, rest: string)
    requires !Contains(prefix, "rate=") && ds != "" && IsDigit(ds[0])
    ensures var mime := prefix + "rate=" + ds + rest;
      && RateAt(mime, |prefix|)
      && (forall j: nat :: j < |prefix| ==> !RateAt(mime, j))
      && mime[|prefix| + 5..] == ds + rest
  {
    var tail := "rate=" + ds + rest;
    var mime := prefix + tail;
    var p := |prefix|;
    assert mime == prefix + "rate=" + ds + rest;
    assert tail[..5] == "rate=" && tail[5] == ds[0];
    assert mime[p..p + 5] == tail[..5] && mime[p + 5] == tail[5];
    NoRateBefore(prefix, tail);
  }

  lemma FirstRateIs(mime: string, p: nat)
    requires RateAt(mime, p) && forall j: nat :: j < p ==> !RateAt(mime, j)
    ensures FirstRate(mime) == Some(p)
  {
  }

  /** No match of `/rate=(\d+)/` starts inside a prefix free of `rate=` that is
      followed by text starting with `r`. */
  lemma NoRateBefore(prefix: string, tail: string)
    requires !Contains(prefix, "rate=") && tail != [] && tail[0] == 'r'
    ensures forall j: nat :: j < |prefix| ==> !RateAt(prefix + tail, j)
  {
    var mime := prefix + tail;
    var p := |prefix|;
    forall j: nat | j < p ensures !RateAt(mime, j) {
      if j + 5 <= p {
        assert prefix[j..j + 5] == mime[j..j + 5];
        assert !OccursAt(prefix, "rate=", j);
      } else {
        var d := p - j;
        assert mime[p] == 'r' && "rate="[d] != 'r';
        assert j + 5 <= |mime| ==> mime[j..j + 5][d] == mime[p];
      }
    }
  }

  /** A MIME type without `rate=` falls back to 24000. */
  lemma SampleRateDefault(mime: string)
    requires !Contains(mime, "rate=")
    ensures SampleRate(mime) == DefaultSampleRate
  {
  }

  /** The acceptance test of `handleSubmit`: inline data present, a MIME type
      present, and the MIME type starting with `audio/L16`. */
  predicate AcceptsAudio(data: Option<string>, mimeType: Option<string>)
  {
    Truthy(data) && Truthy(mimeType) && StartsWith(mimeType.value, "audio/L16")
  }

  /** The text sent to the speech service. */
  function Prompt(script: string, voiceMode: string): (p: string)
    ensures voiceMode != "coaching" ==> p == script
    ensures voiceMode == "coaching" ==>
      |p| == |CoachingPrefix| + |script| + 1 && StartsWith(p, CoachingPrefix)
      && p[|CoachingPrefix|..|p| - 1] == script && p[|p| - 1] == '"'
  {
    if voiceMode == "coaching" then CoachingPrefix + script + "\"" else script
  }

  /** What `window.atob(data)` did: returned a binary string or threw. */
  datatype Atob = Decoded(binary: string) | AtobError(message: string)

  /** The outcome of the request to the speech service. */
  datatype TtsReply =
    | NotOk(statusText: string)                 // `response.ok` was false
    | Threw(message: string)                    // `fetch` or `response.json()` threw
    | Body(data: Option<string>, mimeType: Option<string>, decoded: Atob)

  /** What a submission ends with: the WAV file behind `audioUrl`, or the error text. */
  datatype Outcome = Playable(wav: seq<Byte>) | Failed(error: string)

  /** The outcome of a submission with reply `reply`, as the handler computes it. */
  function SubmitOutcome(reply: TtsReply): Outcome
  {
    match reply
    case NotOk(statusText) => Failed("API error: " + statusText)
    case Threw(message) => Failed(OrElse(Some(message), DefaultErrorMessage))
    case Body(data, mimeType, decoded) =>
      if !AcceptsAudio(data, mimeType) then Failed(InvalidAudioMessage)
      else
        match decoded
        case AtobError(message) => Failed(OrElse(Some(message), DefaultErrorMessage))
        case Decoded(binary) =>
          match Int16View(CharCodes(binary))
          case None => Failed(OddLengthMessage)
          case Some(pcm) => Playable(WavFile(pcm, SampleRate(mimeType.value), 1))
  }

  /** Audio is produced only for accepted data, and it is a mono WAV file at the
      rate from the MIME type holding exactly the decoded samples. */
  lemma SubmitOutcomeAudio(reply: TtsReply)
    requires SubmitOutcome(reply).Playable?
    requires reply.Body? && SampleRate(reply.mimeType.value) < 0x1_0000_0000
    requires reply.decoded.Decoded? && 36 + |reply.decoded.binary| < 0x1_0000_0000
    ensures AcceptsAudio(reply.data, reply.mimeType)
    ensures |reply.decoded.binary| % 2 == 0
    ensures ParseWav(SubmitOutcome(reply).wav)
            == Some(WavInfo(1, SampleRate(reply.mimeType.value),
                            Int16View(CharCodes(reply.decoded.binary)).value))
  {
    var pcm := Int16View(CharCodes(reply.decoded.binary)).value;
    ParseWavFile(pcm, SampleRate(reply.mimeType.value), 1);
  }

  /** A reply without inline data or without an `audio/L16` MIME type is refused
      with the fixed message. */
  lemma SubmitOutcomeRefused(data: Option<string>, mimeType: Option<string>, decoded: Atob)
    requires !Truthy(data) || !Truthy(mimeType) || !StartsWith(mimeType.value, "audio/L16")
    ensures SubmitOutcome(Body(data, mimeType, decoded)) == Failed(InvalidAudioMessage)
  {
  }

  /** The state of the voice-over page. */
  class Page {
    var script: string
    var voiceMode: string
    var isLoading: bool
    var audio: Option<seq<Byte>>
    var error: Option<string>

    constructor ()
      ensures script == DefaultScript
      ensures voiceMode == "coaching" && !isLoading && audio == None && error == None
    {
      script := DefaultScript;
      voiceMode := "coaching";
      isLoading := false;
      audio := None;
      error := None;
    }

    /** `handleSubmit`: nothing happens for an empty script; otherwise the prompt is
        sent, and the page ends not loading with either the WAV file or an error. */
    method HandleSubmit(reply: TtsReply) returns (sent: Option<string>)
      modifies this
      ensures script == old(script) && voiceMode == old(voiceMode)
      ensures old(script) == "" ==>
        sent == None && isLoading == old(isLoading) && audio == old(audio) && error == old(error)
      ensures old(script) != "" ==> sent == Some(Prompt(script, voiceMode)) && !isLoading
      ensures old(script) != "" ==>
        match SubmitOutcome(reply)
        case Playable(wav) => audio == Some(wav) && error == None
        case Failed(message) => audio == None && error == Some(message)
    {
      if script == "" {
        return None;
      }
      isLoading, audio, error := true, None, None;
      sent := Some(Prompt(script, voiceMode));

      match reply {
        case NotOk(statusText) =>
          error := Some("API error: " + statusText);
        case Threw(message) =>
          error := Some(OrElse(Some(message), DefaultErrorMessage));
        case Body(data, mimeType, decoded) =>
          if AcceptsAudio(data, mimeType) {
            var sampleRate := SampleRate(mimeType.value);
            match decoded {
              case AtobError(message) =>
                error := Some(OrElse(Some(message), DefaultErrorMessage));
              case Decoded(binary) =>
                var bytes := BinaryStringToBytes(binary);
                var pcm16 := Int16View(bytes);
                if pcm16.None? {
                  error := Some(OddLengthMessage);
                } else {
                  var wav := PcmToWav(pcm16.value, sampleRate, 1);
                  audio := Some(wav);
                }
            }
          } else {
            error := Some(InvalidAudioMessage);
          }
      }
      isLoading := false;
    }

    /** `handleReset`: drops the audio and the error. */
    method HandleReset()
      modifies this
      ensures audio == None && error == None
      ensures script == old(script) && voiceMode == old(voiceMode) && isLoading == old(isLoading)
    {
      audio, error := None, None;
    }
  }
}
