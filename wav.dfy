/**
 * The WAV side of the Convai widget's audio path: reading the format fields
 * of the canonical 44-byte RIFF/WAVE header, stripping that header from every
 * streamed chunk and concatenating the PCM payloads, and de-interleaving the
 * PCM into per-channel integer samples.
 */
module Wav {
  import opened Wrappers
  import opened Bytes

  /** Size of the canonical PCM WAV header; also the payload offset inside every chunk. */
  const HeaderSize: nat := 44

  /** The parsed header record: `{numChannels, sampleRate, bitsPerSample, dataOffset}`. */
  datatype WavHeader = WavHeader(numChannels: nat, sampleRate: nat, bitsPerSample: nat, dataOffset: nat)

  // ------------------------------------------------------------ header

  /**
   * Reads the three format fields at their fixed little-endian offsets. No
   * RIFF, WAVE, fmt or data tag is looked at. A DataView read at offset 34
   * needs 36 bytes; the widget only calls this on chunks longer than 44 bytes.
   */
  function ParseWavHeader(bytes: seq<Byte>): (h: WavHeader)
    requires |bytes| >= 36
    ensures h.dataOffset == HeaderSize
    ensures h.numChannels < 0x1_0000 && h.bitsPerSample < 0x1_0000 && h.sampleRate < 0x1_0000_0000
  {
    WavHeader(U16(bytes, 22), U32(bytes, 24), U16(bytes, 34), HeaderSize)
  }

  /** The parse depends on bytes 22-27 and 34-35 only: every other byte, tags included, may be anything. */
  lemma ParseReadsOnlyFormatFields(a: seq<Byte>, b: seq<Byte>)
    requires |a| >= 36 && |b| >= 36
    requires a[22..28] == b[22..28] && a[34..36] == b[34..36]
    ensures ParseWavHeader(a) == ParseWavHeader(b)
  {
    assert a[22] == a[22..28][0] && a[23] == a[22..28][1] && a[24] == a[22..28][2];
    assert a[25] == a[22..28][3] && a[26] == a[22..28][4] && a[27] == a[22..28][5];
    assert a[34] == a[34..36][0] && a[35] == a[34..36][1];
  }

  const Riff: seq<Byte> := [0x52, 0x49, 0x46, 0x46]
  const Wave: seq<Byte> := [0x57, 0x41, 0x56, 0x45]
  const FmtTag: seq<Byte> := [0x66, 0x6D, 0x74, 0x20]
  const DataTag: seq<Byte> := [0x64, 0x61, 0x74, 0x61]

  /**
   * The canonical 44-byte header a producer writes in front of `dataSize`
   * bytes of PCM (format 1); the 32-bit size fields wrap modulo 2^32.
   */
  function CanonicalHeader(numChannels: nat, sampleRate: nat, bitsPerSample: nat, dataSize: nat): (r: seq<Byte>)
    requires numChannels < 0x1_0000 && bitsPerSample < 0x1_0000 && sampleRate < 0x1_0000_0000
    ensures |r| == HeaderSize
  {
    var blockAlign := numChannels * bitsPerSample / 8;
    Riff + LeU32((36 + dataSize) % 0x1_0000_0000) + Wave
    + FmtTag + LeU32(16) + LeU16(1) + LeU16(numChannels) + LeU32(sampleRate)
    + LeU32(sampleRate * blockAlign % 0x1_0000_0000) + LeU16(blockAlign % 0x1_0000) + LeU16(bitsPerSample)
    + DataTag + LeU32(dataSize % 0x1_0000_0000)
  }

  /** Parsing a chunk that starts with a canonical header gives back that header's format. */
  lemma ParseCanonicalHeader(numChannels: nat, sampleRate: nat, bitsPerSample: nat, dataSize: nat, payload: seq<Byte>)
    requires numChannels < 0x1_0000 && bitsPerSample < 0x1_0000 && sampleRate < 0x1_0000_0000
    ensures ParseWavHeader(CanonicalHeader(numChannels, sampleRate, bitsPerSample, dataSize) + payload)
            == WavHeader(numChannels, sampleRate, bitsPerSample, HeaderSize)
  {
    var hdr := CanonicalHeader(numChannels, sampleRate, bitsPerSample, dataSize);
    var chunk := hdr + payload;
    var channels := LeU16(numChannels);
    var rate := LeU32(sampleRate);
    var bits := LeU16(bitsPerSample);
    assert chunk[22..24] == channels;
    assert chunk[24..28] == rate;
    assert chunk[34..36] == bits;
    assert U16(chunk, 22) == U16(channels, 0);
    assert U16(chunk, 24) == U16(rate, 0) && U16(chunk, 26) == U16(rate, 2);
    assert U16(chunk, 34) == U16(bits, 0);
  }

  // ------------------------------------------------------------ concatenation

  /** `chunk.slice(dataOffset)`: the bytes after the header; slice clamps, so a short chunk gives none. */
  function Payload(chunk: seq<Byte>): (p: seq<Byte>)
    ensures |chunk| >= HeaderSize ==> |p| == |chunk| - HeaderSize
  {
    if |chunk| <= HeaderSize then [] else chunk[HeaderSize..]
  }

  /** The payloads of `chunks` joined in arrival order. */
  function ConcatPayloads(chunks: seq<seq<Byte>>): (pcm: seq<Byte>)
  {
    if chunks == [] then [] else ConcatPayloads(chunks[..|chunks| - 1]) + Payload(chunks[|chunks| - 1])
  }

  /** `totalPcmSize`: the sum of `chunk.length - dataOffset`, which goes negative for short chunks. */
  function DeclaredPcmSize(chunks: seq<seq<Byte>>): (n: int)
  {
    if chunks == [] then 0 else DeclaredPcmSize(chunks[..|chunks| - 1]) + (|chunks[|chunks| - 1]| - HeaderSize)
  }

  /** Every chunk carries at least a full header. */
  predicate AllFramed(chunks: seq<seq<Byte>>)
  {
    forall i :: 0 <= i < |chunks| ==> |chunks[i]| >= HeaderSize
  }

  /**
   * The byte count the copy needs is never below the declared size, and the
   * two agree exactly when no chunk is shorter than its header.
   */
  lemma {:induction false} PayloadSizeVersusDeclared(chunks: seq<seq<Byte>>)
    ensures |ConcatPayloads(chunks)| >= DeclaredPcmSize(chunks)
    ensures |ConcatPayloads(chunks)| == DeclaredPcmSize(chunks) <==> AllFramed(chunks)
  {
    if chunks != [] {
      var init := chunks[..|chunks| - 1];
      var last := chunks[|chunks| - 1];
      PayloadSizeVersusDeclared(init);
      assert AllFramed(chunks) <==> AllFramed(init) && |last| >= HeaderSize by {
        if AllFramed(init) && |last| >= HeaderSize {
          forall i | 0 <= i < |chunks| ensures |chunks[i]| >= HeaderSize {
            if i < |chunks| - 1 { assert chunks[i] == init[i]; }
          }
        }
        if AllFramed(chunks) {
          forall i | 0 <= i < |init| ensures |init[i]| >= HeaderSize {
            assert init[i] == chunks[i];
          }
        }
      }
    }
  }

  /** A longer prefix of the chunks never yields fewer payload bytes. */
  lemma {:induction false} ConcatPrefixLength(chunks: seq<seq<Byte>>, k: nat)
    requires k <= |chunks|
    ensures |ConcatPayloads(chunks[..k])| <= |ConcatPayloads(chunks)|
    decreases |chunks|
  {
    if k < |chunks| {
      var init := chunks[..|chunks| - 1];
      assert chunks[..k] == init[..k];
      ConcatPrefixLength(init, k);
    } else {
      assert chunks[..k] == chunks;
    }
  }

  /**
   * What the copy phase produces: the concatenated payloads, or nothing when
   * some chunk is shorter than its header (the buffer is then too small, or of
   * negative size, and the copy throws).
   */
  function AssembledPcm(chunks: seq<seq<Byte>>): (r: Option<seq<Byte>>)
  {
    if AllFramed(chunks) then Some(ConcatPayloads(chunks)) else None
  }

  /**
   * The two loops of the widget's processing step: sum the declared payload
   * sizes, allocate the buffer, then copy each chunk's payload at the running
   * offset (`pcmData.set`). Either allocation or a copy past the end throws.
   */
  method AssemblePcm(chunks: seq<seq<Byte>>) returns (r: Option<seq<Byte>>)
    ensures r.Some? <==> AllFramed(chunks)
    ensures r.Some? ==> r.value == ConcatPayloads(chunks) && |r.value| == DeclaredPcmSize(chunks)
  {
    var total := DeclaredTotal(chunks);
    PayloadSizeVersusDeclared(chunks);
    if total < 0 {
      return None;  // new Uint8Array(negative length) throws a RangeError
    }
    var pcm := new Byte[total];
    var offset := 0;
    for k := 0 to |chunks|
      invariant offset == |ConcatPayloads(chunks[..k])| <= total
      invariant pcm[..offset] == ConcatPayloads(chunks[..k])
    {
      var part := Payload(chunks[k]);
      assert chunks[..k + 1][..k] == chunks[..k];
      assert ConcatPayloads(chunks[..k + 1]) == ConcatPayloads(chunks[..k]) + part;
      if offset + |part| > total {
        ConcatPrefixLength(chunks, k + 1);
        return None;  // pcmData.set past the end of the buffer throws a RangeError
      }
      CopyAt(pcm, offset, part);
      offset := offset + |part|;
    }
    assert chunks[..|chunks|] == chunks;
    assert offset == total;
    assert pcm[..] == pcm[..offset];
    return Some(pcm[..]);
  }

  /** The first loop: the sum of the declared payload sizes `chunk.length - 44`. */
  method DeclaredTotal(chunks: seq<seq<Byte>>) returns (total: int)
    ensures total == DeclaredPcmSize(chunks)
  {
    total := 0;
    for k := 0 to |chunks|
      invariant total == DeclaredPcmSize(chunks[..k])
    {
      assert chunks[..k + 1][..k] == chunks[..k];
      total := total + (|chunks[k]| - HeaderSize);
    }
    assert chunks[..|chunks|] == chunks;
  }

  /** `pcm.set(part, offset)`: the bytes before `offset` stay and `part` follows them. */
  method CopyAt(pcm: array<Byte>, offset: nat, part: seq<Byte>)
    requires offset + |part| <= pcm.Length
    modifies pcm
    ensures pcm[..offset + |part|] == old(pcm[..offset]) + part
    ensures pcm[offset + |part|..] == old(pcm[offset + |part|..])
  {
    ghost var before := pcm[..offset];
    for j := 0 to |part|
      invariant pcm[..offset] == before
      invariant pcm[offset + |part|..] == old(pcm[offset + |part|..])
      invariant pcm[offset..offset + j] == part[..j]
    {
      pcm[offset + j] := part[j];
      assert pcm[offset..offset + j + 1] == pcm[offset..offset + j] + [part[j]];
    }
    assert pcm[..offset + |part|] == pcm[..offset] + pcm[offset..offset + |part|];
  }

  /** `chunks` is each of `parts` behind some 44-byte header. */
  predicate FramedParts(chunks: seq<seq<Byte>>, parts: seq<seq<Byte>>)
  {
    |chunks| == |parts|
    && forall i :: 0 <= i < |chunks| ==> |chunks[i]| == HeaderSize + |parts[i]| && chunks[i][HeaderSize..] == parts[i]
  }

  /** The parts joined in order. */
  function Flatten(parts: seq<seq<Byte>>): (r: seq<Byte>)
  {
    if parts == [] then [] else Flatten(parts[..|parts| - 1]) + parts[|parts| - 1]
  }

  /** Joined parts hold data only if some part does. */
  lemma {:induction false} FlattenNonEmpty(parts: seq<seq<Byte>>)
    requires Flatten(parts) != []
    ensures exists k :: 0 <= k < |parts| && parts[k] != []
  {
    var n := |parts| - 1;
    if parts[n] == [] {
      FlattenNonEmpty(parts[..n]);
      var k :| 0 <= k < n && parts[..n][k] != [];
      assert parts[k] == parts[..n][k];
    }
  }

  /**
   * Chunk-boundary invariance: however a PCM stream is split into parts and
   * whatever header each part carries, assembly gives back the joined parts.
   */
  lemma {:induction false} AssembleFramedParts(chunks: seq<seq<Byte>>, parts: seq<seq<Byte>>)
    requires FramedParts(chunks, parts)
    ensures AssembledPcm(chunks) == Some(Flatten(parts))
  {
    if chunks != [] {
      var n := |chunks| - 1;
      assert FramedParts(chunks[..n], parts[..n]);
      AssembleFramedParts(chunks[..n], parts[..n]);
      assert AllFramed(chunks[..n]);
      assert AllFramed(chunks) by {
        forall i | 0 <= i < |chunks| ensures |chunks[i]| >= HeaderSize {
          if i < n { assert chunks[i] == chunks[..n][i]; }
        }
      }
    }
  }

  // ------------------------------------------------------------ decoding

  /**
   * `numSamples = pcm.length / (bitsPerSample / 8) / numChannels`, truncated
   * as `createBuffer` truncates its length argument: the number of whole
   * frames of `bitsPerSample * numChannels` bits in the PCM. A zero divisor
   * gives NaN or Infinity, which truncate to 0.
   */
  function Frames(pcmLength: nat, h: WavHeader): (f: nat)
    ensures h.numChannels == 0 || h.bitsPerSample == 0 ==> f == 0
    ensures h.numChannels > 0 && h.bitsPerSample > 0 ==>
              f * (h.bitsPerSample * h.numChannels) <= 8 * pcmLength < (f + 1) * (h.bitsPerSample * h.numChannels)
  {
    if h.numChannels == 0 || h.bitsPerSample == 0 then 0
    else
      var c := h.numChannels;
      var d := if h.bitsPerSample == 16 then 2 * c
               else if h.bitsPerSample == 8 then c
               else h.bitsPerSample * c;
      var k := if h.bitsPerSample == 16 || h.bitsPerSample == 8 then 8 else 1;
      var scaled := if h.bitsPerSample == 16 || h.bitsPerSample == 8 then pcmLength else 8 * pcmLength;
      assert d >= 1 by { MulMonotone(1, h.bitsPerSample, c); }
      assert k * d == h.bitsPerSample * c;
      assert k * scaled == 8 * pcmLength;
      DivNonnegative(scaled, d);
      FloorBounds(scaled, d);
      ScaleBounds(scaled / d, d, scaled, k);
      scaled / d
  }

  /** Floor division brackets its dividend: (a / d) * d <= a < (a / d + 1) * d. */
  lemma FloorBounds(a: nat, d: int)
    requires d > 0
    ensures (a / d) * d <= a < (a / d + 1) * d
  {
  }

  /** Scaling a bracket f * d <= a < (f + 1) * d by k > 0. */
  lemma ScaleBounds(f: int, d: int, a: int, k: int)
    requires k > 0 && f * d <= a < (f + 1) * d
    ensures f * (k * d) <= k * a < (f + 1) * (k * d)
  {
    assert f * (k * d) == k * (f * d);
    assert (f + 1) * (k * d) == k * ((f + 1) * d);
    MulStrict(a, (f + 1) * d, k);
    MulMonotoneLeft(f * d, a, k);
  }

  lemma MulStrict(a: int, b: int, k: int)
    requires a < b && k > 0
    ensures k * a < k * b
  {
  }

  lemma MulMonotoneLeft(a: int, b: int, k: int)
    requires a <= b && k >= 0
    ensures k * a <= k * b
  {
  }

  lemma DivNonnegative(a: nat, d: int)
    requires d > 0
    ensures a / d >= 0
  {
  }

  /** Why decoding produced no buffer: createBuffer refused, or a 16-bit read ran past the PCM. */
  datatype DecodeError = BufferRejected | ReadPastEnd

  lemma MulMonotone(a: int, b: int, d: nat)
    requires a <= b
    ensures a * d <= b * d
  {
  }

  lemma MulNonnegative(a: nat, b: nat)
    ensures a * b >= 0
  {
  }

  /** Byte offset of sample i of channel c: `(i * numChannels + c) * bytesPerSample`. */
  function Offset(i: nat, c: nat, numChannels: nat, bytes: nat): nat
  {
    MulNonnegative(i, numChannels);
    MulNonnegative(i * numChannels + c, bytes);
    (i * numChannels + c) * bytes
  }

  /** (a + 1) * n == a * n + n, kept out of larger proofs. */
  lemma MulSucc(a: int, n: int)
    ensures (a + 1) * n == a * n + n
  {
  }

  /** Frames for the two supported depths: the whole frames of `bytes * numChannels` bytes. */
  lemma FramesSupported(pcmLength: nat, h: WavHeader)
    requires h.bitsPerSample == 16 || h.bitsPerSample == 8
    requires h.numChannels > 0
    ensures var d := (h.bitsPerSample / 8) * h.numChannels;
            d > 0 && Frames(pcmLength, h) == pcmLength / d
            && Frames(pcmLength, h) * d <= pcmLength < (Frames(pcmLength, h) + 1) * d
  {
    var d := (h.bitsPerSample / 8) * h.numChannels;
    var f := Frames(pcmLength, h);
    assert d == if h.bitsPerSample == 16 then 2 * h.numChannels else h.numChannels;
    assert pcmLength == f * d + pcmLength % d;
    MulSucc(f, d);
  }

  /** For frame i < Frames and channel c, the sample's bytes lie inside the PCM. */
  lemma ReadInBounds(pcmLength: nat, h: WavHeader, i: nat, c: nat)
    requires h.bitsPerSample == 16 || h.bitsPerSample == 8
    requires h.numChannels > 0 && c < h.numChannels && i < Frames(pcmLength, h)
    ensures var bytes := h.bitsPerSample / 8;
            Offset(i, c, h.numChannels, bytes) + bytes <= pcmLength
  {
    var n := h.numChannels;
    var bytes := h.bitsPerSample / 8;
    var d := bytes * n;
    var f := Frames(pcmLength, h);
    FramesSupported(pcmLength, h);
    MulMonotone(i + 1, f, d);
    MulSucc(i, n);
    var m := i * n;
    assert (i + 1) * n == m + n;
    if bytes == 2 {
      assert (i + 1) * d == 2 * ((i + 1) * n);
      assert (m + c) * 2 + 2 <= 2 * (m + n);
    } else {
      assert (i + 1) * d == (i + 1) * n;
    }
  }

  /**
   * Sample i of channel c: the signed little-endian int16 at the interleaved
   * offset for 16-bit PCM, the unsigned byte minus 128 for 8-bit PCM, and 0
   * for any other depth (the channel data starts zeroed and is left so).
   */
  function SampleAt(pcm: seq<Byte>, h: WavHeader, i: nat, c: nat): (s: int)
    requires h.numChannels > 0 && c < h.numChannels && i < Frames(|pcm|, h)
    ensures h.bitsPerSample == 16 ==> -0x8000 <= s <= 0x7FFF
    ensures h.bitsPerSample == 8 ==> -0x80 <= s <= 0x7F
    ensures h.bitsPerSample != 16 && h.bitsPerSample != 8 ==> s == 0
  {
    if h.bitsPerSample == 16 then
      ReadInBounds(|pcm|, h, i, c);
      I16(pcm, Offset(i, c, h.numChannels, 2))
    else if h.bitsPerSample == 8 then
      ReadInBounds(|pcm|, h, i, c);
      pcm[Offset(i, c, h.numChannels, 1)] as int - 0x80
    else 0
  }

  /** The samples of one channel, one per frame. */
  function ChannelSamples(pcm: seq<Byte>, h: WavHeader, c: nat): (r: seq<int>)
    requires h.numChannels > 0 && c < h.numChannels
    ensures |r| == Frames(|pcm|, h)
  {
    seq(Frames(|pcm|, h), i requires 0 <= i < Frames(|pcm|, h) => SampleAt(pcm, h, i, c))
  }

  /**
   * The outcome of building the channel data: createBuffer rejects zero
   * channels, zero length or a zero sample rate; 16-bit decoding reads one
   * frame past the end (and throws) when the PCM is not a whole number of
   * frames; otherwise each channel holds its de-interleaved samples.
   */
  function Decoded(pcm: seq<Byte>, h: WavHeader): (r: Result<seq<seq<int>>, DecodeError>)
    ensures r.Ok? ==> |r.value| == h.numChannels > 0
                      && forall c :: 0 <= c < |r.value| ==> |r.value[c]| == Frames(|pcm|, h) > 0
  {
    if h.numChannels == 0 || Frames(|pcm|, h) == 0 || h.sampleRate == 0 then Err(BufferRejected)
    else if h.bitsPerSample == 16 && |pcm| % (2 * h.numChannels) != 0 then Err(ReadPastEnd)
    else Ok(seq(h.numChannels, c requires 0 <= c < h.numChannels => ChannelSamples(pcm, h, c)))
  }

  /** Channel data built sample by sample is what Decoded describes. */
  lemma DecodedChannels(pcm: seq<Byte>, h: WavHeader, channels: seq<seq<int>>)
    requires h.numChannels > 0 && Frames(|pcm|, h) > 0 && h.sampleRate > 0
    requires h.bitsPerSample == 16 ==> |pcm| % (2 * h.numChannels) == 0
    requires |channels| == h.numChannels
    requires forall c :: 0 <= c < |channels| ==> channels[c] == ChannelSamples(pcm, h, c)
    ensures Decoded(pcm, h) == Ok(channels)
  {
    var expected := seq(h.numChannels, c requires 0 <= c < h.numChannels => ChannelSamples(pcm, h, c));
    assert channels == expected;
  }

  /** With whole frames, no 16-bit read of the loop runs past the PCM. */
  lemma WholeFramesInBounds(pcmLength: nat, n: nat, i: nat, c: nat)
    requires n > 0 && c < n && pcmLength % (2 * n) == 0
    requires i * (16 * n) < 8 * pcmLength
    ensures Offset(i, c, n, 2) + 2 <= pcmLength
  {
    var q := pcmLength / (2 * n);
    assert pcmLength == q * (2 * n);
    assert i * (2 * n) < q * (2 * n) by {
      assert i * (16 * n) == 8 * (i * (2 * n));
    }
    if i + 1 > q {
      MulMonotone(q, i, 2 * n);
    }
    MulMonotone(i + 1, q, 2 * n);
    assert (i * n + c) * 2 + 2 == (i * n + c + 1) * 2;
    MulMonotone(i * n + c + 1, i * n + n, 2);
  }

  /** With a partial last frame, the 16-bit read of frame Frames in the last channel runs past the PCM. */
  lemma PartialFrameOverruns(pcmLength: nat, n: nat, i: nat)
    requires n > 0 && pcmLength % (2 * n) != 0
    requires i >= pcmLength / (2 * n)
    ensures Offset(i, n - 1, n, 2) + 2 > pcmLength
  {
    var q := pcmLength / (2 * n);
    assert pcmLength < (q + 1) * (2 * n);
    MulMonotone(q + 1, i + 1, 2 * n);
    assert (i * n + (n - 1)) * 2 + 2 == (i + 1) * (2 * n);
  }

  /** A frame index whose scaled position reaches the end is at least Frames. */
  lemma PastEndIsPastFrames(pcmLength: nat, h: WavHeader, i: nat)
    requires h.numChannels > 0 && h.bitsPerSample > 0
    requires i * (h.bitsPerSample * h.numChannels) >= 8 * pcmLength
    ensures i >= Frames(pcmLength, h)
  {
    MulMonotone(1, h.bitsPerSample, h.numChannels);
    AtLeastByProduct(i, Frames(pcmLength, h), h.bitsPerSample * h.numChannels, 8 * pcmLength);
  }

  /** i * d reaching a bound that f * d stays within means i >= f. */
  lemma AtLeastByProduct(i: nat, f: nat, d: int, bound: int)
    requires d > 0 && f * d <= bound <= i * d
    ensures i >= f
  {
    if i < f {
      MulMonotone(i + 1, f, d);
      MulSucc(i, d);
    }
  }

  /** While the scaled position is short of the end of a partial 16-bit PCM, frame Frames is still visited. */
  lemma PartialFrameVisited(pcmLength: nat, n: nat)
    requires n > 0 && pcmLength % (2 * n) != 0
    ensures (pcmLength / (2 * n)) * (16 * n) < 8 * pcmLength
  {
    var q := pcmLength / (2 * n);
    assert q * (2 * n) < pcmLength;
    assert q * (16 * n) == 8 * (q * (2 * n));
  }

  /**
   * The inner loop for one channel: for each i below the untruncated sample
   * count, compute the interleaved offset and decode; writes past the end of
   * the channel data are dropped, and a 16-bit read past the end of the PCM
   * throws.
   */
  method FillChannel(pcm: seq<Byte>, h: WavHeader, channel: nat) returns (r: Result<seq<int>, DecodeError>)
    requires h.numChannels > 0 && channel < h.numChannels && h.bitsPerSample > 0
    ensures r.Ok? ==> r.value == ChannelSamples(pcm, h, channel)
    ensures r.Err? ==> r.error == ReadPastEnd && h.bitsPerSample == 16 && |pcm| % (2 * h.numChannels) != 0
    ensures r.Ok? && h.bitsPerSample == 16 && channel == h.numChannels - 1 ==> |pcm| % (2 * h.numChannels) == 0
  {
    var n := h.numChannels;
    var bits := h.bitsPerSample;
    var frames := Frames(|pcm|, h);
    var data := new int[frames](_ => 0);
    MulMonotone(1, bits, n);
    var step := bits * n;
    var i, pos := 0, 0;
    while pos < 8 * |pcm|
      invariant pos == i * step
      invariant forall j :: 0 <= j < frames ==> data[j] == if j < i then SampleAt(pcm, h, j, channel) else 0
      invariant bits == 16 && i > 0 ==> Offset(i - 1, channel, n, 2) + 2 <= |pcm|
      decreases 8 * |pcm| - pos
    {
      if bits == 16 {
        var offset := Offset(i, channel, n, 2);
        if offset + 2 > |pcm| {
          assert |pcm| % (2 * n) != 0 by {
            if |pcm| % (2 * n) == 0 {
              WholeFramesInBounds(|pcm|, n, i, channel);
            }
          }
          return Err(ReadPastEnd);  // DataView.getInt16 throws a RangeError
        }
        if i < frames {
          data[i] := I16(pcm, offset);
        }
      } else if bits == 8 {
        if i < frames {
          ReadInBounds(|pcm|, h, i, channel);
          data[i] := pcm[Offset(i, channel, n, 1)] as int - 0x80;
        }
      }
      MulSucc(i, step);
      i, pos := i + 1, pos + step;
    }
    PastEndIsPastFrames(|pcm|, h, i);
    if bits == 16 && channel == n - 1 && |pcm| % (2 * n) != 0 {
      PartialFrameVisited(|pcm|, n);
      PartialFrameOverruns(|pcm|, n, i - 1);
      assert false;
    }
    return Ok(data[..]);
  }

  /**
   * The nested loops that fill the channel data, channel by channel, after
   * createBuffer has accepted the channel count, length and sample rate.
   */
  method DecodePcm(pcm: seq<Byte>, h: WavHeader) returns (r: Result<seq<seq<int>>, DecodeError>)
    ensures r == Decoded(pcm, h)
  {
    var numChannels := h.numChannels;
    var frames := Frames(|pcm|, h);
    if numChannels == 0 || frames == 0 || h.sampleRate == 0 {
      return Err(BufferRejected);  // createBuffer throws NotSupportedError
    }
    var channels: seq<seq<int>> := [];
    var channel := 0;
    while channel < numChannels
      invariant 0 <= channel <= numChannels && |channels| == channel
      invariant forall c :: 0 <= c < channel ==> channels[c] == ChannelSamples(pcm, h, c)
      invariant h.bitsPerSample == 16 && channel == numChannels ==> |pcm| % (2 * numChannels) == 0
    {
      var filled := FillChannel(pcm, h, channel);
      if filled.Err? {
        return Err(filled.error);
      }
      channels := channels + [filled.value];
      channel := channel + 1;
    }
    DecodedChannels(pcm, h, channels);
    return Ok(channels);
  }

  // ------------------------------------------------------------ normalisation and round trip

  /**
   * The float the widget stores for a decoded sample: divided by 32768 for
   * 16-bit PCM and by 128 for 8-bit PCM, so always in [-1, 1).
   */
  function Normalized(sample: int, bitsPerSample: nat): (x: real)
    requires bitsPerSample == 16 ==> -0x8000 <= sample <= 0x7FFF
    requires bitsPerSample == 8 ==> -0x80 <= sample <= 0x7F
    ensures -1.0 <= x < 1.0
    ensures x == 0.0 <==> sample == 0 || (bitsPerSample != 16 && bitsPerSample != 8)
  {
    if bitsPerSample == 16 then sample as real / 32768.0
    else if bitsPerSample == 8 then sample as real / 128.0
    else 0.0
  }

  /** 16-bit little-endian PCM of a sample sequence, each sample wrapped to 16 bits. */
  function Pcm16(samples: seq<int>): (pcm: seq<Byte>)
    ensures |pcm| == 2 * |samples|
  {
    if samples == [] then []
    else Pcm16(samples[..|samples| - 1]) + LeU16(samples[|samples| - 1] % 0x1_0000)
  }

  lemma {:induction false} Pcm16At(samples: seq<int>, k: nat)
    requires k < |samples| && -0x8000 <= samples[k] <= 0x7FFF
    ensures I16(Pcm16(samples), 2 * k) == samples[k]
  {
    var n := |samples| - 1;
    var init := samples[..n];
    var pcm := Pcm16(samples);
    var last := LeU16(samples[n] % 0x1_0000);
    assert pcm == Pcm16(init) + last;
    if k < n {
      assert init[k] == samples[k];
      Pcm16At(init, k);
      assert pcm[2 * k] == Pcm16(init)[2 * k] && pcm[2 * k + 1] == Pcm16(init)[2 * k + 1];
    } else {
      assert last == LeI16(samples[n]);
      assert pcm[2 * k] == last[0] && pcm[2 * k + 1] == last[1];
    }
  }

  /** The first `frames` samples of each channel, interleaved frame by frame. */
  function Interleave(channels: seq<seq<int>>, frames: nat): (r: seq<int>)
    requires forall c :: 0 <= c < |channels| ==> |channels[c]| >= frames
  {
    if frames == 0 then []
    else Interleave(channels, frames - 1) + seq(|channels|, c requires 0 <= c < |channels| => channels[c][frames - 1])
  }

  lemma {:induction false} InterleaveAt(channels: seq<seq<int>>, frames: nat, i: nat, c: nat)
    requires forall k :: 0 <= k < |channels| ==> |channels[k]| >= frames
    requires i < frames && c < |channels|
    ensures |Interleave(channels, frames)| == frames * |channels|
    ensures Offset(i, c, |channels|, 1) < |Interleave(channels, frames)|
    ensures Interleave(channels, frames)[Offset(i, c, |channels|, 1)] == channels[c][i]
  {
    var n := |channels|;
    var prev := Interleave(channels, frames - 1);
    MulSucc(frames - 1, n);
    MulSucc(i, n);
    if frames - 1 == 0 {
      assert prev == [];
    } else {
      InterleaveAt(channels, frames - 1, if i < frames - 1 then i else 0, c);
    }
    assert |prev| == (frames - 1) * n;
    if i < frames - 1 {
      MulMonotone(i + 1, frames - 1, n);
    } else {
      assert Offset(i, c, n, 1) == |prev| + c;
    }
  }

  /** A PCM of `frames` whole 16-bit frames: Frames counts them all and nothing is left over. */
  lemma WholeFrames16(frames: nat, h: WavHeader, pcmLength: nat)
    requires h.numChannels > 0 && h.bitsPerSample == 16
    requires pcmLength == frames * (2 * h.numChannels)
    ensures Frames(pcmLength, h) == frames && pcmLength % (2 * h.numChannels) == 0
  {
    DivExact(frames, 2 * h.numChannels);
  }

  /** Exact division: (f * d) / d == f with no remainder. */
  lemma DivExact(f: nat, d: nat)
    requires d > 0
    ensures (f * d) / d == f && (f * d) % d == 0
  {
    var q := (f * d) / d;
    var r := (f * d) % d;
    assert f * d == q * d + r && 0 <= r < d;
    assert (f - q) * d == r by {
      assert (f - q) * d == f * d - q * d;
    }
    if f - q >= 1 {
      MulMonotone(1, f - q, d);
    } else if f - q <= -1 {
      MulMonotone(f - q, -1, d);
    }
  }

  /** One channel of the encoded interleaved PCM decodes back to that channel. */
  lemma ChannelOfInterleaved16(channels: seq<seq<int>>, frames: nat, h: WavHeader, c: nat)
    requires |channels| > 0 && h == WavHeader(|channels|, h.sampleRate, 16, HeaderSize)
    requires forall k :: 0 <= k < |channels| ==> |channels[k]| == frames
    requires forall k, i :: 0 <= k < |channels| && 0 <= i < frames ==> -0x8000 <= channels[k][i] <= 0x7FFF
    requires c < |channels|
    requires Frames(|Pcm16(Interleave(channels, frames))|, h) == frames
    ensures ChannelSamples(Pcm16(Interleave(channels, frames)), h, c) == channels[c]
  {
    var n := |channels|;
    var samples := Interleave(channels, frames);
    var pcm := Pcm16(samples);
    forall i | 0 <= i < frames ensures SampleAt(pcm, h, i, c) == channels[c][i] {
      InterleaveAt(channels, frames, i, c);
      Pcm16At(samples, Offset(i, c, n, 1));
      assert Offset(i, c, n, 2) == 2 * Offset(i, c, n, 1);
    }
  }

  /** The encoded PCM holds two bytes per sample of every frame. */
  lemma EncodedLength(channels: seq<seq<int>>, frames: nat)
    requires |channels| > 0 && frames > 0
    requires forall k :: 0 <= k < |channels| ==> |channels[k]| >= frames
    ensures |Pcm16(Interleave(channels, frames))| == frames * (2 * |channels|)
  {
    InterleaveAt(channels, frames, 0, 0);
    var m := frames * |channels|;
    assert 2 * m == frames * (2 * |channels|);
  }

  /** Whole 16-bit frames whose channels each decode to the given samples decode as a whole. */
  lemma DecodedWhole16(pcm: seq<Byte>, h: WavHeader, channels: seq<seq<int>>, frames: nat)
    requires h.numChannels == |channels| > 0 && h.bitsPerSample == 16 && h.sampleRate > 0 && frames > 0
    requires |pcm| == frames * (2 * h.numChannels)
    requires forall c :: 0 <= c < |channels| ==> ChannelSamples(pcm, h, c) == channels[c]
    ensures Decoded(pcm, h) == Ok(channels)
  {
    WholeFrames16(frames, h, |pcm|);
    DecodedChannels(pcm, h, channels);
  }

  /**
   * Decoding inverts encoding: interleaving equal-length 16-bit channels and
   * writing them as little-endian PCM decodes back to the same channels.
   */
  lemma DecodeInterleaved16(channels: seq<seq<int>>, frames: nat, sampleRate: nat)
    requires |channels| > 0 && frames > 0 && sampleRate > 0
    requires forall k :: 0 <= k < |channels| ==> |channels[k]| == frames
    requires forall k, i :: 0 <= k < |channels| && 0 <= i < frames ==> -0x8000 <= channels[k][i] <= 0x7FFF
    ensures Decoded(Pcm16(Interleave(channels, frames)), WavHeader(|channels|, sampleRate, 16, HeaderSize)) == Ok(channels)
  {
    var n := |channels|;
    var h := WavHeader(n, sampleRate, 16, HeaderSize);
    var pcm := Pcm16(Interleave(channels, frames));
    EncodedLength(channels, frames);
    WholeFrames16(frames, h, |pcm|);
    forall c | 0 <= c < n ensures ChannelSamples(pcm, h, c) == channels[c] {
      ChannelOfInterleaved16(channels, frames, h, c);
    }
    DecodedWhole16(pcm, h, channels, frames);
  }
}
