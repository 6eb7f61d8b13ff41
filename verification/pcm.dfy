/**
 * The byte-to-sample loop of `mp3ToPCM` (internal/audio/audio.go).
 *
 * The MPEG-1 Layer III decoder itself (go-mp3) is not modelled: a decoder
 * is the sequence of results its `Read` calls hand back, plus the sample
 * rate it reports. What is modelled is how those bytes become samples:
 * every pair of bytes of one read is a 16-bit signed little-endian
 * sample, scaled by 1/32768; an odd trailing byte of a read is dropped.
 */
module Mp3Pcm {
  import opened Wrappers

  /** A byte, as an integer in [0, 256). */
  type Byte = b: int | 0 <= b < 256

  /** Length of the byte buffer that is reused for every `decoder.Read`. */
  const ReadBufferSize := 4096

  /** Divisor that maps a 16-bit sample into [-1, 1). */
  const FullScale: real := 32768.0

  /** The error part of one `decoder.Read` call. */
  datatype ReadStatus = ReadOk | ReadEof | ReadFailed(reason: string)

  /** One `decoder.Read` call: the n bytes it wrote into the buffer, and its error. */
  datatype ReadStep = ReadStep(data: seq<Byte>, status: ReadStatus)

  /**
   * A decoder as the loop sees it. When `steps` runs out, the stream has
   * ended: the next read reports EOF.
   */
  datatype Decoder = Decoder(steps: seq<ReadStep>, sampleRate: int)

  /** The outcome of `mp3.NewDecoder`. */
  datatype DecoderOpen = DecoderFailed(reason: string) | DecoderReady(decoder: Decoder)

  datatype DecodeError =
    | CreateDecoderFailed(reason: string)  // "failed to create MP3 decoder"
    | ReadError(reason: string)            // "error reading MP3 data"
    | NoAudioData                          // "no audio data decoded"

  /** Decoded audio: normalised samples and the decoder's sample rate. */
  datatype Pcm = Pcm(samples: seq<real>, sampleRate: int)

  /** io.Reader's contract: a read never reports more bytes than the buffer holds. */
  predicate HonoursBuffer(d: Decoder)
  {
    forall i :: 0 <= i < |d.steps| ==> |d.steps[i].data| <= ReadBufferSize
  }

  // ---------------------------------------------------------------------
  // One sample

  /**
   * Go's conversion of an integer to int16: keep the low 16 bits and read
   * them as a two's-complement value.
   */
  function Int16(x: int): (v: int)
    ensures -32768 <= v <= 32767
    ensures (v - x) % 0x1_0000 == 0
  {
    var m := x % 0x1_0000;
    if m < 0x8000 then m else m - 0x1_0000
  }

  /**
   * The value of `int16(lo) | int16(hi)<<8`. The shift wraps around in
   * int16; its low eight bits are zero and `lo` has only those bits, so
   * the OR is a sum.
   */
  function SampleValue(lo: Byte, hi: Byte): (v: int)
    ensures -32768 <= v <= 32767
  {
    Int16(hi * 256) + lo
  }

  /** The float32 sample the loop appends for the byte pair (lo, hi). */
  function SampleOf(lo: Byte, hi: Byte): (x: real)
    ensures -1.0 <= x < 1.0
  {
    SampleValue(lo, hi) as real / FullScale
  }

  /** The sample value is the little-endian reading of the pair, high bit as sign. */
  lemma SampleValueLittleEndian(lo: Byte, hi: Byte)
    ensures SampleValue(lo, hi) == lo + 256 * hi - (if hi >= 128 then 0x1_0000 else 0)
  {
  }

  /** The two little-endian bytes of a 16-bit signed value: the inverse of SampleValue. */
  function EncodeSample(v: int): (pair: (Byte, Byte))
    requires -32768 <= v <= 32767
  {
    var u := if v < 0 then v + 0x1_0000 else v;
    (u % 256, u / 256)
  }

  /** Every 16-bit value survives encoding as two bytes and the loop's decoding. */
  lemma DecodeEncode(v: int)
    requires -32768 <= v <= 32767
    ensures SampleValue(EncodeSample(v).0, EncodeSample(v).1) == v
  {
    var (lo, hi) := EncodeSample(v);
    SampleValueLittleEndian(lo, hi);
  }

  /** Every byte pair is the encoding of the value the loop decodes from it. */
  lemma EncodeDecode(lo: Byte, hi: Byte)
    ensures EncodeSample(SampleValue(lo, hi)) == (lo, hi)
  {
    SampleValueLittleEndian(lo, hi);
  }

  // ---------------------------------------------------------------------
  // One chunk

  /** The samples one read of `data` contributes, pair by pair. */
  function ChunkSamples(data: seq<Byte>): seq<real>
    decreases |data|
  {
    if |data| < 2 then [] else [SampleOf(data[0], data[1])] + ChunkSamples(data[2..])
  }

  /** A chunk of n bytes yields floor(n/2) samples, the k-th made of bytes 2k and 2k+1. */
  lemma {:induction false} ChunkSamplesAt(data: seq<Byte>)
    ensures |ChunkSamples(data)| == |data| / 2
    ensures forall k :: 0 <= k < |data| / 2 ==> ChunkSamples(data)[k] == SampleOf(data[2 * k], data[2 * k + 1])
    decreases |data|
  {
    if |data| >= 2 {
      var rest := data[2..];
      ChunkSamplesAt(rest);
      forall k | 0 <= k < |data| / 2
        ensures ChunkSamples(data)[k] == SampleOf(data[2 * k], data[2 * k + 1])
      {
        if k > 0 {
          assert ChunkSamples(data)[k] == ChunkSamples(rest)[k - 1];
          assert rest[2 * (k - 1)] == data[2 * k];
        }
      }
    }
  }

  /** Two chunks with the same byte pairs give the same samples. */
  lemma ChunkSamplesByPairs(a: seq<Byte>, b: seq<Byte>)
    requires |a| / 2 == |b| / 2
    requires forall i :: 0 <= i < 2 * (|a| / 2) ==> a[i] == b[i]
    ensures ChunkSamples(a) == ChunkSamples(b)
  {
    ChunkSamplesAt(a);
    ChunkSamplesAt(b);
    forall k | 0 <= k < |a| / 2
      ensures ChunkSamples(a)[k] == ChunkSamples(b)[k]
    {
      assert a[2 * k] == b[2 * k] && a[2 * k + 1] == b[2 * k + 1];
    }
  }

  /** An odd trailing byte contributes nothing. */
  lemma OddTrailingByteDropped(data: seq<Byte>)
    requires |data| % 2 == 1
    ensures ChunkSamples(data) == ChunkSamples(data[..|data| - 1])
  {
    ChunkSamplesByPairs(data, data[..|data| - 1]);
  }

  /** Extending an even prefix by one byte pair appends exactly one sample. */
  lemma ChunkSamplesExtend(data: seq<Byte>, i: nat)
    requires i % 2 == 0 && i + 1 < |data|
    ensures ChunkSamples(data[..i + 2]) == ChunkSamples(data[..i]) + [SampleOf(data[i], data[i + 1])]
  {
    var longer, shorter := data[..i + 2], data[..i];
    ChunkSamplesAt(longer);
    ChunkSamplesAt(shorter);
    assert |ChunkSamples(longer)| == |ChunkSamples(shorter)| + 1;
    forall k | 0 <= k < |ChunkSamples(longer)|
      ensures ChunkSamples(longer)[k] == (ChunkSamples(shorter) + [SampleOf(data[i], data[i + 1])])[k]
    {
    }
  }

  // ---------------------------------------------------------------------
  // The read loop

  /** Prefixes already gathered samples to the outcome of the remaining reads. */
  function Prepend(gathered: seq<real>, rest: Result<seq<real>, DecodeError>): Result<seq<real>, DecodeError>
  {
    match rest
    case Ok(samples) => Ok(gathered + samples)
    case Err(e) => Err(e)
  }

  /** Proof step for the read loop: prepending no samples changes nothing. */
  lemma PrependNothing(rest: Result<seq<real>, DecodeError>)
    ensures Prepend([], rest) == rest
  {
    if rest.Ok? {
      assert [] + rest.value == rest.value;
    }
  }

  /** Proof step for the read loop: two prepends are one prepend of the concatenation. */
  lemma PrependTwice(a: seq<real>, b: seq<real>, rest: Result<seq<real>, DecodeError>)
    ensures Prepend(a, Prepend(b, rest)) == Prepend(a + b, rest)
  {
    if rest.Ok? {
      assert a + (b + rest.value) == (a + b) + rest.value;
    }
  }

  /**
   * What the read loop gathers from a sequence of reads: the samples of
   * every read before the first EOF, or the first read error. Bytes that
   * come back together with EOF or with an error are not used.
   */
  function Gather(steps: seq<ReadStep>): Result<seq<real>, DecodeError>
    decreases |steps|
  {
    if steps == [] then Ok([])
    else match steps[0].status
      case ReadEof => Ok([])
      case ReadFailed(reason) => Err(ReadError(reason))
      case ReadOk => Prepend(ChunkSamples(steps[0].data), Gather(steps[1..]))
  }

  /** mp3ToPCM: decoder creation, the read loop, and the empty-result check. */
  function Mp3ToPcm(open: DecoderOpen): (r: Result<Pcm, DecodeError>)
    ensures open.DecoderFailed? ==> r == Err(CreateDecoderFailed(open.reason))
    ensures r.Ok? ==> |r.value.samples| > 0 && r.value.sampleRate == open.decoder.sampleRate
    ensures r.Ok? ==> forall i :: 0 <= i < |r.value.samples| ==> -1.0 <= r.value.samples[i] < 1.0
  {
    match open
    case DecoderFailed(reason) => Err(CreateDecoderFailed(reason))
    case DecoderReady(d) =>
      GatherInRange(d.steps);
      match Gather(d.steps)
      case Err(e) => Err(e)
      case Ok(samples) =>
        if |samples| == 0 then Err(NoAudioData) else Ok(Pcm(samples, d.sampleRate))
  }

  /** Every gathered sample is in [-1, 1). */
  lemma {:induction false} GatherInRange(steps: seq<ReadStep>)
    ensures Gather(steps).Ok? ==> forall i :: 0 <= i < |Gather(steps).value| ==> -1.0 <= Gather(steps).value[i] < 1.0
    decreases |steps|
  {
    if steps != [] && steps[0].status == ReadOk {
      GatherInRange(steps[1..]);
      var c := ChunkSamples(steps[0].data);
      ChunkSamplesAt(steps[0].data);
      if Gather(steps[1..]).Ok? {
        var rest := Gather(steps[1..]).value;
        forall i | 0 <= i < |c + rest| ensures -1.0 <= (c + rest)[i] < 1.0 {
          if i < |c| {
            var d := steps[0].data;
            assert c[i] == SampleOf(d[2 * i], d[2 * i + 1]);
          } else {
            assert (c + rest)[i] == rest[i - |c|];
          }
        }
      }
    }
  }

  /** A read error stops the loop with that error, even after samples were gathered. */
  lemma {:induction false} ReadErrorAborts(steps: seq<ReadStep>, k: nat, reason: string)
    requires k < |steps| && steps[k].status == ReadFailed(reason)
    requires forall i :: 0 <= i < k ==> steps[i].status == ReadOk
    ensures Gather(steps) == Err(ReadError(reason))
    decreases k
  {
    if k > 0 {
      ReadErrorAborts(steps[1..], k - 1, reason);
    }
  }

  /** Nothing read at or after the first EOF contributes: not the bytes that came with it, not later reads. */
  lemma {:induction false} EofEndsStream(steps: seq<ReadStep>, k: nat)
    requires k < |steps| && steps[k].status == ReadEof
    requires forall i :: 0 <= i < k ==> steps[i].status == ReadOk
    ensures Gather(steps) == Gather(steps[..k])
    decreases k
  {
    if k > 0 {
      EofEndsStream(steps[1..], k - 1);
      assert steps[..k][1..] == steps[1..][..k - 1];
    }
  }

  /**
   * The trailing odd byte of a read is dropped, not carried into the next
   * read: two reads give the samples of the first one's complete pairs,
   * then the second one's. When both reads are odd, this is one sample
   * fewer than their bytes read as one chunk would give.
   */
  lemma OddByteNotCarried(a: seq<Byte>, b: seq<Byte>)
    requires |a| % 2 == 1
    ensures Gather([ReadStep(a, ReadOk), ReadStep(b, ReadOk)]) == Ok(ChunkSamples(a[..|a| - 1]) + ChunkSamples(b))
    ensures |b| % 2 == 1 ==>
              |Gather([ReadStep(a, ReadOk), ReadStep(b, ReadOk)]).value| + 1 == |ChunkSamples(a + b)|
  {
    var steps := [ReadStep(a, ReadOk), ReadStep(b, ReadOk)];
    assert steps[1..] == [ReadStep(b, ReadOk)];
    assert steps[1..][1..] == [];
    assert Gather(steps[1..]) == Ok(ChunkSamples(b) + []);
    assert ChunkSamples(b) + [] == ChunkSamples(b);
    OddTrailingByteDropped(a);
    ChunkSamplesAt(a);
    ChunkSamplesAt(b);
    ChunkSamplesAt(a + b);
  }

  /**
   * mp3ToPCM's loop. Each read fills the reused 4096-byte buffer; the
   * inner loop turns every complete byte pair of the read into a sample.
   */
  method DecodeToPcm(open: DecoderOpen) returns (r: Result<Pcm, DecodeError>)
    requires open.DecoderReady? ==> HonoursBuffer(open.decoder)
    ensures r == Mp3ToPcm(open)
  {
    if open.DecoderFailed? {
      return Err(CreateDecoderFailed(open.reason));
    }
    var d := open.decoder;
    var pcm: seq<real> := [];
    var buffer := new Byte[ReadBufferSize];
    var k := 0;
    assert d.steps[0..] == d.steps;
    PrependNothing(Gather(d.steps));
    while k < |d.steps|
      invariant 0 <= k <= |d.steps|
      invariant Gather(d.steps) == Prepend(pcm, Gather(d.steps[k..]))
    {
      // n, err := decoder.Read(buffer)
      var step := d.steps[k];
      var n := |step.data|;
      forall j | 0 <= j < n {
        buffer[j] := step.data[j];
      }
      assert d.steps[k..][0] == step && d.steps[k..][1..] == d.steps[k + 1..];
      if step.status == ReadEof {
        assert pcm + [] == pcm;
        break;
      }
      if step.status.ReadFailed? {
        return Err(ReadError(step.status.reason));
      }
      ghost var before := pcm;
      var i := 0;
      while i < n
        invariant 0 <= i <= n && i % 2 == 0
        invariant pcm == before + ChunkSamples(step.data[..i])
        invariant forall j :: 0 <= j < n ==> buffer[j] == step.data[j]
      {
        if i + 1 >= n {
          break;
        }
        ChunkSamplesExtend(step.data, i);
        pcm := pcm + [SampleOf(buffer[i], buffer[i + 1])];
        i := i + 2;
      }
      if i < n {
        OddTrailingByteDropped(step.data);
        assert step.data[..n - 1] == step.data[..i];
      }
      assert step.data[..n] == step.data;
      assert pcm == before + ChunkSamples(step.data);
      assert Gather(d.steps[k..]) == Prepend(ChunkSamples(step.data), Gather(d.steps[k + 1..]));
      PrependTwice(before, ChunkSamples(step.data), Gather(d.steps[k + 1..]));
      k := k + 1;
    }
    assert Gather(d.steps) == Ok(pcm) by {
      assert pcm + [] == pcm;
      if k == |d.steps| {
        assert d.steps[k..] == [];
      }
    }
    if |pcm| == 0 {
      return Err(NoAudioData);
    }
    return Ok(Pcm(pcm, d.sampleRate));
  }
}
