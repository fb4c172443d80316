/** Values shared by the demux and the remux pipelines of mp4-utils.ts:
    samples as the container library reports and receives them, and the
    encoded chunks exchanged with the platform codecs. */
module Media {

  newtype byte = x: int | 0 <= x < 256

  type Bytes = seq<byte>

  datatype Option<+T> = None | Some(value: T)

  datatype Result<+T, +E> = Ok(value: T) | Err(error: E)

  /** One MP4 sample (MP4Sample): payload, decode and composition time,
      duration, the sync (keyframe) flag and the track's timescale.
      Timestamps and duration are in units of `timescale`. */
  datatype Sample = Sample(data: Bytes, dts: int, cts: int, duration: int, isSync: bool, timescale: nat)

  datatype ChunkType = Key | Delta

  /** An encoded chunk as handed to a platform decoder or received from a
      platform encoder; `duration` is absent when the encoder leaves it out. */
  datatype Chunk = Chunk(kind: ChunkType, timestamp: int, duration: Option<int>, data: Bytes)

  /** Both tracks the remux pipeline creates count time in microseconds. */
  const EncodedTimescale: nat := 1_000_000

  /** The chunk `seek` builds from a buffered sample: 'key' exactly for a
      sync sample, stamped with the composition time. */
  function DecodeChunk(s: Sample): (c: Chunk)
    ensures c.kind == Key <==> s.isSync
    ensures c.timestamp == s.cts && c.duration == Some(s.duration) && c.data == s.data
  {
    Chunk(if s.isSync then Key else Delta, s.cts, Some(s.duration), s.data)
  }

  /** The sample an encoder output chunk becomes in the written container:
      cts = dts = the chunk's timestamp, a missing duration written as 0. */
  function EncodedSample(c: Chunk): (s: Sample)
    ensures s.isSync <==> c.kind == Key
    ensures s.dts == s.cts == c.timestamp && s.timescale == EncodedTimescale
    ensures c.duration.Some? ==> DecodeChunk(s) == c
    ensures c.duration.None? ==> s.duration == 0
  {
    var duration := match c.duration case Some(d) => d case None => 0;
    Sample(c.data, c.timestamp, c.timestamp, duration, c.kind == Key, EncodedTimescale)
  }

  /** Writing a chunk as a sample and reading it back for decoding gives the
      chunk again, when the encoder reported its duration. */
  lemma ChunkRoundTrip(c: Chunk)
    requires c.duration.Some?
    ensures DecodeChunk(EncodedSample(c)) == c
  {
  }

  /** A chunk whose duration the encoder left out reads back with duration 0
      and is otherwise unchanged. */
  lemma ChunkRoundTripNoDuration(c: Chunk)
    requires c.duration.None?
    ensures DecodeChunk(EncodedSample(c)) == c.(duration := Some(0))
  {
  }

  /** A sample the remux pipeline wrote (cts = dts, microsecond timescale)
      survives a trip through the decoder chunk unchanged. */
  lemma SampleRoundTrip(s: Sample)
    requires s.dts == s.cts && s.timescale == EncodedTimescale
    ensures EncodedSample(DecodeChunk(s)) == s
  {
  }

  /** The chunks for a run of samples, one per sample, in order. */
  function DecodeChunks(ss: seq<Sample>): (cs: seq<Chunk>)
    ensures |cs| == |ss|
    ensures forall k :: 0 <= k < |ss| ==> cs[k] == DecodeChunk(ss[k])
  {
    if |ss| == 0 then [] else DecodeChunks(ss[..|ss| - 1]) + [DecodeChunk(ss[|ss| - 1])]
  }

  /** Sum of the sample durations, folded from the left as the source's
      `reduce` does. */
  function SumDurations(ss: seq<Sample>): (total: int)
    ensures |ss| == 0 ==> total == 0
    ensures (forall k :: 0 <= k < |ss| ==> ss[k].duration >= 0) ==> total >= 0
    ensures (forall k :: 0 <= k < |ss| ==> ss[k].duration >= 0) ==> forall k :: 0 <= k < |ss| ==> ss[k].duration <= total
  {
    if |ss| == 0 then 0 else SumDurations(ss[..|ss| - 1]) + ss[|ss| - 1].duration
  }

  /** The duration sum is additive over appended batches, so the corrected
      duration after a new batch is the old one plus the batch's durations. */
  lemma {:induction false} SumDurationsAppend(a: seq<Sample>, b: seq<Sample>)
    ensures SumDurations(a + b) == SumDurations(a) + SumDurations(b)
    decreases |b|
  {
    if |b| == 0 {
      assert a + b == a;
    } else {
      assert (a + b)[..|a + b| - 1] == a + b[..|b| - 1];
      SumDurationsAppend(a, b[..|b| - 1]);
    }
  }

  /** n samples of equal duration d sum to n * d. */
  lemma {:induction false} SumDurationsConstant(ss: seq<Sample>, d: int)
    requires forall k :: 0 <= k < |ss| ==> ss[k].duration == d
    ensures SumDurations(ss) == |ss| * d
    decreases |ss|
  {
    if |ss| > 0 {
      SumDurationsConstant(ss[..|ss| - 1], d);
      assert SumDurations(ss) == (|ss| - 1) * d + d;
    }
  }
}
