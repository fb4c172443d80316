/** recodemux, encodeVideoTrack and encodeAudioTrack: the encode/remux
    pipeline. The two platform encoders, the container writer and the
    progress poll are the environment. An encoder is modelled as the ordered
    log of what was submitted to it plus the number of chunks it has output,
    so that its queue depth is the difference; the container writer is a
    value holding its track list and each track's sample list. */
module Remux {
  import opened Media

  datatype AudioCodec = Opus | Aac

  /** IWorkerOpts. */
  datatype VideoOpts = VideoOpts(width: nat, height: nat, expectFps: nat)
  datatype AudioOpts = AudioOpts(codec: AudioCodec, sampleRate: nat, sampleSize: nat, channelCount: nat)
  datatype WorkerOpts = WorkerOpts(video: VideoOpts, audio: AudioOpts, bitrate: nat)

  /** Opaque handles for the raw frames handed to the pipeline. */
  datatype VideoFrame = VideoFrame(id: nat)
  datatype AudioData = AudioData(id: nat)

  /** The options of one `encode` call (VideoEncoderEncodeOptions). */
  datatype EncodeOptions = EncodeOptions(keyFrame: bool)
  datatype VideoSubmission = VideoSubmission(frame: VideoFrame, options: Option<EncodeOptions>)

  /** The metadata an encoder output may carry: `meta.decoderConfig?.description`. */
  datatype DecoderConfig = DecoderConfig(description: Option<Bytes>)
  datatype ChunkMeta = ChunkMeta(decoderConfig: Option<DecoderConfig>)

  function ConfigRecord(meta: ChunkMeta): Option<Bytes>
  {
    match meta.decoderConfig
    case None => None
    case Some(dc) => dc.description
  }

  /** The options of the two addTrack calls. */
  datatype TrackOpts =
    | VideoTrackOpts(timescale: nat, width: nat, height: nat, brands: seq<string>,
                     avcDecoderConfigRecord: Option<Bytes>)
    | AudioTrackOpts(timescale: nat, samplerate: nat, channelCount: nat, samplesize: nat,
                     hdlr: string, name: string, sampleType: string)

  const Brands: seq<string> := ["isom", "iso2", "avc1", "mp42", "mp41"]

  function VideoTrackOptsFor(v: VideoOpts, record: Option<Bytes>): TrackOpts
  {
    VideoTrackOpts(EncodedTimescale, v.width, v.height, Brands, record)
  }

  function AudioTrackOptsFor(a: AudioOpts): TrackOpts
  {
    AudioTrackOpts(EncodedTimescale, a.sampleRate, a.channelCount, a.sampleSize,
                   "soun", "SoundHandler", if a.codec == Aac then "mp4a" else "Opus")
  }

  /** The container writer as this pipeline sees it: tracks in creation
      order (track id k + 1 for tracks[k]) and the samples of each track. */
  datatype Container = Container(tracks: seq<TrackOpts>, samples: seq<seq<Sample>>)

  /** addTrack: the new track gets the next id. */
  function AddTrack(c: Container, t: TrackOpts): (r: (Container, nat))
    requires |c.tracks| == |c.samples|
    ensures |r.0.tracks| == |r.0.samples| == |c.tracks| + 1
    ensures 1 <= r.1 <= |r.0.tracks| && r.0.tracks[r.1 - 1] == t && r.0.samples[r.1 - 1] == []
    ensures forall k :: 0 <= k < |c.tracks| ==> r.0.tracks[k] == c.tracks[k] && r.1 != k + 1
    ensures forall k :: 0 <= k < |c.samples| ==> r.0.samples[k] == c.samples[k]
  {
    (Container(c.tracks + [t], c.samples + [[]]), |c.tracks| + 1)
  }

  /** addSample: appends to the track with that id; a sample for an id that
      names no track (an unset id) is ignored. */
  function AddSample(c: Container, id: Option<nat>, s: Sample): (r: Container)
    requires |c.tracks| == |c.samples|
    ensures r.tracks == c.tracks && |r.samples| == |c.samples|
    ensures forall k :: 0 <= k < |c.samples| ==>
      r.samples[k] == if id == Some(k + 1) then c.samples[k] + [s] else c.samples[k]
  {
    if id.Some? && 1 <= id.value <= |c.samples| then
      Container(c.tracks, c.samples[id.value - 1 := c.samples[id.value - 1] + [s]])
    else c
  }

  class Recodemux {
    const opts: WorkerOpts
    /** mp4file */
    var file: Container
    /** vTrackId, set once by the first video output carrying metadata. */
    var videoTrackId: Option<nat>
    /** The audio track's id; present exactly when aEncoder exists. */
    var audioTrackId: Option<nat>
    /** audioDataCache: audio submitted before the audio encoder exists. */
    var audioDataCache: seq<AudioData>
    /** The video encoder: every submission, and how many chunks it has output. */
    var videoFed: seq<VideoSubmission>
    var videoEncoded: nat
    /** The audio encoder, likewise. */
    var audioFed: seq<AudioData>
    var audioEncoded: nat
    /** High-water mark of the video encoder's queue. */
    var maxSize: nat
    var started: bool
    /** Whether the progress poll (endCheckTimer) is running. */
    var endCheckTimerActive: bool
    var progress: real
    /** How many times onEnded has been called. */
    var endedCount: nat
    /** Every audio frame handed to encodeAudio, in order. */
    ghost var audioSubmitted: seq<AudioData>

    function VideoQueueSize(): nat
      reads this
      requires videoEncoded <= |videoFed|
    {
      |videoFed| - videoEncoded
    }

    /** Before the first video output with metadata: no tracks, no audio
        encoder, so nothing has reached audio encoding. */
    ghost predicate NoTracks()
      reads this
    {
      && videoTrackId.None? && audioTrackId.None?
      && file.tracks == [] && file.samples == []
      && audioFed == [] && audioEncoded == 0
    }

    /** After it: the video track (id 1) and then the audio track (id 2), the
        backlog gone, one audio sample per audio output. */
    ghost predicate BothTracks()
      reads this
    {
      && videoTrackId == Some(1) && audioTrackId == Some(2)
      && |file.tracks| == 2 && |file.samples| == 2
      && file.tracks[0].VideoTrackOpts? && file.tracks[1] == AudioTrackOptsFor(opts.audio)
      && |file.samples[0]| <= videoEncoded
      && |file.samples[1]| == audioEncoded
      && audioDataCache == []
      && videoEncoded > 0
    }

    ghost predicate Valid()
      reads this
    {
      && |file.tracks| == |file.samples|
      && videoEncoded <= |videoFed|
      && VideoQueueSize() <= maxSize
      && (|videoFed| > 0 ==> maxSize > 0)
      && (started ==> maxSize > 0)
      && (endCheckTimerActive ==> started)
      && endedCount <= 1
      && (endedCount == 1 ==> started && !endCheckTimerActive)
      && 0.0 <= progress <= 1.0
      && (progress == 1.0 ==> endedCount == 1)
      && audioFed + audioDataCache == audioSubmitted
      && (NoTracks() || BothTracks())
    }

    constructor (o: WorkerOpts)
      ensures Valid() && NoTracks()
      ensures opts == o && videoFed == [] && audioDataCache == [] && audioSubmitted == []
      ensures maxSize == 0 && !started && !endCheckTimerActive && progress == 0.0
      ensures endedCount == 0
    {
      opts := o;
      file := Container([], []);
      videoTrackId, audioTrackId := None, None;
      audioDataCache := [];
      videoFed, videoEncoded, audioFed, audioEncoded := [], 0, [], 0;
      maxSize, started, endCheckTimerActive, progress := 0, false, false, 0.0;
      endedCount := 0;
      audioSubmitted := [];
    }

    /** checkEnded: the first call starts the progress poll; later calls do
        nothing. */
    method CheckEnded()
      requires Valid() && |videoFed| > 0
      modifies this
      ensures Valid()
      ensures started
      ensures endCheckTimerActive == (old(endCheckTimerActive) || !old(started))
      ensures file == old(file) && videoTrackId == old(videoTrackId) && audioTrackId == old(audioTrackId)
      ensures audioDataCache == old(audioDataCache) && audioSubmitted == old(audioSubmitted)
      ensures videoFed == old(videoFed) && videoEncoded == old(videoEncoded)
      ensures audioFed == old(audioFed) && audioEncoded == old(audioEncoded)
      ensures maxSize == old(maxSize) && progress == old(progress)
      ensures endedCount == old(endedCount)
    {
      if started {
        return;
      }
      started := true;
      endCheckTimerActive := true;
    }

    /** encodeVideo: submit to the video encoder at once, raise the
        high-water mark to the new queue size, then checkEnded. */
    method EncodeVideo(frame: VideoFrame, options: Option<EncodeOptions>)
      requires Valid()
      modifies this
      ensures Valid()
      ensures videoFed == old(videoFed) + [VideoSubmission(frame, options)]
      ensures maxSize == if VideoQueueSize() > old(maxSize) then VideoQueueSize() else old(maxSize)
      ensures started && endCheckTimerActive == (old(endCheckTimerActive) || !old(started))
      ensures file == old(file) && videoTrackId == old(videoTrackId) && audioTrackId == old(audioTrackId)
      ensures audioDataCache == old(audioDataCache) && audioSubmitted == old(audioSubmitted)
      ensures videoEncoded == old(videoEncoded)
      ensures audioFed == old(audioFed) && audioEncoded == old(audioEncoded)
      ensures progress == old(progress) && endedCount == old(endedCount)
    {
      videoFed := videoFed + [VideoSubmission(frame, options)];
      if VideoQueueSize() > maxSize {
        maxSize := VideoQueueSize();
      }
      CheckEnded();
    }

    /** encodeAudio: without an audio encoder the frame joins the backlog and
        nothing is encoded; with one it is encoded at once and checkEnded runs. */
    method EncodeAudio(ad: AudioData)
      requires Valid()
      modifies this
      ensures Valid()
      ensures audioSubmitted == old(audioSubmitted) + [ad]
      ensures old(audioTrackId).None? ==>
        audioDataCache == old(audioDataCache) + [ad] && audioFed == old(audioFed) == []
        && started == old(started) && endCheckTimerActive == old(endCheckTimerActive)
      ensures old(audioTrackId).Some? ==>
        audioFed == old(audioFed) + [ad] && audioDataCache == [] && started
        && endCheckTimerActive == (old(endCheckTimerActive) || !old(started))
      ensures file == old(file) && videoTrackId == old(videoTrackId) && audioTrackId == old(audioTrackId)
      ensures videoFed == old(videoFed) && videoEncoded == old(videoEncoded) && audioEncoded == old(audioEncoded)
      ensures maxSize == old(maxSize) && progress == old(progress)
      ensures endedCount == old(endedCount)
    {
      audioSubmitted := audioSubmitted + [ad];
      if audioTrackId.None? {
        audioDataCache := audioDataCache + [ad];
      } else {
        audioFed := audioFed + [ad];
        CheckEnded();
      }
    }

    /** onTrackReady, with encodeAudioTrack: add the audio track, then hand
        the whole backlog to the new audio encoder in submission order and
        empty it. */
    method StartAudioTrack()
      requires videoTrackId == Some(1) && audioTrackId.None?
      requires |file.tracks| == 1 && |file.samples| == 1 && file.tracks[0].VideoTrackOpts?
      requires audioFed == []
      modifies this
      ensures audioTrackId == Some(2)
      ensures file.tracks == old(file.tracks) + [AudioTrackOptsFor(opts.audio)]
      ensures file.samples == old(file.samples) + [[]]
      ensures audioFed == old(audioDataCache) && audioDataCache == []
      ensures videoTrackId == old(videoTrackId) && audioSubmitted == old(audioSubmitted)
      ensures videoFed == old(videoFed) && videoEncoded == old(videoEncoded) && audioEncoded == old(audioEncoded)
      ensures maxSize == old(maxSize) && started == old(started)
      ensures endCheckTimerActive == old(endCheckTimerActive) && progress == old(progress)
      ensures endedCount == old(endedCount)
    {
      var added := AddTrack(file, AudioTrackOptsFor(opts.audio));
      file := added.0;
      audioTrackId := Some(added.1);
      var backlog := audioDataCache;
      var fed := audioFed;
      for i := 0 to |backlog|
        invariant fed == backlog[..i]
      {
        fed := fed + [backlog[i]];
      }
      assert backlog[..|backlog|] == backlog;
      audioFed := fed;
      audioDataCache := [];
    }

    /** The video encoder outputs a chunk for its oldest submission. The first
        output carrying metadata registers the video track and, right after,
        the audio track (flushing the backlog); every output then becomes one
        sample of the video track (dropped while no video track exists). */
    method OnVideoOutput(chunk: Chunk, meta: Option<ChunkMeta>)
      requires Valid() && videoEncoded < |videoFed|
      modifies this
      ensures Valid()
      ensures videoEncoded == old(videoEncoded) + 1
      ensures old(videoTrackId).None? && meta.Some? ==>
        && videoTrackId == Some(1) && audioTrackId == Some(2)
        && file.tracks == [VideoTrackOptsFor(opts.video, ConfigRecord(meta.value)), AudioTrackOptsFor(opts.audio)]
        && file.samples == [[EncodedSample(chunk)], []]
        && audioFed == old(audioDataCache) && audioDataCache == []
      ensures old(videoTrackId).None? && meta.None? ==>
        && videoTrackId.None? && audioTrackId.None? && file == old(file)
        && audioFed == old(audioFed) && audioDataCache == old(audioDataCache)
      ensures old(videoTrackId).Some? ==>
        && videoTrackId == old(videoTrackId) && audioTrackId == old(audioTrackId)
        && file.tracks == old(file.tracks)
        && file.samples == old(file.samples)[0 := old(file.samples)[0] + [EncodedSample(chunk)]]
        && audioFed == old(audioFed) && audioDataCache == old(audioDataCache)
      ensures audioSubmitted == old(audioSubmitted) && videoFed == old(videoFed) && audioEncoded == old(audioEncoded)
      ensures maxSize == old(maxSize) && started == old(started)
      ensures endCheckTimerActive == old(endCheckTimerActive) && progress == old(progress)
      ensures endedCount == old(endedCount)
    {
      videoEncoded := videoEncoded + 1;
      if videoTrackId.None? && meta.Some? {
        var added := AddTrack(file, VideoTrackOptsFor(opts.video, ConfigRecord(meta.value)));
        file := added.0;
        videoTrackId := Some(added.1);
        StartAudioTrack();
        assert file.samples == [[], []];
        file := AddSample(file, videoTrackId, EncodedSample(chunk));
        assert file.samples[0] == [EncodedSample(chunk)] && file.samples[1] == [];
      } else {
        file := AddSample(file, videoTrackId, EncodedSample(chunk));
      }
    }

    /** The audio encoder outputs a chunk: one sample of the audio track. */
    method OnAudioOutput(chunk: Chunk)
      requires Valid() && audioTrackId.Some? && |audioFed| > 0
      modifies this
      ensures Valid()
      ensures audioEncoded == old(audioEncoded) + 1
      ensures file.tracks == old(file.tracks)
      ensures file.samples == old(file.samples)[1 := old(file.samples)[1] + [EncodedSample(chunk)]]
      ensures videoTrackId == old(videoTrackId) && audioTrackId == old(audioTrackId)
      ensures audioDataCache == old(audioDataCache) && audioSubmitted == old(audioSubmitted)
      ensures videoFed == old(videoFed) && videoEncoded == old(videoEncoded) && audioFed == old(audioFed)
      ensures maxSize == old(maxSize) && started == old(started)
      ensures endCheckTimerActive == old(endCheckTimerActive) && progress == old(progress)
      ensures endedCount == old(endedCount)
    {
      audioEncoded := audioEncoded + 1;
      file := AddSample(file, audioTrackId, EncodedSample(chunk));
    }

    /** One tick of the progress poll: progress is recomputed from the queue
        size and the high-water mark; an empty queue stops the poll and calls
        onEnded. */
    method OnProgressTick()
      requires Valid() && endCheckTimerActive
      modifies this
      ensures Valid()
      ensures maxSize > 0 && progress == 1.0 - VideoQueueSize() as real / maxSize as real
      ensures progress == 1.0 <==> VideoQueueSize() == 0
      ensures endCheckTimerActive == (VideoQueueSize() != 0)
      ensures endedCount == old(endedCount) + (if VideoQueueSize() == 0 then 1 else 0)
      ensures file == old(file) && videoTrackId == old(videoTrackId) && audioTrackId == old(audioTrackId)
      ensures audioDataCache == old(audioDataCache) && audioSubmitted == old(audioSubmitted)
      ensures videoFed == old(videoFed) && videoEncoded == old(videoEncoded)
      ensures audioFed == old(audioFed) && audioEncoded == old(audioEncoded)
      ensures maxSize == old(maxSize) && started == old(started)
    {
      var q := VideoQueueSize();
      ProgressRatioBounds(q, maxSize);
      progress := 1.0 - q as real / maxSize as real;
      if q == 0 {
        endCheckTimerActive := false;
        endedCount := endedCount + 1;
      }
    }

    /** close: stops the progress poll. (Flushing and closing the encoders
        are asynchronous platform calls.) */
    method Close()
      requires Valid()
      modifies this
      ensures Valid()
      ensures !endCheckTimerActive
      ensures file == old(file) && videoTrackId == old(videoTrackId) && audioTrackId == old(audioTrackId)
      ensures audioDataCache == old(audioDataCache) && audioSubmitted == old(audioSubmitted)
      ensures videoFed == old(videoFed) && videoEncoded == old(videoEncoded)
      ensures audioFed == old(audioFed) && audioEncoded == old(audioEncoded)
      ensures maxSize == old(maxSize) && started == old(started)
      ensures progress == old(progress) && endedCount == old(endedCount)
    {
      endCheckTimerActive := false;
    }
  }

  /** With the queue size never above the high-water mark, the progress
      ratio stays in [0, 1] and reaches 1 exactly on an empty queue. */
  lemma ProgressRatioBounds(q: nat, maxSize: nat)
    requires 0 < maxSize && q <= maxSize
    ensures 0.0 <= 1.0 - q as real / maxSize as real <= 1.0
    ensures 1.0 - q as real / maxSize as real == 1.0 <==> q == 0
  {
    var ratio := q as real / maxSize as real;
    assert ratio * maxSize as real == q as real;
  }
}
