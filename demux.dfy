/** demuxcode: the demux/decode pipeline. The container parser, the two
    platform decoders and the two debounce timers are the environment; each
    of their callbacks is a method of `Demuxer`, and a decoder is modelled
    as the ordered log of chunks fed to it plus the number it has decoded,
    so that its queue depth is the difference. */
module Demux {
  import opened Media
  import opened KeyframeLocator

  /** The part of a parsed track the pipeline reads (MP4VideoTrack / MP4AudioTrack). */
  datatype TrackInfo = TrackInfo(id: nat, timescale: nat)

  /** The container header the parser reports (MP4Info). */
  datatype FileInfo = FileInfo(duration: int, videoTracks: seq<TrackInfo>, audioTracks: seq<TrackInfo>)

  /** The `type` argument of the parser's onSamples callback. */
  datatype SampleType = VideoType | AudioType | OtherType

  /** What the pipeline reports through its callbacks, in order. */
  datatype Event = Ready(info: FileInfo) | VideoFrame(chunk: Chunk) | AudioFrame(chunk: Chunk) | Complete

  /** `Array.prototype.slice(start)` for one argument: a negative start counts
      back from the end. */
  function JsSlice<T>(s: seq<T>, start: int): seq<T>
  {
    if start >= |s| then []
    else if start >= 0 then s[start..]
    else if |s| + start <= 0 then s
    else s[|s| + start..]
  }

  /** The chunks seek feeds one decoder: those of `samples.slice(startIdx)`,
      or the locator's error. */
  function SeekChunks(samples: seq<Sample>, target: real): Result<seq<Chunk>, LocateError>
  {
    match StartIndex(samples, target)
    case Err(e) => Err(e)
    case Ok(i) => Ok(DecodeChunks(JsSlice(samples, i)))
  }

  /** Seek on one track: nothing when the track is absent or disabled, else
      the chunks for the target `time * timescale`. */
  function TrackSeek(samples: seq<Sample>, track: Option<TrackInfo>, enabled: bool, time: real)
    : Result<seq<Chunk>, LocateError>
  {
    if enabled && track.Some? then SeekChunks(samples, time * track.value.timescale as real) else Ok([])
  }

  /** Seek fails exactly when no buffered sample reaches the target. */
  lemma SeekFailsIff(samples: seq<Sample>, target: real)
    ensures SeekChunks(samples, target).Err?
        <==> forall j :: 0 <= j < |samples| ==> samples[j].cts as real < target
  {
    NotFoundIff(samples, target);
  }

  /** Whenever the locator returns a start index i >= 0, seek resubmits
      exactly samples[i..], in order, one chunk per sample, 'key' exactly for
      sync samples; i is sync or 0, and the suffix reaches the target sample. */
  lemma SeekResubmitsSuffix(samples: seq<Sample>, target: real, e: nat, i: int)
    requires FirstAtOrAfter(samples, target) == Some(e)
    requires StartIndex(samples, target) == Ok(i) && i >= 0
    ensures i <= e && (i == 0 || samples[i].isSync)
    ensures SeekChunks(samples, target).Ok?
    ensures |SeekChunks(samples, target).value| == |samples| - i
    ensures forall k :: 0 <= k < |samples| - i ==> SeekChunks(samples, target).value[k] == DecodeChunk(samples[i + k])
    ensures forall k :: 0 <= k < |samples| - i ==> (SeekChunks(samples, target).value[k].kind == Key <==> samples[i + k].isSync)
  {
    if !samples[e].isSync && e >= 1 {
      NonSyncTargetScansBack(samples, target, e);
    }
    var suffix := samples[i..];
    assert JsSlice(samples, i) == suffix;
    var cs := DecodeChunks(suffix);
    assert SeekChunks(samples, target) == Ok(cs);
    forall k | 0 <= k < |cs|
      ensures cs[k] == DecodeChunk(samples[i + k])
    {
      assert suffix[k] == samples[i + k];
    }
  }

  /** The -1 the locator gives for a non-sync first target makes
      `slice(-1)` resubmit only the last buffered sample. */
  lemma SeekFromNonSyncFirstSample(samples: seq<Sample>, target: real)
    requires FirstAtOrAfter(samples, target) == Some(0) && !samples[0].isSync
    ensures SeekChunks(samples, target) == Ok([DecodeChunk(samples[|samples| - 1])])
  {
    NonSyncFirstGivesMinusOne(samples, target);
    var last := samples[|samples| - 1];
    assert JsSlice(samples, -1) == [last];
    assert DecodeChunks([last]) == [DecodeChunk(last)];
  }

  /** The samples-fed-to-decoder loop of seek (`samples.forEach(s => decoder.decode(...))`). */
  method Resubmit(fed: seq<Chunk>, samples: seq<Sample>, startIdx: int) returns (fed': seq<Chunk>)
    ensures fed' == fed + DecodeChunks(JsSlice(samples, startIdx))
  {
    var suffix := JsSlice(samples, startIdx);
    fed' := fed;
    var i := 0;
    while i < |suffix|
      invariant 0 <= i <= |suffix|
      invariant fed' == fed + DecodeChunks(suffix[..i])
    {
      assert suffix[..i + 1][..i] == suffix[..i];
      fed' := fed' + [DecodeChunk(suffix[i])];
      i := i + 1;
    }
    assert suffix[..i] == suffix;
  }

  /** One track's block of seek: when the track is present (and, for audio,
      enabled) locate the start index, throwing its error, and feed every
      sample from there on to the track's decoder, whose input log is `fed`. */
  method SeekTrack(fed: seq<Chunk>, samples: seq<Sample>, track: Option<TrackInfo>, enabled: bool, time: real)
    returns (r: Result<seq<Chunk>, LocateError>)
    ensures TrackSeek(samples, track, enabled, time).Err? ==> r == Err(TrackSeek(samples, track, enabled, time).error)
    ensures TrackSeek(samples, track, enabled, time).Ok? ==> r == Ok(fed + TrackSeek(samples, track, enabled, time).value)
  {
    if !(enabled && track.Some?) {
      assert TrackSeek(samples, track, enabled, time) == Ok([]);
      assert fed + [] == fed;
      return Ok(fed);
    }
    var target := time * track.value.timescale as real;
    assert TrackSeek(samples, track, enabled, time) == SeekChunks(samples, target);
    var startIdx := FindStartSampleIdx(samples, target);
    if startIdx.Err? {
      return Err(startIdx.error);
    }
    var fed' := Resubmit(fed, samples, startIdx.value);
    assert SeekChunks(samples, target) == Ok(DecodeChunks(JsSlice(samples, startIdx.value)));
    return Ok(fed');
  }

  /** The chunks reported as decoded video frames, in order. */
  function VideoFrames(events: seq<Event>): seq<Chunk>
  {
    if |events| == 0 then []
    else
      var last := events[|events| - 1];
      VideoFrames(events[..|events| - 1]) + (if last.VideoFrame? then [last.chunk] else [])
  }

  /** The chunks reported as decoded audio frames, in order. */
  function AudioFrames(events: seq<Event>): seq<Chunk>
  {
    if |events| == 0 then []
    else
      var last := events[|events| - 1];
      AudioFrames(events[..|events| - 1]) + (if last.AudioFrame? then [last.chunk] else [])
  }

  /** Every Complete in the log comes after at least one decoded frame. */
  ghost predicate CompleteAfterFrames(events: seq<Event>)
  {
    forall k :: 0 <= k < |events| && events[k].Complete? ==> |VideoFrames(events[..k])| + |AudioFrames(events[..k])| > 0
  }

  /** Appending to the log keeps the rule for the entries already there. */
  lemma CompleteAfterFramesAppend(events: seq<Event>, x: Event)
    requires CompleteAfterFrames(events)
    requires x.Complete? ==> |VideoFrames(events)| + |AudioFrames(events)| > 0
    ensures CompleteAfterFrames(events + [x])
  {
    var ev := events + [x];
    forall k | 0 <= k < |ev| && ev[k].Complete?
      ensures |VideoFrames(ev[..k])| + |AudioFrames(ev[..k])| > 0
    {
      if k < |events| {
        assert ev[..k] == events[..k];
      } else {
        assert ev[..k] == events;
      }
    }
  }

  class Demuxer {
    /** opts.audio */
    const audioEnabled: bool
    /** mp4Info, vTrackInfo, aTrackInfo */
    var info: Option<FileInfo>
    var videoTrack: Option<TrackInfo>
    var audioTrack: Option<TrackInfo>
    /** totalVideoSamples, totalAudioSamples */
    var videoSamples: seq<Sample>
    var audioSamples: seq<Sample>
    /** The video decoder: every chunk fed to it, and how many it has output. */
    var videoFed: seq<Chunk>
    var videoDecoded: nat
    /** The audio decoder, likewise. */
    var audioFed: seq<Chunk>
    var audioDecoded: nat
    /** Whether the resetReady / resetEndTimer debounce timers are pending. */
    var readyTimerArmed: bool
    var endTimerArmed: bool
    var stopResetEndTimer: bool
    /** Everything reported through cbs, in order. */
    var events: seq<Event>

    ghost predicate Valid()
      reads this
    {
      && videoDecoded <= |videoFed|
      && audioDecoded <= |audioFed|
      && VideoFrames(events) == videoFed[..videoDecoded]
      && AudioFrames(events) == audioFed[..audioDecoded]
      && (endTimerArmed ==> videoDecoded + audioDecoded > 0)
      && CompleteAfterFrames(events)
    }

    /** decodeQueueSize of the two decoders (getDecodeQueueSize). */
    function DecodeQueueSize(): (sizes: (nat, nat))
      reads this
      requires Valid()
      ensures sizes.0 <= |videoFed| && sizes.1 <= |audioFed|
      ensures sizes == (0, 0) <==> videoDecoded == |videoFed| && audioDecoded == |audioFed|
    {
      (|videoFed| - videoDecoded, |audioFed| - audioDecoded)
    }

    constructor (audio: bool)
      ensures Valid()
      ensures audioEnabled == audio
      ensures info.None? && videoTrack.None? && audioTrack.None?
      ensures videoSamples == [] && audioSamples == [] && videoFed == [] && audioFed == []
      ensures !readyTimerArmed && !endTimerArmed && !stopResetEndTimer && events == []
    {
      audioEnabled := audio;
      info, videoTrack, audioTrack := None, None, None;
      videoSamples, audioSamples := [], [];
      videoFed, videoDecoded, audioFed, audioDecoded := [], 0, [], 0;
      readyTimerArmed, endTimerArmed, stopResetEndTimer := false, false, false;
      events := [];
    }

    /** The parser's onReady: keep the header and the first video and audio
        tracks. (Configuring the decoders and starting extraction are calls
        into the platform and the parser.) */
    method OnFileReady(newInfo: FileInfo)
      requires Valid()
      modifies this
      ensures Valid()
      ensures info == Some(newInfo)
      ensures videoTrack == (if |newInfo.videoTracks| > 0 then Some(newInfo.videoTracks[0]) else None)
      ensures audioTrack == (if |newInfo.audioTracks| > 0 then Some(newInfo.audioTracks[0]) else None)
      ensures videoSamples == old(videoSamples) && audioSamples == old(audioSamples)
      ensures videoFed == old(videoFed) && videoDecoded == old(videoDecoded)
      ensures audioFed == old(audioFed) && audioDecoded == old(audioDecoded)
      ensures readyTimerArmed == old(readyTimerArmed) && endTimerArmed == old(endTimerArmed)
      ensures stopResetEndTimer == old(stopResetEndTimer) && events == old(events)
    {
      info := Some(newInfo);
      videoTrack := if |newInfo.videoTracks| > 0 then Some(newInfo.videoTracks[0]) else None;
      audioTrack := if |newInfo.audioTracks| > 0 then Some(newInfo.audioTracks[0]) else None;
    }

    /** The parser's onSamples: append the batch to the buffer of its type,
        leave the other buffer alone, and re-arm the ready timer. */
    method OnSamples(kind: SampleType, batch: seq<Sample>)
      requires Valid()
      modifies this
      ensures Valid()
      ensures videoSamples == old(videoSamples) + (if kind == VideoType then batch else [])
      ensures audioSamples == old(audioSamples) + (if kind == AudioType then batch else [])
      ensures readyTimerArmed
      ensures info == old(info) && videoTrack == old(videoTrack) && audioTrack == old(audioTrack)
      ensures videoFed == old(videoFed) && videoDecoded == old(videoDecoded)
      ensures audioFed == old(audioFed) && audioDecoded == old(audioDecoded)
      ensures endTimerArmed == old(endTimerArmed) && stopResetEndTimer == old(stopResetEndTimer)
      ensures events == old(events)
    {
      if kind == VideoType {
        videoSamples := videoSamples + batch;
      } else if kind == AudioType {
        audioSamples := audioSamples + batch;
      }
      readyTimerArmed := true;
    }

    /** The ready timer fires: with a header known, its duration is
        corrected to the sum of all buffered video sample durations and
        onReady reports it. */
    method OnReadyTimer()
      requires Valid() && readyTimerArmed
      modifies this
      ensures Valid()
      ensures !readyTimerArmed
      ensures old(info).None? ==> info.None? && events == old(events)
      ensures old(info).Some? ==>
        && info == Some(old(info).value.(duration := SumDurations(videoSamples)))
        && events == old(events) + [Ready(info.value)]
      ensures videoTrack == old(videoTrack) && audioTrack == old(audioTrack)
      ensures videoSamples == old(videoSamples) && audioSamples == old(audioSamples)
      ensures videoFed == old(videoFed) && videoDecoded == old(videoDecoded)
      ensures audioFed == old(audioFed) && audioDecoded == old(audioDecoded)
      ensures endTimerArmed == old(endTimerArmed) && stopResetEndTimer == old(stopResetEndTimer)
    {
      readyTimerArmed := false;
      if info.Some? {
        info := Some(info.value.(duration := SumDurations(videoSamples)));
        CompleteAfterFramesAppend(events, Ready(info.value));
        events := events + [Ready(info.value)];
      }
    }

    /** The video decoder outputs the frame of its oldest pending chunk:
        onVideoOutput reports it and the end timer is re-armed. */
    method OnVideoOutput()
      requires Valid() && videoDecoded < |videoFed|
      modifies this
      ensures Valid()
      ensures events == old(events) + [VideoFrame(old(videoFed)[old(videoDecoded)])]
      ensures videoDecoded == old(videoDecoded) + 1 && endTimerArmed
      ensures info == old(info) && videoTrack == old(videoTrack) && audioTrack == old(audioTrack)
      ensures videoSamples == old(videoSamples) && audioSamples == old(audioSamples)
      ensures videoFed == old(videoFed)
      ensures audioFed == old(audioFed) && audioDecoded == old(audioDecoded)
      ensures readyTimerArmed == old(readyTimerArmed) && stopResetEndTimer == old(stopResetEndTimer)
    {
      var x := VideoFrame(videoFed[videoDecoded]);
      CompleteAfterFramesAppend(events, x);
      assert videoFed[..videoDecoded + 1] == videoFed[..videoDecoded] + [videoFed[videoDecoded]];
      events := events + [x];
      videoDecoded := videoDecoded + 1;
      endTimerArmed := true;
    }

    /** The audio decoder outputs the frame of its oldest pending chunk. */
    method OnAudioOutput()
      requires Valid() && audioDecoded < |audioFed|
      modifies this
      ensures Valid()
      ensures events == old(events) + [AudioFrame(old(audioFed)[old(audioDecoded)])]
      ensures audioDecoded == old(audioDecoded) + 1 && endTimerArmed
      ensures info == old(info) && videoTrack == old(videoTrack) && audioTrack == old(audioTrack)
      ensures videoSamples == old(videoSamples) && audioSamples == old(audioSamples)
      ensures audioFed == old(audioFed)
      ensures videoFed == old(videoFed) && videoDecoded == old(videoDecoded)
      ensures readyTimerArmed == old(readyTimerArmed) && stopResetEndTimer == old(stopResetEndTimer)
    {
      var x := AudioFrame(audioFed[audioDecoded]);
      CompleteAfterFramesAppend(events, x);
      assert audioFed[..audioDecoded + 1] == audioFed[..audioDecoded] + [audioFed[audioDecoded]];
      events := events + [x];
      audioDecoded := audioDecoded + 1;
      endTimerArmed := true;
    }

    /** The end timer fires: after stop nothing happens; otherwise onComplete
        fires when both decoder queues are empty, and the timer is re-armed
        when they are not. */
    method OnEndTimer() returns (completed: bool)
      requires Valid() && endTimerArmed
      modifies this
      ensures Valid()
      ensures completed <==> !stopResetEndTimer && DecodeQueueSize() == (0, 0)
      ensures endTimerArmed <==> !stopResetEndTimer && DecodeQueueSize() != (0, 0)
      ensures events == old(events) + (if completed then [Complete] else [])
      ensures info == old(info) && videoTrack == old(videoTrack) && audioTrack == old(audioTrack)
      ensures videoSamples == old(videoSamples) && audioSamples == old(audioSamples)
      ensures videoFed == old(videoFed) && videoDecoded == old(videoDecoded)
      ensures audioFed == old(audioFed) && audioDecoded == old(audioDecoded)
      ensures readyTimerArmed == old(readyTimerArmed) && stopResetEndTimer == old(stopResetEndTimer)
    {
      endTimerArmed := false;
      completed := false;
      if stopResetEndTimer {
        return;
      }
      if |videoFed| - videoDecoded == 0 && |audioFed| - audioDecoded == 0 {
        CompleteAfterFramesAppend(events, Complete);
        events := events + [Complete];
        completed := true;
      } else {
        endTimerArmed := true;
      }
    }

    /** stop: silences the end timer for good. (Stopping the parser, closing
        the decoders and releasing the stream are platform calls.) */
    method Stop()
      requires Valid()
      modifies this
      ensures Valid()
      ensures stopResetEndTimer
      ensures info == old(info) && videoTrack == old(videoTrack) && audioTrack == old(audioTrack)
      ensures videoSamples == old(videoSamples) && audioSamples == old(audioSamples)
      ensures videoFed == old(videoFed) && videoDecoded == old(videoDecoded)
      ensures audioFed == old(audioFed) && audioDecoded == old(audioDecoded)
      ensures readyTimerArmed == old(readyTimerArmed) && endTimerArmed == old(endTimerArmed)
      ensures events == old(events)
    {
      stopResetEndTimer := true;
    }

    /** seek: for the video track, then (when enabled) the audio track, find
        the start index and feed every sample from there on to the decoder.
        A locator error is thrown at once, so a video error feeds nothing and
        an audio error keeps the video chunks already fed. */
    method Seek(time: real) returns (r: Result<(), LocateError>)
      requires Valid()
      modifies this
      ensures Valid()
      ensures var v := TrackSeek(old(videoSamples), old(videoTrack), true, time);
              var a := TrackSeek(old(audioSamples), old(audioTrack), audioEnabled, time);
        && (v.Err? ==> r == Err(v.error) && videoFed == old(videoFed) && audioFed == old(audioFed))
        && (v.Ok? && a.Err? ==> r == Err(a.error) && videoFed == old(videoFed) + v.value && audioFed == old(audioFed))
        && (v.Ok? && a.Ok? ==> r == Ok(()) && videoFed == old(videoFed) + v.value && audioFed == old(audioFed) + a.value)
      ensures info == old(info) && videoTrack == old(videoTrack) && audioTrack == old(audioTrack)
      ensures videoSamples == old(videoSamples) && audioSamples == old(audioSamples)
      ensures videoDecoded == old(videoDecoded) && audioDecoded == old(audioDecoded)
      ensures readyTimerArmed == old(readyTimerArmed) && endTimerArmed == old(endTimerArmed)
      ensures stopResetEndTimer == old(stopResetEndTimer) && events == old(events)
    {
      var v := SeekTrack(videoFed, videoSamples, videoTrack, true, time);
      if v.Err? {
        return Err(v.error);
      }
      assert v.value[..videoDecoded] == videoFed[..videoDecoded];
      videoFed := v.value;
      var a := SeekTrack(audioFed, audioSamples, audioTrack, audioEnabled, time);
      if a.Err? {
        return Err(a.error);
      }
      assert a.value[..audioDecoded] == audioFed[..audioDecoded];
      audioFed := a.value;
      return Ok(());
    }
  }

  /** After a run of onSamples batches, the duration onReady reports is the
      sum over every video batch. */
  lemma {:induction false} CorrectedDurationOverBatches(buffer: seq<Sample>, batches: seq<seq<Sample>>)
    ensures SumDurations(buffer + Flatten(batches)) == SumDurations(buffer) + SumOfBatches(batches)
    decreases |batches|
  {
    if |batches| > 0 {
      var init := batches[..|batches| - 1];
      var last := batches[|batches| - 1];
      assert Flatten(batches) == Flatten(init) + last;
      assert SumOfBatches(batches) == SumOfBatches(init) + SumDurations(last);
      assert buffer + Flatten(batches) == (buffer + Flatten(init)) + last;
      SumDurationsAppend(buffer + Flatten(init), last);
      CorrectedDurationOverBatches(buffer, init);
    } else {
      assert buffer + Flatten(batches) == buffer;
    }
  }

  /** The concatenation of batches, first to last. */
  function Flatten(batches: seq<seq<Sample>>): seq<Sample>
  {
    if |batches| == 0 then [] else Flatten(batches[..|batches| - 1]) + batches[|batches| - 1]
  }

  /** The per-batch duration sums added up. */
  function SumOfBatches(batches: seq<seq<Sample>>): int
  {
    if |batches| == 0 then 0 else SumOfBatches(batches[..|batches| - 1]) + SumDurations(batches[|batches| - 1])
  }
}
