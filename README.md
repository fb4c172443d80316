# mp4-utils pipeline model

A Dafny model of the bookkeeping in `packages/av-cliper/src/mp4-utils.ts` of
WebAV's av-cliper package. That file wraps the browser's WebCodecs encoders
and decoders and the mp4box container library. It has four parts:

- **Keyframe locator** (`findStartSampleIdx`), module `KeyframeLocator`. It
  finds where decoding resumes for a seek target. The model is a pure
  specification (`StartIndex`) plus the source's imperative loop
  (`FindStartSampleIdx`), proved equal to it.
- **Demux/decode pipeline** (`demuxcode`), module `Demux`, class `Demuxer`.
  It covers the per-track sample buffers, the duration correction, `seek`,
  `stop`, and the end-of-stream rule. Each parser, decoder or timer callback
  is a method. A decoder is the ordered log of chunks fed to it plus a count
  of frames it has output; its queue depth is the difference. A debounce
  timer is an "armed" flag plus a "timer fired" method.
- **Encode/remux pipeline** (`recodemux`, `encodeVideoTrack`,
  `encodeAudioTrack`), module `Remux`, class `Recodemux`. It covers the lazily
  created audio encoder and its backlog, the one-time video track
  registration followed by the audio track, one container sample per encoder
  output, the queue high-water mark, and the `checkEnded` progress poll. The
  container writer is a value holding its track list and each track's
  sample list.
- **Progressive writer** (`file2stream`), module `ProgressiveWriter`, class
  `Writer`. It covers the `deltaBuf` cursor and the `start`/`stop`/`exit`/
  `cancel` interplay. A box is opaque, so an output chunk is the list of
  boxes it serialises.

Module `Media` holds the shared values: samples, encoded chunks, the
sample↔chunk mappings of `seek` and `addSample`, and the duration sum.

## Edge cases of the code

- A seek target that is itself a sync sample makes `findStartSampleIdx`
  return 0, not the target's index. So `seek` feeds the whole buffer from
  sample 0 (`SyncTargetGivesZero`, `SeekOntoKeyframe`).
- A non-sync target at index 0 returns -1. `slice(-1)` then feeds only the
  last buffered sample (`NonSyncFirstGivesMinusOne`,
  `SeekFromNonSyncFirstSample`).
- The backward scan stops at index 0 without checking its sync flag. So
  decoding can resume at a non-sync sample 0.
- `onComplete` is not guarded against firing twice. A decoder output after a
  completion re-arms the end timer, which can complete again.
- `progress` is not clamped. In this model it still stays in [0, 1]: the
  queue grows only in `encodeVideo`, which raises the high-water mark at
  the same time. It equals 1 only on the tick that calls `onEnded`
  (`Recodemux.Valid`, `OnProgressTick`).
- `file2stream.stop` is not idempotent. A second call runs `exit` again.
  Its `enqueue` on the closed stream throws (`Writer.Stop`).

## Model

| member | source | states |
|---|---|---|
| Media.DecodeChunk | packages/av-cliper/src/mp4-utils.ts:153-158 | the chunk seek builds from a sample is 'key' exactly when the sample is sync and carries its cts, duration and payload |
| Media.EncodedSample | packages/av-cliper/src/mp4-utils.ts:300-305 | an encoder chunk becomes a sample with cts = dts = the chunk's timestamp, sync iff 'key', microsecond timescale, a missing duration written as 0; with a duration it reads back as the same chunk |
| Media.SumDurations | packages/av-cliper/src/mp4-utils.ts:113-116 | the corrected duration is 0 for no samples and, with non-negative durations, non-negative and at least every single sample's duration |
| Media.ChunkRoundTrip | packages/av-cliper/src/mp4-utils.ts:296-305 | an encoder chunk written as a sample (cts = dts = timestamp, sync iff 'key') and read back as a decoder chunk is the same chunk |
| Media.ChunkRoundTripNoDuration | packages/av-cliper/src/mp4-utils.ts:300-305 | a chunk without a duration is written with duration 0 and otherwise reads back unchanged |
| Media.SampleRoundTrip | packages/av-cliper/src/mp4-utils.ts:151-158 | a sample written by the remux side (cts = dts, microsecond timescale) survives the decoder-chunk mapping of seek unchanged |
| Media.DecodeChunks | packages/av-cliper/src/mp4-utils.ts:150-159 | one chunk per sample, in order, each built from its sample |
| Media.SumDurationsAppend | packages/av-cliper/src/mp4-utils.ts:113-116 | the duration sum over a buffer grown by a batch is the old sum plus the batch's sum |
| Media.SumDurationsConstant | packages/av-cliper/src/mp4-utils.ts:111-116 | n samples of equal duration d give a corrected duration of n * d |
| KeyframeLocator.FirstAtOrAfter | packages/av-cliper/src/mp4-utils.ts:188 | the findIndex result is the first sample with cts >= time, absent exactly when every sample is earlier |
| KeyframeLocator.ScanBack | packages/av-cliper/src/mp4-utils.ts:195-199 | the backward scan returns its start when <= 0; otherwise an index in [0, start] that is sync or 0, with no sync sample above it up to the start |
| KeyframeLocator.StartIndex | packages/av-cliper/src/mp4-utils.ts:187-202 | the locator's outcome: the 'Not found frame' error exactly when every sample is earlier than the time, otherwise an index in [-1, samples.length) |
| KeyframeLocator.FindStartSampleIdx | packages/av-cliper/src/mp4-utils.ts:187-202 | the findIndex loop and the `while (true)` scan compute exactly the specified start index or the 'Not found frame' error |
| KeyframeLocator.NotFoundIff | packages/av-cliper/src/mp4-utils.ts:188-191 | the locator throws exactly when no sample has cts >= time |
| KeyframeLocator.SyncTargetGivesZero | packages/av-cliper/src/mp4-utils.ts:192-193 | a sync target yields 0, not its own index |
| KeyframeLocator.NonSyncFirstGivesMinusOne | packages/av-cliper/src/mp4-utils.ts:194-196 | a non-sync target at index 0 yields -1 |
| KeyframeLocator.NonSyncTargetScansBack | packages/av-cliper/src/mp4-utils.ts:193-200 | a non-sync target at endIdx >= 1 yields r in [0, endIdx - 1], sync unless 0, with no sync sample strictly between r and endIdx |
| KeyframeLocator.ResultPrecedesTarget | packages/av-cliper/src/mp4-utils.ts:188-201 | once a target exists the locator returns an index at or before it; a non-negative index before it is earlier than the requested time |
| KeyframeLocator.SeekBetweenKeyframes | packages/av-cliper/src/mp4-utils.ts:187-202 | 30 samples at 30 fps with a keyframe every 10: a seek to 0.35 s resumes at sample 10 |
| KeyframeLocator.SeekOntoKeyframe | packages/av-cliper/src/mp4-utils.ts:192-193 | the same track seeked exactly onto the keyframe at sample 10 resumes at sample 0 |
| Demux.SeekFailsIff | packages/av-cliper/src/mp4-utils.ts:145-148 | seek on a track fails exactly when no buffered sample reaches the target |
| Demux.SeekResubmitsSuffix | packages/av-cliper/src/mp4-utils.ts:149-160 | for a start index i >= 0 the decoder receives exactly samples[i..] in order, one chunk per sample, 'key' iff sync; i is sync or 0 and at or before the target |
| Demux.SeekFromNonSyncFirstSample | packages/av-cliper/src/mp4-utils.ts:145-150 | a non-sync first target makes seek feed only the last buffered sample |
| Demux.Resubmit | packages/av-cliper/src/mp4-utils.ts:150-160 | the forEach loop appends the suffix's chunks to the decoder's input in order |
| Demux.SeekTrack | packages/av-cliper/src/mp4-utils.ts:144-161 | one track's seek block: nothing for an absent track, the locator's error thrown, or the suffix's chunks appended |
| Demux.CompleteAfterFramesAppend | packages/av-cliper/src/mp4-utils.ts:49-56 | appending to the callback log keeps every onComplete after at least one decoded frame |
| Demux.CorrectedDurationOverBatches | packages/av-cliper/src/mp4-utils.ts:113-126 | after any run of onSamples batches the corrected duration is the sum over all video batches |
| Demux.Demuxer.constructor | packages/av-cliper/src/mp4-utils.ts:46-48 | a new pipeline has empty buffers, idle decoders, no timers and no callbacks fired |
| Demux.Demuxer.OnFileReady | packages/av-cliper/src/mp4-utils.ts:76-104 | onReady keeps the header and the first video and first audio track (absent when none), changing nothing else |
| Demux.Demuxer.OnSamples | packages/av-cliper/src/mp4-utils.ts:121-128 | the batch is appended in order to the buffer of its type only, the other buffer unchanged, and the ready timer re-armed |
| Demux.Demuxer.OnReadyTimer | packages/av-cliper/src/mp4-utils.ts:109-119 | with a header known, its duration becomes the sum of all buffered video sample durations and onReady reports it |
| Demux.Demuxer.OnVideoOutput | packages/av-cliper/src/mp4-utils.ts:58-64 | the video frame of the oldest pending chunk is reported and the end timer re-armed; reported frames are the fed chunks in order |
| Demux.Demuxer.OnAudioOutput | packages/av-cliper/src/mp4-utils.ts:65-71 | likewise for audio |
| Demux.Demuxer.DecodeQueueSize | packages/av-cliper/src/mp4-utils.ts:139-142 | each decoder's queue size is at most what it was fed, and both are 0 exactly when every fed chunk has come out as a frame |
| Demux.Demuxer.OnEndTimer | packages/av-cliper/src/mp4-utils.ts:49-56 | onComplete fires iff not stopped and both decoder queues are empty; the timer is re-armed iff not stopped and a queue is not empty |
| Demux.Demuxer.Stop | packages/av-cliper/src/mp4-utils.ts:131-138 | stop sets the flag that silences the end timer and changes nothing else in the model |
| Demux.Demuxer.Seek | packages/av-cliper/src/mp4-utils.ts:143-180 | video then (if enabled) audio get their suffix chunks; a video error feeds nothing, an audio error keeps the video chunks |
| Remux.AddTrack | packages/av-cliper/src/mp4-utils.ts:291 | addTrack appends one empty track whose returned id names it; the existing tracks keep their ids and samples |
| Remux.AddSample | packages/av-cliper/src/mp4-utils.ts:300-305 | one sample is appended to exactly the track with that id; an unset id changes nothing |
| Remux.Recodemux.constructor | packages/av-cliper/src/mp4-utils.ts:212-229 | no tracks, no audio encoder, empty backlog, maxSize 0, not started, progress 0 |
| Remux.Recodemux.CheckEnded | packages/av-cliper/src/mp4-utils.ts:230-240 | the first call starts the progress poll; later calls change nothing |
| Remux.Recodemux.EncodeVideo | packages/av-cliper/src/mp4-utils.ts:243-249 | the frame is submitted at once, maxSize becomes the larger of itself and the new queue size, checkEnded runs |
| Remux.Recodemux.EncodeAudio | packages/av-cliper/src/mp4-utils.ts:250-258 | without the audio encoder the frame is only appended to the backlog; with it the frame is encoded at once and checkEnded runs; no audio frame is ever lost or reordered |
| Remux.Recodemux.StartAudioTrack | packages/av-cliper/src/mp4-utils.ts:216-225 | the audio track is added after the video track and the whole backlog goes to the audio encoder in submission order, leaving the backlog empty |
| Remux.Recodemux.OnVideoOutput | packages/av-cliper/src/mp4-utils.ts:287-306 | the first output with metadata registers the video track (id 1) and then the audio track (id 2); every output becomes one sample of the video track, dropped while none exists |
| Remux.Recodemux.OnAudioOutput | packages/av-cliper/src/mp4-utils.ts:360-370 | each audio output, however many one AudioData yields, appends exactly one sample (cts = dts = timestamp, duration or 0, sync iff 'key') to the audio track |
| Remux.Recodemux.OnProgressTick | packages/av-cliper/src/mp4-utils.ts:233-239 | progress = 1 - queue / maxSize, which is 1 iff the queue is empty; then the poll stops and onEnded is called, at most once overall |
| Remux.Recodemux.Close | packages/av-cliper/src/mp4-utils.ts:259-265 | close stops the progress poll |
| Remux.ProgressRatioBounds | packages/av-cliper/src/mp4-utils.ts:234 | with 0 < maxSize and queue <= maxSize the ratio lies in [0, 1] and is 1 exactly for an empty queue |
| ProgressiveWriter.ConcatAppend | packages/av-cliper/src/mp4-utils.ts:427-435 | laying the enqueued chunks end to end is compatible with appending one more delta, the step by which deltaBuf keeps the cursor invariant |
| ProgressiveWriter.DeltasPartition | packages/av-cliper/src/mp4-utils.ts:425-435 | deltas cut at successive cursors give back the box list up to the last cursor, each box once, in order |
| ProgressiveWriter.Writer.constructor | packages/av-cliper/src/mp4-utils.ts:423-438 | cursor 0, nothing sent, not stopped, no exit installed |
| ProgressiveWriter.Writer.DeltaBuf | packages/av-cliper/src/mp4-utils.ts:427-435 | the delta is exactly boxes[cursor..] in order, and the cursor moves to boxes.length |
| ProgressiveWriter.Writer.AppendBoxes | packages/av-cliper/src/mp4-utils.ts:426 | the shared box list only grows; the cursor is unchanged |
| ProgressiveWriter.Writer.Tick | packages/av-cliper/src/mp4-utils.ts:441-443 | a tick enqueues the delta; all enqueued chunks end to end are the whole box list |
| ProgressiveWriter.Writer.Exit | packages/av-cliper/src/mp4-utils.ts:445-450 | exit stops the timer, flushes, enqueues the last delta and closes; on a closed or cancelled stream the enqueue throws |
| ProgressiveWriter.Writer.Start | packages/av-cliper/src/mp4-utils.ts:440-454 | start runs the interval and installs exit, running exit at once when stop came first |
| ProgressiveWriter.Writer.Stop | packages/av-cliper/src/mp4-utils.ts:463-466 | stop runs exit when installed; the first such stop delivers every box exactly once in order, a second one throws |
| ProgressiveWriter.Writer.Cancel | packages/av-cliper/src/mp4-utils.ts:455-458 | cancel, also after exit closed a stream whose chunks are still unread, stops the interval and calls onCancel without flushing |

## Left out

- Browser codec objects: `configure`, codec strings and decoder/encoder options (mp4-utils.ts:82-101, 311-337, 372-377). These are platform calls. A codec is an input log plus an output count. Each decoder output and each video encoder output answers the oldest pending input, one output per input; the video queue size the progress poll reads is the difference. The audio encoder may emit any number of chunks once it has input (an AAC encoder emits one per 1024 audio frames), and the source never reads its queue, so the model does not pair its outputs with inputs.
- Decoder and encoder error callbacks (`Log.error`) and the asynchronous `flush`/`close` in `recodemux.close` are platform behaviour.
- Releasing frames (`vf.close()`, `ad.close()`) is resource management. It has no effect on the modelled state.
- mp4box: parsing, `appendBuffer`, `setExtractionOptions`, `start`, `stop`, the internals of `addTrack`, `box.write`, `flush` and `parseVideoCodecDesc` (mp4-utils.ts:486-501). Boxes are opaque values. The boxes `flush` adds are a parameter of `Exit`/`Stop`/`Start`. The model assumes `addSample` on an id that names no track is ignored, as when the first video output lacks metadata.
- The growing `file.boxes` list is shared between the container and `file2stream`. The model keeps it in `Writer` and grows it through `AppendBoxes`, not through `Recodemux`'s container value.
- `stream2file` (mp4-utils.ts:382-413) is an asynchronous read loop over the input stream, so it is I/O.
- Real-time behaviour of `debounce`, `setInterval` and `setTimeout` (mp4-utils.ts:470-483, 233-239, 441-443). Each timer is an armed flag, and its expiry is an explicit event method.
- Floating point. The seek target `time * timescale` is computed exactly over `real`. Decoder chunk timestamps stay in track units, without the `1e6 * cts / timescale` scaling; for the microsecond tracks the remux side writes, the two coincide. Progress is an exact `real` ratio.
- ReadableStream runs `start` during construction, so `stop` before `start` cannot happen in practice. The model keeps the guard's path (mp4-utils.ts:453) reachable anyway.
- Demux.Demuxer.Stop: does not model closing the decoders, stopping the parser or cancelling the input stream. Those are platform calls, and closing an already closed decoder is platform behaviour.
